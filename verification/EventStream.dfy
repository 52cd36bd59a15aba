/**
 Server-sent events from one end to the other: the printer of job events, the wire cut into chunks
 anywhere, and the streaming parser. The format is that of section 9.2.6 of the WHATWG HTML
 standard, except that the parser trims event names and all leading space of data.

 The wire is modelled as characters: decoding of UTF-8 comes before.
*/
module EventStream {
  import opened Wrappers

  // ---------- Characters ----------

  /** White space and line terminators of ECMAScript, which is what trim removes. */
  predicate IsSpace(c: char) {
    var n := c as int;
    || 9 <= n <= 13 || n == 0x20 || n == 0xA0 || n == 0x1680 || 0x2000 <= n <= 0x200A
    || n == 0x2028 || n == 0x2029 || n == 0x202F || n == 0x205F || n == 0x3000 || n == 0xFEFF
  }

  function TrimStart(s: string): string {
    if s != "" && IsSpace(s[0]) then TrimStart(s[1..]) else s
  }

  function TrimEnd(s: string): string {
    if s != "" && IsSpace(s[|s| - 1]) then TrimEnd(s[..|s| - 1]) else s
  }

  function Trim(s: string): string {
    TrimEnd(TrimStart(s))
  }

  // ---------- Line ends ----------

  /** CR LF, CR and LF all become LF. */
  function Normalize(s: string): string {
    if s == "" then ""
    else if s[0] == '\r' then
      if |s| > 1 && s[1] == '\n' then "\n" + Normalize(s[2..]) else "\n" + Normalize(s[1..])
    else [s[0]] + Normalize(s[1..])
  }

  /** A cut between two pieces that does not fall between CR and LF. */
  predicate CleanCut(a: string, b: string) {
    a == "" || b == "" || a[|a| - 1] != '\r' || b[0] != '\n'
  }

  lemma {:induction false} NormalizeAppend(a: string, b: string)
    requires CleanCut(a, b)
    ensures Normalize(a + b) == Normalize(a) + Normalize(b)
    decreases |a|
  {
    if a == "" {
      assert a + b == b;
    } else {
      var step := if a[0] == '\r' && |a| > 1 && a[1] == '\n' then 2 else 1;
      assert (a + b)[step..] == a[step..] + b;
      NormalizeAppend(a[step..], b);
      assert a[0] == '\r' && |a| == 1 && b != "" ==> (a + b)[1] == b[0];
    }
  }

  lemma {:induction false} NormalizeIsClean(s: string)
    ensures '\r' !in Normalize(s)
    decreases |s|
  {
    if s != "" {
      NormalizeIsClean(s[1..]);
      if |s| > 1 {
        NormalizeIsClean(s[2..]);
      }
    }
  }

  lemma {:induction false} NormalizeOfClean(s: string)
    requires '\r' !in s
    ensures Normalize(s) == s
  {
    if s != "" {
      NormalizeOfClean(s[1..]);
    }
  }

  // ---------- Blocks ----------

  predicate BlankLineAt(s: string, i: nat) {
    i + 1 < |s| && s[i] == '\n' && s[i + 1] == '\n'
  }

  /** indexOf: the first blank line, if there is one. */
  function Boundary(s: string): (r: Option<nat>)
    ensures r.Some? ==> BlankLineAt(s, r.value) && forall i :: 0 <= i < r.value ==> !BlankLineAt(s, i)
    ensures r.None? ==> forall i :: 0 <= i ==> !BlankLineAt(s, i)
  {
    BoundaryFrom(s, 0)
  }

  function BoundaryFrom(s: string, from: nat): (r: Option<nat>)
    requires from <= |s| && forall i :: 0 <= i < from ==> !BlankLineAt(s, i)
    ensures r.Some? ==> BlankLineAt(s, r.value) && forall i :: 0 <= i < r.value ==> !BlankLineAt(s, i)
    ensures r.None? ==> forall i :: 0 <= i ==> !BlankLineAt(s, i)
    decreases |s| - from
  {
    if from + 1 >= |s| then None
    else if BlankLineAt(s, from) then Some(from)
    else BoundaryFrom(s, from + 1)
  }

  /** The blocks that blank lines close, and the open rest. */
  function Blocks(s: string): (r: (seq<string>, string))
    decreases |s|
  {
    match Boundary(s)
    case None => ([], s)
    case Some(i) =>
      var (blocks, rest) := Blocks(s[i + 2..]);
      ([s[..i]] + blocks, rest)
  }

  lemma {:induction false} BlocksAppend(x: string, y: string)
    ensures var (b1, r1) := Blocks(x);
            var (b2, r2) := Blocks(r1 + y);
            Blocks(x + y) == (b1 + b2, r2)
    decreases |x|
  {
    match Boundary(x)
    case None => assert [] + Blocks(x + y).0 == Blocks(x + y).0;
    case Some(i) =>
      assert BlankLineAt(x + y, i);
      forall j | 0 <= j < i
        ensures !BlankLineAt(x + y, j)
      {
        assert !BlankLineAt(x, j);
      }
      assert Boundary(x + y) == Some(i);
      assert (x + y)[i + 2..] == x[i + 2..] + y && (x + y)[..i] == x[..i];
      BlocksAppend(x[i + 2..], y);
      var (b1, r1) := Blocks(x[i + 2..]);
      var (b2, r2) := Blocks(r1 + y);
      assert [x[..i]] + (b1 + b2) == ([x[..i]] + b1) + b2;
  }

  lemma {:induction false} RestIsOpen(s: string)
    ensures Boundary(Blocks(s).1).None?
    ensures '\r' !in s ==> '\r' !in Blocks(s).1
    decreases |s|
  {
    match Boundary(s)
    case None =>
    case Some(i) => RestIsOpen(s[i + 2..]);
  }

  // ---------- Events ----------

  datatype Event = Event(event: string, data: string)

  function SplitLines(s: string): (lines: seq<string>)
    ensures lines != []
    decreases |s|
  {
    if s == "" then [""]
    else
      var rest := SplitLines(s[1..]);
      if s[0] == '\n' then [""] + rest else [[s[0]] + rest[0]] + rest[1..]
  }

  predicate StartsWith(s: string, prefix: string) {
    |prefix| <= |s| && s[..|prefix|] == prefix
  }

  /** What a block has said so far: the last event name, and its data lines. */
  datatype Fields = Fields(event: string, data: seq<string>)

  function ReadLine(fields: Fields, line: string): Fields {
    if line == "" || StartsWith(line, ":") then fields
    else if StartsWith(line, "event:") then fields.(event := Trim(line[6..]))
    else if StartsWith(line, "data:") then fields.(data := fields.data + [TrimStart(line[5..])])
    else fields
  }

  function ReadLines(fields: Fields, lines: seq<string>): Fields
    decreases |lines|
  {
    if lines == [] then fields else ReadLines(ReadLine(fields, lines[0]), lines[1..])
  }

  function Join(lines: seq<string>): string {
    if lines == [] then "" else if |lines| == 1 then lines[0] else lines[0] + "\n" + Join(lines[1..])
  }

  /** A block without data gives no event. */
  function BlockEvents(block: string): seq<Event> {
    var fields := ReadLines(Fields("message", []), SplitLines(block));
    if fields.data == [] then [] else [Event(fields.event, Join(fields.data))]
  }

  function EventsOf(blocks: seq<string>): seq<Event> {
    if blocks == [] then [] else BlockEvents(blocks[0]) + EventsOf(blocks[1..])
  }

  lemma {:induction false} EventsOfAppend(a: seq<string>, b: seq<string>)
    ensures EventsOf(a + b) == EventsOf(a) + EventsOf(b)
  {
    if a == [] {
      assert a + b == b;
    } else {
      assert (a + b)[1..] == a[1..] + b;
      EventsOfAppend(a[1..], b);
    }
  }

  /** The events of a stream taken as one piece. */
  function Parse(stream: string): seq<Event> {
    EventsOf(Blocks(Normalize(stream)).0)
  }

  // ---------- The streaming parser ----------

  function Concat(chunks: seq<string>): string {
    if chunks == [] then "" else chunks[0] + Concat(chunks[1..])
  }

  lemma {:induction false} ConcatAppend(a: seq<string>, b: seq<string>)
    ensures Concat(a + b) == Concat(a) + Concat(b)
  {
    if a == [] {
      assert a + b == b;
    } else {
      assert (a + b)[1..] == a[1..] + b;
      ConcatAppend(a[1..], b);
    }
  }

  predicate EndsWithCR(s: string) {
    s != "" && s[|s| - 1] == '\r'
  }

  /** The text that may be normalized now: a final CR waits for the next chunk. */
  function Settled(s: string): string {
    if EndsWithCR(s) then s[..|s| - 1] else s
  }

  function HeldBack(s: string): string {
    if EndsWithCR(s) then "\r" else ""
  }

  /** The state of the parser after the text seen: the events given out and the buffer kept. */
  ghost predicate InStep(seen: string, events: seq<Event>, buffer: string) {
    var (blocks, rest) := Blocks(Normalize(Settled(seen)));
    events == EventsOf(blocks) && buffer == rest + HeldBack(seen)
  }

  /** One block: the loop over its lines. */
  method ParseBlock(block: string) returns (events: seq<Event>)
    ensures events == BlockEvents(block)
  {
    var lines := SplitLines(block);
    var event := "message";
    var data: seq<string> := [];
    for i := 0 to |lines|
      invariant ReadLines(Fields(event, data), lines[i..]) == ReadLines(Fields("message", []), lines)
    {
      var line := lines[i];
      assert lines[i..][0] == line && lines[i..][1..] == lines[i + 1..];
      if line != "" && !StartsWith(line, ":") {
        assert StartsWith(line, "event:") ==> line[0] == 'e';
        assert StartsWith(line, "data:") ==> line[0] == 'd';
        if StartsWith(line, "event:") {
          event := Trim(line[6..]);
        }
        if StartsWith(line, "data:") {
          data := data + [TrimStart(line[5..])];
        }
      }
    }
    return if data == [] then [] else [Event(event, Join(data))];
  }

  /** Take the closed blocks off the front of a normalized buffer. */
  method Drain(buffer: string) returns (events: seq<Event>, rest: string)
    ensures events == EventsOf(Blocks(buffer).0) && rest == Blocks(buffer).1
  {
    events, rest := [], buffer;
    var boundary := Boundary(rest);
    while boundary.Some?
      invariant boundary == Boundary(rest)
      invariant events + EventsOf(Blocks(rest).0) == EventsOf(Blocks(buffer).0)
      invariant Blocks(rest).1 == Blocks(buffer).1
      decreases |rest|
    {
      var block := rest[..boundary.value];
      assert Blocks(rest).0[1..] == Blocks(rest[boundary.value + 2..]).0;
      rest := rest[boundary.value + 2..];
      var some := ParseBlock(block);
      events := events + some;
      boundary := Boundary(rest);
    }
    assert Blocks(rest).0 == [];
  }

  /** One read: append, normalize what is settled, and give out the events of the closed blocks. */
  method Feed(buffer: string, value: string, done: bool) returns (events: seq<Event>, kept: string)
    ensures done ==> events == EventsOf(Blocks(Normalize(buffer + value)).0)
    ensures !done ==>
      var (blocks, rest) := Blocks(Normalize(Settled(buffer + value)));
      events == EventsOf(blocks) && kept == rest + HeldBack(buffer + value)
  {
    var text := buffer + value;
    var pending := !done && EndsWithCR(text);
    var normalizable := if pending then text[..|text| - 1] else text;
    text := Normalize(normalizable);
    events, kept := Drain(text);
    kept := kept + if pending then "\r" else "";
  }

  method ParseCanvasSSE(chunks: seq<string>) returns (events: seq<Event>)
    ensures events == Parse(Concat(chunks))
  {
    events := [];
    var buffer := "";
    ghost var seen := "";
    assert Blocks("") == ([], "");
    for next := 0 to |chunks|
      invariant seen == Concat(chunks[..next]) && InStep(seen, events, buffer)
    {
      NextStep(seen, events, buffer, chunks[next]);
      var some;
      some, buffer := Feed(buffer, chunks[next], false);
      events := events + some;
      ConcatOneMore(chunks, next);
      seen := seen + chunks[next];
    }
    // the read after the last chunk only says that the stream is done
    LastStep(seen, events, buffer);
    assert chunks[..|chunks|] == chunks && buffer + "" == buffer;
    var some, _ := Feed(buffer, "", true);
    events := events + some;
  }

  lemma ConcatOneMore(chunks: seq<string>, n: nat)
    requires n < |chunks|
    ensures Concat(chunks[..n + 1]) == Concat(chunks[..n]) + chunks[n]
  {
    assert chunks[..n + 1] == chunks[..n] + [chunks[n]];
    ConcatAppend(chunks[..n], [chunks[n]]);
    assert Concat([chunks[n]]) == chunks[n];
  }

  lemma SettledAppend(a: string, b: string)
    requires b != ""
    ensures Settled(a + b) == a + Settled(b) && HeldBack(a + b) == HeldBack(b)
  {
  }

  /** The kept rest starts where the settled text ends, so more text can be normalized on either side. */
  lemma Advance(seen: string, events: seq<Event>, buffer: string, more: string)
    requires InStep(seen, events, buffer) && CleanCut(Settled(seen), more)
    ensures var rest := Blocks(Normalize(Settled(seen))).1;
            var (blocks, rest') := Blocks(Normalize(rest + more));
            && events + EventsOf(blocks) == EventsOf(Blocks(Normalize(Settled(seen) + more)).0)
            && rest' == Blocks(Normalize(Settled(seen) + more)).1
  {
    var rest := Blocks(Normalize(Settled(seen))).1;
    NormalizeIsClean(Settled(seen));
    RestIsOpen(Normalize(Settled(seen)));
    NormalizeOfClean(rest);
    assert rest != "" ==> rest[|rest| - 1] in rest;
    NormalizeAppend(rest, more);
    NormalizeAppend(Settled(seen), more);
    BlocksAppend(Normalize(Settled(seen)), Normalize(more));
    EventsOfAppend(Blocks(Normalize(Settled(seen))).0, Blocks(rest + Normalize(more)).0);
  }

  lemma LastStep(seen: string, events: seq<Event>, buffer: string)
    requires InStep(seen, events, buffer)
    ensures events + EventsOf(Blocks(Normalize(buffer)).0) == Parse(seen)
  {
    Advance(seen, events, buffer, HeldBack(seen));
    assert Settled(seen) + HeldBack(seen) == seen;
  }

  lemma NextStep(seen: string, events: seq<Event>, buffer: string, value: string)
    requires InStep(seen, events, buffer)
    ensures var (blocks, rest) := Blocks(Normalize(Settled(buffer + value)));
            InStep(seen + value, events + EventsOf(blocks), rest + HeldBack(buffer + value))
  {
    var rest := Blocks(Normalize(Settled(seen))).1;
    var more := HeldBack(seen) + value;
    assert Settled(seen) + more == seen + value;
    assert buffer + value == rest + more;
    if more == "" {
      assert seen + value == seen && buffer + value == buffer == rest;
      StillOpen(Settled(seen));
      assert events + EventsOf([]) == events;
    } else {
      SettledAppend(rest, more);
      SettledAppend(Settled(seen), more);
      Advance(seen, events, buffer, Settled(more));
    }
  }

  lemma StillOpen(settled: string)
    ensures var rest := Blocks(Normalize(settled)).1;
            Settled(rest) == rest && HeldBack(rest) == "" && Blocks(Normalize(rest)) == ([], rest)
  {
    var rest := Blocks(Normalize(settled)).1;
    NormalizeIsClean(settled);
    RestIsOpen(Normalize(settled));
    NormalizeOfClean(rest);
    assert rest != "" ==> rest[|rest| - 1] in rest;
  }
}
