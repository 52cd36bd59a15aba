/** The server end of an event stream, and what the client reads of it. */
module JobEvents {
  import opened Wrappers
  import opened EventStream

  // ---------- Printing ----------

  datatype Item = Told(event: Event) | Keepalive

  function Print(item: Item): string {
    match item
    case Told(e) => "event: " + e.event + "\ndata: " + e.data + "\n\n"
    case Keepalive => ": keepalive\n\n"
  }

  function PrintAll(items: seq<Item>): string {
    if items == [] then "" else Print(items[0]) + PrintAll(items[1..])
  }

  function EventsIn(items: seq<Item>): seq<Event> {
    if items == [] then []
    else if items[0].Told? then [items[0].event] + EventsIn(items[1..])
    else EventsIn(items[1..])
  }

  predicate OneLine(s: string) {
    '\n' !in s && '\r' !in s
  }

  /** What the parser gives back unchanged: one line each, without space that it would trim. */
  predicate Plain(item: Item) {
    item.Told? ==>
      && OneLine(item.event.event) && Trim(item.event.event) == item.event.event
      && OneLine(item.event.data) && TrimStart(item.event.data) == item.event.data
  }

  predicate AllPlain(items: seq<Item>) {
    forall i :: 0 <= i < |items| ==> Plain(items[i])
  }

  lemma {:induction false} PrintedIsClean(items: seq<Item>)
    requires AllPlain(items)
    ensures '\r' !in PrintAll(items)
  {
    if items != [] {
      PrintedIsClean(items[1..]);
    }
  }

  // ---------- Lines and blocks of a printed item ----------

  lemma {:induction false} SplitOneLine(s: string)
    requires '\n' !in s
    ensures SplitLines(s) == [s]
  {
    if s != "" {
      SplitOneLine(s[1..]);
      assert [s[0]] + s[1..] == s && [s[1..]][1..] == [];
    }
  }

  lemma {:induction false} SplitTwoLines(a: string, b: string)
    requires '\n' !in a && '\n' !in b
    ensures SplitLines(a + "\n" + b) == [a, b]
  {
    if a == "" {
      assert (a + "\n" + b)[1..] == b;
      SplitOneLine(b);
    } else {
      assert (a + "\n" + b)[1..] == a[1..] + "\n" + b;
      SplitTwoLines(a[1..], b);
      assert [a[0]] + a[1..] == a;
    }
  }

  lemma TrimSpaceBefore(s: string)
    ensures TrimStart(" " + s) == TrimStart(s) && Trim(" " + s) == Trim(s)
  {
    assert (" " + s)[1..] == s;
  }

  function Block(item: Item): string {
    match item
    case Told(e) => "event: " + e.event + "\ndata: " + e.data
    case Keepalive => ": keepalive"
  }

  lemma ReadTwoLines(fields: Fields, a: string, b: string)
    ensures ReadLines(fields, [a, b]) == ReadLine(ReadLine(fields, a), b)
  {
    assert [a, b][1..] == [b] && [b][1..] == [];
    assert ReadLines(ReadLine(fields, a), [b]) == ReadLines(ReadLine(ReadLine(fields, a), b), []);
  }

  lemma ReadEventLine(fields: Fields, name: string)
    requires Trim(" " + name) == name
    ensures ReadLine(fields, "event: " + name) == fields.(event := name)
  {
    var line := "event: " + name;
    assert line[..1][0] == 'e' && ":"[0] == ':';
    assert line[..6] == "event:" && line[6..] == " " + name;
  }

  lemma ReadDataLine(fields: Fields, data: string)
    requires TrimStart(" " + data) == data
    ensures ReadLine(fields, "data: " + data) == fields.(data := fields.data + [data])
  {
    var line := "data: " + data;
    assert line[..1][0] == 'd' && ":"[0] == ':';
    assert line[..5] == "data:" && line[5..] == " " + data;
    assert line[..6][0] == 'd' && "event:"[0] == 'e';
  }

  lemma BlockOfEvent(e: Event)
    requires Plain(Told(e))
    ensures BlockEvents(Block(Told(e))) == [e]
  {
    var first, second := "event: " + e.event, "data: " + e.data;
    assert Block(Told(e)) == first + "\n" + second;
    SplitTwoLines(first, second);
    var start := Fields("message", []);
    ReadTwoLines(start, first, second);
    TrimSpaceBefore(e.event);
    TrimSpaceBefore(e.data);
    ReadEventLine(start, e.event);
    ReadDataLine(Fields(e.event, []), e.data);
  }

  lemma BlockOfKeepalive()
    ensures BlockEvents(Block(Keepalive)) == []
  {
    SplitOneLine(": keepalive");
    assert StartsWith(": keepalive", ":");
    assert [": keepalive"][1..] == [];
  }

  /** A printed item closes its own block. */
  lemma FirstBlock(item: Item, rest: string)
    requires Plain(item)
    ensures Blocks(Print(item) + rest) == ([Block(item)] + Blocks(rest).0, Blocks(rest).1)
  {
    var s := Print(item) + rest;
    var n := |Block(item)|;
    assert s == Block(item) + "\n\n" + rest;
    NoBlankLineInside(item, s);
    assert BlankLineAt(s, n);
    assert Boundary(s) == Some(n);
    assert s[..n] == Block(item) && s[n + 2..] == rest;
  }

  lemma NoBlankLineInside(item: Item, s: string)
    requires Plain(item) && |Block(item)| < |s| && s[..|Block(item)|] == Block(item)
    ensures forall i :: 0 <= i < |Block(item)| ==> !BlankLineAt(s, i)
  {
    var block := Block(item);
    forall i | 0 <= i < |block|
      ensures !BlankLineAt(s, i)
    {
      assert s[i] == block[i];
      if item.Told? {
        var e := item.event;
        var m := 7 + |e.event|;
        assert block[m] == '\n' && block[m + 1] == 'd' && s[m + 1] == block[m + 1];
        assert i < m ==> block[i] == ("event: " + e.event)[i];
        assert i > m ==> block[i] == ("data: " + e.data)[i - m - 1];
      }
    }
  }

  lemma {:induction false} BlocksOfPrinted(items: seq<Item>)
    requires AllPlain(items)
    ensures EventsOf(Blocks(PrintAll(items)).0) == EventsIn(items)
    ensures Blocks(PrintAll(items)).1 == ""
  {
    if items == [] {
      assert Boundary("").None?;
    } else {
      var item := items[0];
      BlocksOfPrinted(items[1..]);
      FirstBlock(item, PrintAll(items[1..]));
      var blocks := Blocks(PrintAll(items[1..])).0;
      assert ([Block(item)] + blocks)[1..] == blocks;
      if item.Told? {
        BlockOfEvent(item.event);
      } else {
        BlockOfKeepalive();
      }
    }
  }

  lemma PrintedParses(items: seq<Item>)
    requires AllPlain(items)
    ensures Parse(PrintAll(items)) == EventsIn(items)
  {
    PrintedIsClean(items);
    NormalizeOfClean(PrintAll(items));
    BlocksOfPrinted(items);
  }

  /** However the printed stream is cut, the client gets exactly the events told, in order, and no keepalive. */
  method RoundTrip(items: seq<Item>, chunks: seq<string>) returns (events: seq<Event>)
    requires AllPlain(items) && Concat(chunks) == PrintAll(items)
    ensures events == EventsIn(items)
  {
    PrintedParses(items);
    events := ParseCanvasSSE(chunks);
  }

  // ---------- Data of several lines ----------

  lemma {:induction false} SplitFirst(a: string, b: string)
    requires '\n' !in a
    ensures SplitLines(a + "\n" + b) == [a] + SplitLines(b)
  {
    if a == "" {
      assert (a + "\n" + b)[1..] == b;
    } else {
      assert (a + "\n" + b)[1..] == a[1..] + "\n" + b;
      SplitFirst(a[1..], b);
      assert [a[0]] + a[1..] == a;
    }
  }

  lemma {:induction false} JoinSplit(s: string)
    ensures Join(SplitLines(s)) == s && forall d :: d in SplitLines(s) ==> '\n' !in d
  {
    if s != "" {
      JoinSplit(s[1..]);
      var rest := SplitLines(s[1..]);
      if s[0] == '\n' {
        assert ([""] + rest)[1..] == rest;
      } else {
        var first := [s[0]] + rest[0];
        assert ([first] + rest[1..])[1..] == rest[1..];
        assert |rest| > 1 ==> Join([first] + rest[1..]) == [s[0]] + Join(rest);
      }
    }
  }

  /** The lines of a text, each after the name of its field. */
  function DataLines(ds: seq<string>): string
    requires ds != []
  {
    if |ds| == 1 then "data: " + ds[0] else "data: " + ds[0] + "\n" + DataLines(ds[1..])
  }

  lemma {:induction false} ReadDataLines(fields: Fields, ds: seq<string>)
    requires ds != [] && forall d :: d in ds ==> '\n' !in d && TrimStart(d) == d
    ensures ReadLines(fields, SplitLines(DataLines(ds))) == fields.(data := fields.data + ds)
    decreases |ds|
  {
    var line, next := "data: " + ds[0], fields.(data := fields.data + [ds[0]]);
    TrimSpaceBefore(ds[0]);
    ReadDataLine(fields, ds[0]);
    if |ds| == 1 {
      SplitOneLine(line);
      assert [line][1..] == [] && fields.data + ds == fields.data + [ds[0]];
    } else {
      var more := SplitLines(DataLines(ds[1..]));
      SplitFirst(line, DataLines(ds[1..]));
      assert ([line] + more)[0] == line && ([line] + more)[1..] == more;
      ReadDataLines(next, ds[1..]);
      assert fields.data + ds == fields.data + [ds[0]] + ds[1..];
    }
  }

  /** Any text, sent line by line as data, comes back with its line ends, if no line begins with a space; without a name it is a message. */
  lemma TextComesBack(text: string)
    requires forall d :: d in SplitLines(text) ==> TrimStart(d) == d
    ensures BlockEvents(DataLines(SplitLines(text))) == [Event("message", text)]
  {
    JoinSplit(text);
    ReadDataLines(Fields("message", []), SplitLines(text));
    assert [] + SplitLines(text) == SplitLines(text);
  }

  // ---------- The polling loop ----------

  /** A job as the stream shows it: its status, its time stamp in milliseconds, and its JSON on one line. */
  datatype Snapshot = Snapshot(status: string, updatedAt: int, json: string)

  predicate TerminalStatus(status: string) {
    || status == "completed" || status == "partial" || status == "failed"
    || status == "canceled" || status == "indeterminate" || status == "expired"
  }

  function EventFor(job: Snapshot): Event {
    Event(if TerminalStatus(job.status) then job.status else "progress", job.json)
  }

  /** What wakes the loop: its keepalive ticker, or a poll that reads the job or fails; no tick is the end of the request. */
  datatype Tick = KeepaliveTick | Poll(job: Option<Snapshot>)

  function ItemsFrom(last: int, ticks: seq<Tick>): seq<Item>
    decreases |ticks|
  {
    if ticks == [] then []
    else match ticks[0]
    case KeepaliveTick => [Keepalive] + ItemsFrom(last, ticks[1..])
    case Poll(None) => []
    case Poll(Some(job)) =>
      (if job.updatedAt != last then [Told(EventFor(job))] else []) +
      (if TerminalStatus(job.status) then [] else ItemsFrom(job.updatedAt, ticks[1..]))
  }

  function Items(initial: Snapshot, ticks: seq<Tick>): seq<Item> {
    [Told(EventFor(initial))] + if TerminalStatus(initial.status) then [] else ItemsFrom(initial.updatedAt, ticks)
  }

  lemma PrintFirst(item: Item, rest: seq<Item>)
    ensures PrintAll([item] + rest) == Print(item) + PrintAll(rest)
  {
    assert ([item] + rest)[1..] == rest;
  }

  /** What a tick writes, the time stamp told after it, and whether the stream goes on. */
  ghost predicate AfterTick(last: int, tick: Tick, text: string, last': int, goesOn: bool) {
    match tick
    case KeepaliveTick => text == Print(Keepalive) && last' == last && goesOn
    case Poll(None) => text == "" && !goesOn
    case Poll(Some(job)) =>
      && text == (if job.updatedAt != last then Print(Told(EventFor(job))) else "")
      && last' == job.updatedAt && goesOn == !TerminalStatus(job.status)
  }

  lemma TickPrints(last: int, ticks: seq<Tick>, text: string, last': int, goesOn: bool)
    requires ticks != [] && AfterTick(last, ticks[0], text, last', goesOn)
    ensures PrintAll(ItemsFrom(last, ticks)) == text + if goesOn then PrintAll(ItemsFrom(last', ticks[1..])) else ""
  {
    match ticks[0]
    case KeepaliveTick => PrintFirst(Keepalive, ItemsFrom(last, ticks[1..]));
    case Poll(None) =>
    case Poll(Some(job)) =>
      var rest := if goesOn then ItemsFrom(last', ticks[1..]) else [];
      if job.updatedAt != last {
        PrintFirst(Told(EventFor(job)), rest);
      } else {
        assert ItemsFrom(last, ticks) == [] + rest == rest;
      }
  }

  lemma TickAppends(output: string, last: int, ticks: seq<Tick>, text: string, last': int, goesOn: bool)
    requires ticks != [] && AfterTick(last, ticks[0], text, last', goesOn)
    ensures goesOn ==> (output + text) + PrintAll(ItemsFrom(last', ticks[1..])) == output + PrintAll(ItemsFrom(last, ticks))
    ensures !goesOn ==> output + text == output + PrintAll(ItemsFrom(last, ticks))
  {
    hide TerminalStatus, Print, EventFor, AfterTick, PrintAll, ItemsFrom;
    TickPrints(last, ticks, text, last', goesOn);
    var rest := PrintAll(ItemsFrom(last', ticks[1..]));
    assert (output + text) + rest == output + (text + rest);
    assert text + "" == text;
  }

  method StreamJobEvents(initial: Snapshot, ticks: seq<Tick>) returns (output: string)
    ensures output == PrintAll(Items(initial, ticks))
  {
    PrintFirst(Told(EventFor(initial)), if TerminalStatus(initial.status) then [] else ItemsFrom(initial.updatedAt, ticks));
    output := Print(Told(EventFor(initial)));
    if TerminalStatus(initial.status) {
      return;
    }
    var loop := PollLoop(initial.updatedAt, ticks);
    output := output + loop;
  }

  method PollLoop(initial: int, ticks: seq<Tick>) returns (output: string)
    ensures output == PrintAll(ItemsFrom(initial, ticks))
  {
    output := "";
    var lastUpdated := initial;
    for next := 0 to |ticks|
      invariant output + PrintAll(ItemsFrom(lastUpdated, ticks[next..])) == PrintAll(ItemsFrom(initial, ticks))
    {
      var text, told, goesOn := WriteTick(ticks[next], lastUpdated);
      assert ticks[next..][1..] == ticks[next + 1..];
      TickAppends(output, lastUpdated, ticks[next..], text, told, goesOn);
      output := output + text;
      lastUpdated := told;
      if !goesOn {
        return;
      }
    }
  }

  method WriteTick(tick: Tick, last: int) returns (text: string, told: int, goesOn: bool)
    ensures AfterTick(last, tick, text, told, goesOn)
  {
    text, told, goesOn := "", last, true;
    match tick {
      case KeepaliveTick =>
        text := Print(Keepalive);
      case Poll(None) =>
        goesOn := false;
      case Poll(Some(job)) =>
        if job.updatedAt != told {
          told := job.updatedAt;
          text := Print(Told(EventFor(job)));
        }
        goesOn := !TerminalStatus(job.status);
    }
  }

  // ---------- What is told, and when it is over ----------

  /** The stream is still open after the ticks: no poll failed, and every job polled is queued or running. */
  predicate StillOpen(ticks: seq<Tick>) {
    forall i :: 0 <= i < |ticks| && ticks[i].Poll? ==> ticks[i].job.Some? && ticks[i].job.value.status in ["queued", "running"]
  }

  /** The time stamp of the last job that was polled. */
  function LastSeen(last: int, ticks: seq<Tick>): int
    decreases |ticks|
  {
    if ticks == [] then last
    else LastSeen(if ticks[0].Poll? && ticks[0].job.Some? then ticks[0].job.value.updatedAt else last, ticks[1..])
  }

  lemma {:induction false} PrintAppend(a: seq<Item>, b: seq<Item>)
    ensures PrintAll(a + b) == PrintAll(a) + PrintAll(b)
  {
    if a == [] {
      assert a + b == b;
    } else {
      assert (a + b)[1..] == a[1..] + b;
      PrintAppend(a[1..], b);
    }
  }

  lemma {:induction false} OpenGoesOn(last: int, before: seq<Tick>, later: seq<Tick>)
    requires StillOpen(before)
    ensures ItemsFrom(last, before + later) == ItemsFrom(last, before) + ItemsFrom(LastSeen(last, before), later)
    decreases |before|
  {
    if before == [] {
      assert before + later == later;
    } else {
      var ticks := before + later;
      assert ticks[0] == before[0] && ticks[1..] == before[1..] + later;
      assert StillOpen(before[1..]) by {
        assert forall i :: 0 <= i < |before[1..]| ==> before[1..][i] == before[i + 1];
      }
      var next := if before[0].Poll? then before[0].job.value.updatedAt else last;
      OpenGoesOn(next, before[1..], later);
    }
  }

  /** What is written for a job of a status, if it is news. */
  function News(name: string, job: Snapshot, seen: int): string {
    if job.updatedAt != seen then "event: " + name + "\ndata: " + job.json + "\n\n" else ""
  }

  /**
   After any time of polling: a job that is queued or running is told as progress, and the stream goes on; one
   with a final status is told by that status, and then nothing is written, whatever would come.
  */
  lemma {:induction false} PollTells(last: int, before: seq<Tick>, job: Snapshot, later: seq<Tick>)
    requires StillOpen(before)
    ensures var seen, ticks := LastSeen(last, before), before + [Poll(Some(job))] + later;
      && (job.status in ["completed", "partial", "failed", "canceled", "indeterminate", "expired"] ==>
            PrintAll(ItemsFrom(last, ticks)) == PrintAll(ItemsFrom(last, before)) + News(job.status, job, seen))
      && (job.status in ["queued", "running"] ==>
            PrintAll(ItemsFrom(last, ticks)) ==
              PrintAll(ItemsFrom(last, before)) + News("progress", job, seen) + PrintAll(ItemsFrom(job.updatedAt, later)))
  {
    var seen, poll := LastSeen(last, before), [Poll(Some(job))] + later;
    assert before + [Poll(Some(job))] + later == before + poll;
    OpenGoesOn(last, before, poll);
    PrintAppend(ItemsFrom(last, before), ItemsFrom(seen, poll));
    OnePoll(seen, job, later);
  }

  lemma {:induction false} OnePoll(seen: int, job: Snapshot, later: seq<Tick>)
    ensures var poll := [Poll(Some(job))] + later;
      && (job.status in ["completed", "partial", "failed", "canceled", "indeterminate", "expired"] ==>
            PrintAll(ItemsFrom(seen, poll)) == News(job.status, job, seen))
      && (job.status in ["queued", "running"] ==>
            PrintAll(ItemsFrom(seen, poll)) == News("progress", job, seen) + PrintAll(ItemsFrom(job.updatedAt, later)))
  {
    var poll := [Poll(Some(job))] + later;
    assert poll[1..] == later;
    var told := if job.updatedAt != seen then [Told(EventFor(job))] else [];
    var rest := if TerminalStatus(job.status) then [] else ItemsFrom(job.updatedAt, later);
    assert ItemsFrom(seen, poll) == told + rest;
    PrintAppend(told, rest);
    if told != [] {
      PrintFirst(told[0], []);
      assert told == [told[0]] + [];
    }
  }

  /** A poll that fails ends the stream without a word. */
  lemma {:induction false} FailedPollEnds(last: int, before: seq<Tick>, later: seq<Tick>)
    requires StillOpen(before)
    ensures ItemsFrom(last, before + [Poll(None)] + later) == ItemsFrom(last, before)
  {
    assert before + [Poll(None)] + later == before + ([Poll(None)] + later);
    OpenGoesOn(last, before, [Poll(None)] + later);
  }

  lemma GoesOn(status: string)
    requires status in ["queued", "running"]
    ensures !TerminalStatus(status)
  {
  }

  lemma PrintsProgress(json: string)
    ensures Print(Told(Event("progress", json))) == "event: progress\ndata: " + json + "\n\n"
  {
    assert "event: " + "progress" + "\ndata: " == "event: progress\ndata: ";
  }

  lemma TellsProgress(job: Snapshot)
    ensures job.status in ["queued", "running"] ==> Print(Told(EventFor(job))) == "event: progress\ndata: " + job.json + "\n\n"
  {
    hide Print, TerminalStatus;
    if job.status in ["queued", "running"] {
      GoesOn(job.status);
      PrintsProgress(job.json);
    }
  }

  /** The same for the first look: the whole stream of a job that is over, and the start of any other. */
  lemma {:induction false} FirstLookTells(job: Snapshot, ticks: seq<Tick>)
    ensures job.status in ["completed", "partial", "failed", "canceled", "indeterminate", "expired"] ==>
      PrintAll(Items(job, ticks)) == "event: " + job.status + "\ndata: " + job.json + "\n\n"
    ensures job.status in ["queued", "running"] ==>
      PrintAll(Items(job, ticks)) == "event: progress\ndata: " + job.json + "\n\n" + PrintAll(ItemsFrom(job.updatedAt, ticks))
  {
    var rest := if TerminalStatus(job.status) then [] else ItemsFrom(job.updatedAt, ticks);
    PrintFirst(Told(EventFor(job)), rest);
    TellsProgress(job);
    if TerminalStatus(job.status) {
      assert PrintAll(rest) == "";
    }
  }

  /** The job whose terminal status ends the stream, with the time stamp told before it. */
  function Ending(last: int, ticks: seq<Tick>): Option<(Snapshot, int)>
    decreases |ticks|
  {
    if ticks == [] then None
    else match ticks[0]
    case KeepaliveTick => Ending(last, ticks[1..])
    case Poll(None) => None
    case Poll(Some(job)) => if TerminalStatus(job.status) then Some((job, last)) else Ending(job.updatedAt, ticks[1..])
  }

  lemma EventsFirst(item: Item, rest: seq<Item>)
    ensures EventsIn([item] + rest) == (if item.Told? then [item.event] else []) + EventsIn(rest)
  {
    assert ([item] + rest)[1..] == rest;
  }

  /**
   A stream that ends because the job did has told its final status exactly when the time stamp of the
   final row differs from the last one told: two updates within one millisecond hide the final event.
  */
  lemma {:induction false} FinalStatusIsTold(last: int, ticks: seq<Tick>)
    requires Ending(last, ticks).Some?
    ensures var (job, before) := Ending(last, ticks).value;
            && TerminalStatus(job.status)
            && (EventFor(job) in EventsIn(ItemsFrom(last, ticks)) <==> job.updatedAt != before)
    decreases |ticks|
  {
    match ticks[0]
    case KeepaliveTick =>
      FinalStatusIsTold(last, ticks[1..]);
      EventsFirst(Keepalive, ItemsFrom(last, ticks[1..]));
    case Poll(Some(job)) =>
      if TerminalStatus(job.status) {
        if job.updatedAt != last {
          EventsFirst(Told(EventFor(job)), []);
          assert ItemsFrom(last, ticks) == [Told(EventFor(job))] + [];
        }
      } else {
        FinalStatusIsTold(job.updatedAt, ticks[1..]);
        var rest := ItemsFrom(job.updatedAt, ticks[1..]);
        if job.updatedAt != last {
          EventsFirst(Told(EventFor(job)), rest);
        } else {
          assert ItemsFrom(last, ticks) == [] + rest == rest;
        }
      }
  }

  predicate PlainSnapshot(job: Snapshot) {
    Plain(Told(EventFor(job)))
  }

  lemma {:induction false} ItemsArePlain(last: int, ticks: seq<Tick>)
    requires forall i :: 0 <= i < |ticks| && ticks[i].Poll? && ticks[i].job.Some? ==> PlainSnapshot(ticks[i].job.value)
    ensures AllPlain(ItemsFrom(last, ticks))
    decreases |ticks|
  {
    if ticks != [] {
      ItemsArePlain(last, ticks[1..]);
      if ticks[0].Poll? && ticks[0].job.Some? {
        ItemsArePlain(ticks[0].job.value.updatedAt, ticks[1..]);
      }
    }
  }

  /** From the polling loop over any cut of the wire to the client: exactly the changes that were seen, in order. */
  method WatchedExactly(initial: Snapshot, ticks: seq<Tick>, chunks: seq<string>) returns (events: seq<Event>)
    requires PlainSnapshot(initial)
    requires forall i :: 0 <= i < |ticks| && ticks[i].Poll? && ticks[i].job.Some? ==> PlainSnapshot(ticks[i].job.value)
    requires Concat(chunks) == PrintAll(Items(initial, ticks))
    ensures events == EventsIn(Items(initial, ticks))
  {
    ItemsArePlain(initial.updatedAt, ticks);
    var wire := StreamJobEvents(initial, ticks);
    assert Concat(chunks) == wire;
    events := RoundTrip(Items(initial, ticks), chunks);
  }

  function Quiet(n: nat): seq<Tick> {
    if n == 0 then [] else [KeepaliveTick] + Quiet(n - 1)
  }

  lemma {:induction false} QuietEnding(last: int, job: Snapshot, n: nat)
    requires TerminalStatus(job.status) && job.updatedAt == last
    ensures Ending(last, Quiet(n) + [Poll(Some(job))]) == Some((job, last))
    ensures EventsIn(ItemsFrom(last, Quiet(n) + [Poll(Some(job))])) == []
  {
    var ticks := Quiet(n) + [Poll(Some(job))];
    if n == 0 {
      assert ticks == [Poll(Some(job))];
      assert ItemsFrom(last, ticks) == [];
    } else {
      QuietEnding(last, job, n - 1);
      assert ticks[1..] == Quiet(n - 1) + [Poll(Some(job))];
      EventsFirst(Keepalive, ItemsFrom(last, ticks[1..]));
    }
  }

  /**
   Two changes within one millisecond, however long after the first poll: the stream ends with the job
   completed, and the client was never told.
  */
  lemma HiddenEnding(json: string, n: nat)
    ensures var running, completed := Snapshot("running", 1, json), Snapshot("completed", 1, json);
            && Ending(running.updatedAt, Quiet(n) + [Poll(Some(completed))]) == Some((completed, 1))
            && EventsIn(Items(running, Quiet(n) + [Poll(Some(completed))])) == [Event("progress", json)]
  {
    var running, completed := Snapshot("running", 1, json), Snapshot("completed", 1, json);
    QuietEnding(1, completed, n);
    EventsFirst(Told(EventFor(running)), ItemsFrom(1, Quiet(n) + [Poll(Some(completed))]));
  }
}
