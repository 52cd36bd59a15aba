/**
 The chunked transfer coding of the proxy (section 7.1 of RFC 9112): the loop that writes a response in
 chunks, and the loop that reads a request body, with the size grammar of Python's int(line, 16).
*/
module ChunkedCoding {
  import opened Wrappers

  type Byte = n: int | 0 <= n < 256

  type Bytes = seq<Byte>

  const LF: Byte := 10
  const CR: Byte := 13
  const CRLF: Bytes := [13, 10]
  const SEMICOLON: Byte := 59
  const LONGEST_LINE: nat := 65536

  // ---------- Hexadecimal sizes ----------

  /** The digit that f"{n:X}" prints. */
  function Digit(n: nat): (c: Byte)
    requires n < 16
  {
    if n < 10 then 48 + n else 55 + n
  }

  function DigitValue(c: Byte): Option<nat> {
    if 48 <= c <= 57 then Some(c - 48)
    else if 65 <= c <= 70 then Some(c - 55)
    else if 97 <= c <= 102 then Some(c - 87)
    else None
  }

  /** f"{n:X}" */
  function Hex(n: nat): (s: Bytes)
    ensures s != [] && forall c :: c in s ==> 48 <= c <= 57 || 65 <= c <= 70
  {
    if n < 16 then [Digit(n)] else Hex(n / 16) + [Digit(n % 16)]
  }

  predicate Blank(c: Byte) {
    c == 32 || 9 <= c <= 13
  }

  function StripLeft(s: Bytes): Bytes {
    if s != [] && Blank(s[0]) then StripLeft(s[1..]) else s
  }

  function StripRight(s: Bytes): Bytes {
    if s != [] && Blank(s[|s| - 1]) then StripRight(s[..|s| - 1]) else s
  }

  function Strip(s: Bytes): Bytes {
    StripRight(StripLeft(s))
  }

  /** Digits with single underscores between them. */
  predicate DigitString(s: Bytes) {
    && s != [] && DigitValue(s[0]).Some? && DigitValue(s[|s| - 1]).Some?
    && (forall i :: 0 <= i < |s| ==> DigitValue(s[i]).Some? || s[i] == 95)
    && forall i :: 0 <= i < |s| - 1 ==> DigitValue(s[i]).Some? || DigitValue(s[i + 1]).Some?
  }

  function Value(s: Bytes): nat {
    if s == [] then 0
    else
      var rest, d := Value(s[..|s| - 1]), DigitValue(s[|s| - 1]);
      if d.Some? then 16 * rest + d.value else rest
  }

  function WithoutSign(s: Bytes): Bytes {
    if s != [] && (s[0] == 43 || s[0] == 45) then s[1..] else s
  }

  /** After 0x one underscore is allowed. */
  function WithoutPrefix(s: Bytes): Bytes {
    if |s| >= 2 && s[0] == 48 && (s[1] == 120 || s[1] == 88) then
      if |s| >= 3 && s[2] == 95 then s[3..] else s[2..]
    else s
  }

  /** int(s, 16); None is a ValueError. */
  function ParseInt(s: Bytes): Option<int> {
    var text := Strip(s);
    var digits := WithoutPrefix(WithoutSign(text));
    var n: int := Value(digits);
    if !DigitString(digits) then None else Some(if text[0] == 45 then -n else n)
  }

  lemma DigitBack(n: nat)
    requires n < 16
    ensures DigitValue(Digit(n)) == Some(n) && !Blank(Digit(n)) && Digit(n) != SEMICOLON && Digit(n) != LF
  {
  }

  lemma {:induction false} HexDigits(n: nat)
    ensures DigitString(Hex(n)) && Value(Hex(n)) == n
    ensures forall i :: 0 <= i < |Hex(n)| ==> DigitValue(Hex(n)[i]).Some?
  {
    if n < 16 {
      DigitBack(n);
      assert Hex(n)[..0] == [];
    } else {
      HexDigits(n / 16);
      DigitBack(n % 16);
      assert Hex(n)[..|Hex(n)| - 1] == Hex(n / 16);
    }
  }

  function Power(k: nat): nat {
    if k == 0 then 1 else 16 * Power(k - 1)
  }

  lemma {:induction false} HexIsShort(n: nat, k: nat)
    requires k > 0
    ensures |Hex(n)| <= k <==> n < Power(k)
  {
    if k == 1 {
      assert Power(1) == 16 * Power(0);
    } else if n >= 16 {
      HexIsShort(n / 16, k - 1);
    } else {
      SomePower(k - 1);
    }
  }

  lemma {:induction false} SomePower(k: nat)
    ensures Power(k) >= 1
  {
    if k > 0 {
      SomePower(k - 1);
    }
  }

  /** Neither blanks around the number nor a sign or prefix in front of it are lost on a plain number. */
  lemma {:induction false} StripPlain(s: Bytes)
    requires s != [] && !Blank(s[0]) && !Blank(s[|s| - 1])
    ensures Strip(s) == s
  {
  }

  lemma HexIsPlain(n: nat)
    ensures WithoutPrefix(WithoutSign(Hex(n))) == Hex(n) && Strip(Hex(n)) == Hex(n)
  {
    var s := Hex(n);
    assert s[0] in s && s[|s| - 1] in s && (|s| >= 2 ==> s[1] in s);
    StripPlain(s);
  }

  lemma StripLine(s: Bytes)
    requires s != [] && !Blank(s[0]) && !Blank(s[|s| - 1])
    ensures Strip(s + CRLF) == s
  {
    var line := s + CRLF;
    assert StripLeft(line) == line;
    assert line[..|line| - 1] == s + [CR];
    assert (s + [CR])[..|s|] == s;
    assert StripRight(line) == StripRight(s + [CR]) == StripRight(s) == s;
  }

  /** Printing a size and reading it gives the size, also from a line of its own. */
  lemma PrintThenParse(n: nat)
    ensures ParseInt(Hex(n)) == Some(n) && ParseInt(Hex(n) + CRLF) == Some(n)
  {
    HexIsPlain(n);
    HexDigits(n);
    var s := Hex(n);
    assert s[0] in s && s[|s| - 1] in s;
    StripLine(s);
  }

  /** What the printer prints: upper-case digits, no leading zero. */
  predicate Canonical(s: Bytes) {
    s != [] && (forall i :: 0 <= i < |s| ==> 48 <= s[i] <= 57 || 65 <= s[i] <= 70) && (|s| > 1 ==> s[0] != 48)
  }

  lemma {:induction false} ValueOfCanonical(s: Bytes)
    requires Canonical(s)
    ensures Hex(Value(s)) == s && (s[0] != 48 ==> Value(s) > 0)
    decreases |s|
  {
    var last, rest := s[|s| - 1], s[..|s| - 1];
    assert s == rest + [last];
    if |s| > 1 {
      assert Canonical(rest);
      ValueOfCanonical(rest);
      assert Value(s) / 16 == Value(rest) && Value(s) % 16 == DigitValue(last).value;
    }
  }

  /** Reading what is in printed form and printing it again gives the same text. */
  lemma ParseThenPrint(s: Bytes)
    requires Canonical(s)
    ensures ParseInt(s).Some? && ParseInt(s).value >= 0 && Hex(ParseInt(s).value) == s
  {
    ValueOfCanonical(s);
    PrintThenParse(Value(s));
  }

  // ---------- Writing ----------

  function Chunk(c: Bytes): Bytes {
    Hex(|c|) + CRLF + c + CRLF
  }

  function Emit(chunks: seq<Bytes>): Bytes {
    if chunks == [] then Hex(0) + CRLF + CRLF else Chunk(chunks[0]) + Emit(chunks[1..])
  }

  function Concat(chunks: seq<Bytes>): Bytes {
    if chunks == [] then [] else chunks[0] + Concat(chunks[1..])
  }

  function Started(chunks: seq<Bytes>): Bytes {
    if chunks == [] then [] else Started(chunks[..|chunks| - 1]) + Chunk(chunks[|chunks| - 1])
  }

  lemma EmitNext(c: Bytes, more: seq<Bytes>)
    ensures Emit([c] + more) == Chunk(c) + Emit(more)
  {
    assert ([c] + more)[1..] == more;
  }

  lemma {:induction false} StartedIsEmit(chunks: seq<Bytes>, more: seq<Bytes>)
    ensures Started(chunks) + Emit(more) == Emit(chunks + more)
    decreases |chunks|
  {
    if chunks == [] {
      assert chunks + more == more;
    } else {
      var rest, last := chunks[..|chunks| - 1], chunks[|chunks| - 1];
      StartedIsEmit(rest, [last] + more);
      EmitNext(last, more);
      assert rest + ([last] + more) == chunks + more;
      assert Started(rest) + (Chunk(last) + Emit(more)) == (Started(rest) + Chunk(last)) + Emit(more);
    }
  }

  /** The loop over what the upstream response yields, and the closing chunk. */
  method WriteChunks(chunks: seq<Bytes>) returns (wfile: Bytes)
    ensures wfile == Emit(chunks)
  {
    wfile := [];
    for i := 0 to |chunks|
      invariant wfile == Started(chunks[..i])
    {
      assert chunks[..i + 1][..i] == chunks[..i];
      wfile := wfile + Hex(|chunks[i]|) + CRLF;
      wfile := wfile + chunks[i];
      wfile := wfile + CRLF;
    }
    assert chunks[..|chunks|] + [] == chunks;
    StartedIsEmit(chunks[..|chunks|], []);
    wfile := wfile + [48, 13, 10, 13, 10];
  }

  // ---------- Reading ----------

  /** How many bytes readline takes: to the first line feed, to the end, or to its limit. */
  function LineLength(s: Bytes, max: nat): (n: nat)
    ensures n <= |s| && n <= max && (s != [] && max > 0 ==> n > 0)
  {
    if s == [] || max == 0 then 0 else if s[0] == LF then 1 else 1 + LineLength(s[1..], max - 1)
  }

  function BeforeSemicolon(s: Bytes): Bytes {
    if s == [] || s[0] == SEMICOLON then [] else [s[0]] + BeforeSemicolon(s[1..])
  }

  datatype Reply = Body(body: Bytes, rest: Bytes) | Refused(status: int)

  /** What is left after the trailers; None when one of them is too long. */
  function AfterTrailers(s: Bytes): Option<Bytes>
    decreases |s|
  {
    var n := LineLength(s, LONGEST_LINE + 1);
    if n > LONGEST_LINE then None
    else if s[..n] == CRLF || s[..n] == [LF] || s[..n] == [] then Some(s[n..])
    else AfterTrailers(s[n..])
  }

  function Min(a: nat, b: nat): nat {
    if a < b then a else b
  }

  /** What one round of the reading loop finds, when total bytes have been read. */
  datatype Round = Refuse(status: int) | End(rest: Bytes) | Next(chunk: Bytes, rest: Bytes)

  function DecodeRound(s: Bytes, limit: nat, total: nat): (r: Round)
    ensures r.Next? ==> |r.rest| < |s|
  {
    var n := LineLength(s, LONGEST_LINE + 1);
    if n == 0 || n > LONGEST_LINE then Refuse(400)
    else
      var size := ParseInt(BeforeSemicolon(s[..n]));
      if size.None? then Refuse(400)
      else if size.value < 0 || total + size.value > limit then Refuse(413)
      else if size.value == 0 then
        var rest := AfterTrailers(s[n..]);
        if rest.None? then Refuse(400) else End(rest.value)
      else
        var after := s[n..];
        if |after| < size.value + 2 || after[size.value..size.value + 2] != CRLF then Refuse(400)
        else Next(after[..size.value], after[size.value + 2..])
  }

  function Decode(s: Bytes, limit: nat, body: Bytes): Reply
    decreases |s|
  {
    match DecodeRound(s, limit, |body|)
    case Refuse(status) => Refused(status)
    case End(rest) => Body(body, rest)
    case Next(chunk, rest) => Decode(rest, limit, body + chunk)
  }

  method ConsumeChunkedTrailers(s: Bytes) returns (rest: Option<Bytes>)
    ensures rest == AfterTrailers(s)
  {
    var left := s;
    while true
      invariant AfterTrailers(s) == AfterTrailers(left)
      decreases |left|
    {
      var n := LineLength(left, LONGEST_LINE + 1);
      var line := left[..n];
      if n > LONGEST_LINE {
        return None;
      }
      left := left[n..];
      if line == CRLF || line == [LF] || line == [] {
        return Some(left);
      }
    }
  }

  /** At most n bytes, fewer at the end of the input. */
  method Read(s: Bytes, n: nat) returns (taken: Bytes, rest: Bytes)
    ensures taken == s[..Min(n, |s|)] && rest == s[Min(n, |s|)..]
  {
    taken, rest := s[..Min(n, |s|)], s[Min(n, |s|)..];
  }

  lemma ChunkTaken(after: Bytes, size: nat)
    ensures var k := Min(size, |after|); var rest := after[k..]; var ending := rest[..Min(2, |rest|)];
      if |after| < size + 2 || after[size..size + 2] != CRLF then k != size || ending != CRLF
      else k == size && ending == CRLF && rest[Min(2, |rest|)..] == after[size + 2..]
  {
  }

  method ReadRound(s: Bytes, limit: nat, total: nat) returns (r: Round)
    ensures r == DecodeRound(s, limit, total)
  {
    hide LineLength, BeforeSemicolon, ParseInt, AfterTrailers;
    var n := LineLength(s, LONGEST_LINE + 1);
    if n == 0 || n > LONGEST_LINE {
      return Refuse(400);
    }
    var size := ParseInt(BeforeSemicolon(s[..n]));
    var rfile := s[n..];
    if size.None? {
      return Refuse(400);
    }
    if size.value < 0 || total + size.value > limit {
      return Refuse(413);
    }
    if size.value == 0 {
      var rest := ConsumeChunkedTrailers(rfile);
      return if rest.None? then Refuse(400) else End(rest.value);
    }
    ChunkTaken(rfile, size.value);
    var chunk, ending;
    chunk, rfile := Read(rfile, size.value);
    ending, rfile := Read(rfile, 2);
    return if |chunk| != size.value || ending != CRLF then Refuse(400) else Next(chunk, rfile);
  }

  method ReadChunkedBody(s: Bytes, limit: nat) returns (reply: Reply)
    ensures reply == Decode(s, limit, [])
  {
    var rfile, body, total := s, [], 0;
    while true
      invariant total == |body| && Decode(s, limit, []) == Decode(rfile, limit, body)
      decreases |rfile|
    {
      var r := ReadRound(rfile, limit, total);
      match r
      case Refuse(status) => return Refused(status);
      case End(rest) => return Body(body, rest);
      case Next(chunk, rest) =>
        body := body + chunk;
        total := total + |chunk|;
        rfile := rest;
    }
  }

  // ---------- The round trip ----------

  lemma {:induction false} FirstLine(line: Bytes, rest: Bytes, max: nat)
    requires forall i :: 0 <= i < |line| ==> line[i] != LF
    requires |line| + 1 <= max
    ensures LineLength(line + [LF] + rest, max) == |line| + 1
  {
    var s := line + [LF] + rest;
    if line != [] {
      FirstLine(line[1..], rest, max - 1);
      assert s[1..] == line[1..] + [LF] + rest;
    }
  }

  lemma {:induction false} NoSemicolon(s: Bytes)
    requires forall i :: 0 <= i < |s| ==> s[i] != SEMICOLON
    ensures BeforeSemicolon(s) == s
  {
    if s != [] {
      NoSemicolon(s[1..]);
    }
  }

  /** The first line of the input has k bytes and says a size. */
  predicate SaysSize(s: Bytes, k: nat, size: int) {
    k <= |s| && LineLength(s, LONGEST_LINE + 1) == k && 0 < k <= LONGEST_LINE && ParseInt(BeforeSemicolon(s[..k])) == Some(size)
  }

  lemma HexLine(n: nat)
    ensures forall i :: 0 <= i < |Hex(n) + [CR]| ==> (Hex(n) + [CR])[i] != LF && (Hex(n) + [CR])[i] != SEMICOLON
  {
    forall i | 0 <= i < |Hex(n)| ensures Hex(n)[i] != LF && Hex(n)[i] != SEMICOLON {
      assert Hex(n)[i] in Hex(n);
    }
  }

  /** The line of a size is no longer than what the reader reads at once. */
  predicate LineFits(n: nat) {
    |Hex(n)| + 2 <= LONGEST_LINE
  }

  /** The line of a size, wherever it stands, is read as the size. */
  lemma SizeLine(n: nat, rest: Bytes)
    requires LineFits(n)
    ensures SaysSize(Hex(n) + CRLF + rest, |Hex(n)| + 2, n)
  {
    HexLine(n);
    var line, s := Hex(n) + [CR], Hex(n) + CRLF + rest;
    assert s == line + [LF] + rest;
    FirstLine(line, rest, LONGEST_LINE + 1);
    assert s[..|line| + 1] == Hex(n) + CRLF;
    HexLineValue(n);
  }

  lemma HexLineValue(n: nat)
    ensures ParseInt(BeforeSemicolon(Hex(n) + CRLF)) == Some(n)
  {
    HexLine(n);
    assert Hex(n) + CRLF == Hex(n) + [CR] + [LF];
    NoSemicolon(Hex(n) + CRLF);
    PrintThenParse(n);
  }

  lemma NoTrailers(rest: Bytes)
    ensures AfterTrailers(CRLF + rest) == Some(rest)
  {
    FirstLine([CR], rest, LONGEST_LINE + 1);
    assert CRLF + rest == [CR] + [LF] + rest;
    assert (CRLF + rest)[..2] == CRLF;
  }

  predicate ChunkSizes(chunks: seq<Bytes>) {
    forall i :: 0 <= i < |chunks| ==> 0 < |chunks[i]| && LineFits(|chunks[i]|)
  }

  /** What response.read(65536) yields is far below what fits. */
  lemma ReadsFit(chunks: seq<Bytes>)
    requires forall i :: 0 <= i < |chunks| ==> 0 < |chunks[i]| <= 65536
    ensures ChunkSizes(chunks)
  {
    forall i | 0 <= i < |chunks| ensures LineFits(|chunks[i]|) {
      assert Power(4) == 65536 && Power(5) == 16 * Power(4);
      HexIsShort(|chunks[i]|, 5);
    }
  }

  lemma DecodesChunk(s: Bytes, k: nat, size: nat, limit: nat, body: Bytes)
    requires SaysSize(s, k, size) && size > 0 && |s| >= k + size + 2 && s[k..][size..size + 2] == CRLF
    ensures DecodeRound(s, limit, |body|)
         == if |body| + size > limit then Refuse(413) else Next(s[k..][..size], s[k..][size + 2..])
  {
  }

  lemma DecodesEnd(s: Bytes, k: nat, limit: nat, body: Bytes)
    requires SaysSize(s, k, 0) && |body| <= limit && AfterTrailers(s[k..]).Some?
    ensures Decode(s, limit, body) == Body(body, AfterTrailers(s[k..]).value)
  {
  }

  lemma Parts(c: Bytes, more: Bytes)
    ensures var after := c + CRLF + more; after[..|c|] == c && after[|c|..|c| + 2] == CRLF && after[|c| + 2..] == more
  {
  }

  lemma DropHead(head: Bytes, s: Bytes)
    ensures (head + s)[|head|..] == s
  {
  }

  lemma ChunkParts(c: Bytes, more: Bytes)
    requires 0 < |c| && LineFits(|c|)
    ensures SaysSize(Chunk(c) + more, |Hex(|c|)| + 2, |c|) && (Chunk(c) + more)[|Hex(|c|)| + 2..] == c + CRLF + more
  {
    var head, after := Hex(|c|) + CRLF, c + CRLF + more;
    assert Chunk(c) + more == head + after;
    SizeLine(|c|, after);
    DropHead(head, after);
  }

  lemma OneChunk(c: Bytes, more: Bytes, limit: nat, body: Bytes)
    requires 0 < |c| && LineFits(|c|)
    ensures Decode(Chunk(c) + more, limit, body) == if |body| + |c| > limit then Refused(413) else Decode(more, limit, body + c)
  {
    ChunkParts(c, more);
    Parts(c, more);
    DecodesChunk(Chunk(c) + more, |Hex(|c|)| + 2, |c|, limit, body);
  }

  lemma LastChunk(rest: Bytes, limit: nat, body: Bytes)
    requires |body| <= limit
    ensures Decode(Emit([]) + rest, limit, body) == Body(body, rest)
  {
    var s, k := Emit([]) + rest, |Hex(0)| + 2;
    SizeLine(0, CRLF + rest);
    assert s == Hex(0) + CRLF + (CRLF + rest);
    assert s[k..] == CRLF + rest;
    NoTrailers(rest);
    DecodesEnd(s, k, limit, body);
  }

  lemma FirstChunk(chunks: seq<Bytes>, rest: Bytes, body: Bytes)
    requires chunks != []
    ensures Emit(chunks) + rest == Chunk(chunks[0]) + (Emit(chunks[1..]) + rest)
    ensures body + Concat(chunks) == body + chunks[0] + Concat(chunks[1..])
    ensures |Concat(chunks)| == |chunks[0]| + |Concat(chunks[1..])|
  {
    assert Emit(chunks) + rest == (Chunk(chunks[0]) + Emit(chunks[1..])) + rest;
  }

  /**
   Reading what was written gives the chunks joined and leaves exactly what followed, as long as they fit the
   limit; otherwise the request is refused as too large.
  */
  lemma {:induction false} ReadsWhatWasWritten(chunks: seq<Bytes>, rest: Bytes, limit: nat, body: Bytes)
    requires ChunkSizes(chunks) && |body| <= limit
    ensures Decode(Emit(chunks) + rest, limit, body)
         == if |body| + |Concat(chunks)| <= limit then Body(body + Concat(chunks), rest) else Refused(413)
    decreases |chunks|
  {
    if chunks == [] {
      LastChunk(rest, limit, body);
    } else {
      var c := chunks[0];
      FirstChunk(chunks, rest, body);
      OneChunk(c, Emit(chunks[1..]) + rest, limit, body);
      if |body| + |c| <= limit {
        ReadsWhatWasWritten(chunks[1..], rest, limit, body + c);
      }
    }
  }

  lemma RoundTrip(chunks: seq<Bytes>, rest: Bytes, limit: nat)
    requires ChunkSizes(chunks) && |Concat(chunks)| <= limit
    ensures Decode(Emit(chunks) + rest, limit, []) == Body(Concat(chunks), rest)
  {
    ReadsWhatWasWritten(chunks, rest, limit, []);
  }

  // ---------- Whatever is read ----------

  lemma {:induction false} TrailersAreASuffix(s: Bytes)
    ensures AfterTrailers(s).Some? ==> exists k: nat :: k <= |s| && AfterTrailers(s).value == s[k..]
    decreases |s|
  {
    var n := LineLength(s, LONGEST_LINE + 1);
    if n <= LONGEST_LINE && AfterTrailers(s).Some? && AfterTrailers(s).value != s[n..] {
      TrailersAreASuffix(s[n..]);
      var k: nat :| k <= |s[n..]| && AfterTrailers(s).value == s[n..][k..];
      assert s[n..][k..] == s[n + k..];
    }
  }

  /** The reply is a body within the limit that goes on from what was read, and leaves an end of the input. */
  ghost predicate Sound(s: Bytes, limit: nat, body: Bytes, reply: Reply) {
    reply.Body? ==> |reply.body| <= limit && body <= reply.body && exists k: nat :: k <= |s| && reply.rest == s[k..]
  }

  lemma SoundFurther(s: Bytes, m: nat, limit: nat, body: Bytes, chunk: Bytes, reply: Reply)
    requires m <= |s| && Sound(s[m..], limit, body + chunk, reply)
    ensures Sound(s, limit, body, reply)
  {
    if reply.Body? {
      var k: nat :| k <= |s[m..]| && reply.rest == s[m..][k..];
      assert s[m..][k..] == s[m + k..];
      assert body <= body + chunk;
    }
  }

  lemma EndsSound(s: Bytes, n: nat, limit: nat, body: Bytes, rest: Bytes)
    requires n <= |s| && |body| <= limit && AfterTrailers(s[n..]) == Some(rest)
    ensures Sound(s, limit, body, Body(body, rest))
  {
    TrailersAreASuffix(s[n..]);
    assert body + [] == body;
    SoundFurther(s, n, limit, body, [], Body(body, rest));
  }

  lemma GoesOnSound(s: Bytes, limit: nat, body: Bytes, chunk: Bytes, rest: Bytes, reply: Reply)
    requires DecodeRound(s, limit, |body|) == Next(chunk, rest) && Sound(rest, limit, body + chunk, reply)
    ensures Sound(s, limit, body, reply)
  {
    var n := LineLength(s, LONGEST_LINE + 1);
    assert rest == s[n + |chunk| + 2..];
    SoundFurther(s, n + |chunk| + 2, limit, body, chunk, reply);
  }

  /** No input makes the body longer than the limit, and what is left is always an end of the input. */
  lemma {:induction false} NeverTooLong(s: Bytes, limit: nat, body: Bytes)
    requires |body| <= limit
    ensures Sound(s, limit, body, Decode(s, limit, body))
    decreases |s|
  {
    match DecodeRound(s, limit, |body|)
    case Refuse(status) =>
    case End(rest) => EndsSound(s, LineLength(s, LONGEST_LINE + 1), limit, body, rest);
    case Next(chunk, rest) =>
      NeverTooLong(rest, limit, body + chunk);
      GoesOnSound(s, limit, body, chunk, rest, Decode(s, limit, body));
  }
}
