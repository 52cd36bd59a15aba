/** A chunked body that is cut short, and the other spellings of a size. */
module ChunkTruncation {
  import opened Wrappers
  import opened ChunkedCoding

  // ---------- A size that is cut short ----------

  lemma {:induction false} HexOfFewer(n: nat, k: nat) returns (m: nat)
    requires 0 < k <= |Hex(n)| && n > 0
    ensures 1 <= m <= n && Hex(n)[..k] == Hex(m)
  {
    if k == |Hex(n)| {
      m := n;
      assert Hex(n)[..k] == Hex(n);
    } else {
      assert n >= 16;
      assert Hex(n)[..k] == Hex(n / 16)[..k];
      m := HexOfFewer(n / 16, k);
    }
  }

  lemma StripReturn(s: Bytes)
    requires s != [] && !Blank(s[0]) && !Blank(s[|s| - 1])
    ensures Strip(s + [CR]) == s
  {
    var line := s + [CR];
    assert StripLeft(line) == line;
    assert line[..|s|] == s;
    assert StripRight(line) == StripRight(s) == s;
  }

  lemma ParsesBeforeLineFeed(n: nat)
    ensures ParseInt(Hex(n)) == Some(n) && ParseInt(Hex(n) + [CR]) == Some(n)
  {
    PrintThenParse(n);
    HexIsPlain(n);
    HexDigits(n);
    var s := Hex(n);
    assert s[0] in s && s[|s| - 1] in s;
    StripReturn(s);
  }

  lemma {:induction false} NoLineFeed(s: Bytes, max: nat)
    requires forall i :: 0 <= i < |s| ==> s[i] != LF
    requires |s| <= max
    ensures LineLength(s, max) == |s|
  {
    if s != [] {
      NoLineFeed(s[1..], max - 1);
    }
  }

  /** The line of a size without its end says a size between one and that, or nothing at all. */
  lemma CutSize(n: nat, k: nat)
    requires n > 0 && k < |Hex(n)| + 2 && LineFits(n)
    ensures var s := (Hex(n) + CRLF)[..k];
      && LineLength(s, LONGEST_LINE + 1) == k && BeforeSemicolon(s) == s
      && (k > 0 ==> ParseInt(s).Some? && 1 <= ParseInt(s).value <= n)
  {
    var s := (Hex(n) + CRLF)[..k];
    HexLine(n);
    assert forall i :: 0 <= i < k ==> s[i] == (Hex(n) + [CR])[i];
    NoLineFeed(s, LONGEST_LINE + 1);
    NoSemicolon(s);
    if 0 < k <= |Hex(n)| {
      var m := HexOfFewer(n, k);
      assert s == Hex(n)[..k];
      ParsesBeforeLineFeed(m);
    } else if k > 0 {
      assert s == Hex(n) + [CR];
      ParsesBeforeLineFeed(n);
    }
  }

  // ---------- A chunk that is cut short ----------

  lemma CutInSize(n: nat, k: nat, limit: nat, total: nat)
    requires n > 0 && k < |Hex(n)| + 2 && LineFits(n) && total + n <= limit
    ensures DecodeRound((Hex(n) + CRLF)[..k], limit, total) == Refuse(400)
  {
    CutSize(n, k);
    var s := (Hex(n) + CRLF)[..k];
    assert s[..|s|] == s && s[|s|..] == [];
  }

  lemma CutInData(c: Bytes, u: Bytes, limit: nat, total: nat)
    requires 0 < |c| && LineFits(|c|) && total + |c| <= limit && |u| < |c| + 2
    ensures DecodeRound(Hex(|c|) + CRLF + u, limit, total) == Refuse(400)
  {
    var s, k := Hex(|c|) + CRLF + u, |Hex(|c|)| + 2;
    SizeLine(|c|, u);
    DropHead(Hex(|c|) + CRLF, u);
  }

  /** What is left of one chunk when it is cut is refused. */
  lemma CutChunk(c: Bytes, t: Bytes, limit: nat, body: Bytes)
    requires 0 < |c| && LineFits(|c|) && |body| + |c| <= limit && t <= Chunk(c) && t != Chunk(c)
    ensures Decode(t, limit, body) == Refused(400)
  {
    var head := Hex(|c|) + CRLF;
    assert Chunk(c) == head + (c + CRLF);
    if |t| < |head| {
      assert t == head[..|t|];
      CutInSize(|c|, |t|, limit, |body|);
    } else {
      var u := t[|head|..];
      assert t == head + u;
      CutInData(c, u, limit, |body|);
    }
  }

  /** The closing chunk cut short: it is enough that its zero has come. */
  lemma CutEnd(t: Bytes, limit: nat, body: Bytes)
    requires |body| <= limit && t <= Emit([])
    ensures Decode(t, limit, body) == if t == [] then Refused(400) else Body(body, [])
  {
    var whole: Bytes := [48, 13, 10, 13, 10];
    assert Emit([]) == whole;
    if t != [] {
      EndRound(t, limit, body);
    }
  }

  lemma EndRound(t: Bytes, limit: nat, body: Bytes)
    requires t != [] && |body| <= limit && t <= [48, 13, 10, 13, 10]
    ensures Decode(t, limit, body) == Body(body, [])
  {
    var k := if |t| <= 3 then |t| else 3;
    ZeroLine(t, k);
    TrailersEnd(t[k..]);
  }

  lemma AfterZero(t: Bytes, k: nat)
    requires t != [] && t <= [48, 13, 10, 13, 10] && k == if |t| <= 3 then |t| else 3
    ensures t[k..] == [] || t[k..] == [13] || t[k..] == CRLF
    ensures |t| < 3 ==> t == [48] || t == [48, 13]
    ensures |t| >= 3 ==> t == [48, 13] + [LF] + t[3..] && t[..3] == [48, 13, 10]
  {
    var whole: Bytes := [48, 13, 10, 13, 10];
    assert t == whole[..|t|];
  }

  lemma ZeroLine(t: Bytes, k: nat)
    requires t != [] && t <= [48, 13, 10, 13, 10] && k == if |t| <= 3 then |t| else 3
    ensures LineLength(t, LONGEST_LINE + 1) == k && ParseInt(BeforeSemicolon(t[..k])) == Some(0)
    ensures t[k..] == [] || t[k..] == [13] || t[k..] == CRLF
  {
    hide ParseInt, LineLength, BeforeSemicolon;
    AfterZero(t, k);
    if |t| < 3 {
      NoLineFeed(t, LONGEST_LINE + 1);
      assert t[..k] == t;
      ShortZero(t);
    } else {
      FirstLine([48, 13], t[3..], LONGEST_LINE + 1);
      FullZero();
    }
  }

  lemma FullZero()
    ensures ParseInt(BeforeSemicolon([48, 13, 10])) == Some(0)
  {
    hide ParseInt, BeforeSemicolon;
    HexLineValue(0);
    assert Hex(0) + CRLF == [48, 13, 10];
  }

  lemma ShortZero(t: Bytes)
    requires t == [48] || t == [48, 13]
    ensures ParseInt(BeforeSemicolon(t)) == Some(0)
  {
    hide ParseInt;
    NoSemicolon(t);
    ParsesBeforeLineFeed(0);
    assert Hex(0) == [48] && Hex(0) + [CR] == [48, 13];
  }

  lemma TrailersEnd(s: Bytes)
    requires s == [] || s == [13] || s == CRLF
    ensures AfterTrailers(s) == Some([])
  {
    if s == [13] {
      NoLineFeed(s, LONGEST_LINE + 1);
      assert s[..1] == s && s[1..] == [];
      assert AfterTrailers([]) == Some([]);
    } else if s == CRLF {
      NoTrailers([]);
      assert CRLF + [] == CRLF;
    }
  }

  // ---------- A body that is cut short ----------

  /** Where the closing chunk of what was written begins. */
  function BodyLength(chunks: seq<Bytes>): nat {
    if chunks == [] then 0 else |Chunk(chunks[0])| + BodyLength(chunks[1..])
  }

  /**
   What was written, cut short anywhere, is never taken for a shorter body: it is refused as malformed, unless only
   something after the closing zero is missing, and then it is the whole body.
  */
  lemma {:induction false} CutIsNoticed(chunks: seq<Bytes>, t: Bytes, limit: nat, body: Bytes)
    requires ChunkSizes(chunks) && |body| + |Concat(chunks)| <= limit && t <= Emit(chunks)
    ensures Decode(t, limit, body) == if |t| <= BodyLength(chunks) then Refused(400) else Body(body + Concat(chunks), [])
    decreases |chunks|
  {
    if chunks == [] {
      CutEnd(t, limit, body);
      assert body + [] == body;
    } else {
      var c, rest := chunks[0], chunks[1..];
      FirstChunk(chunks, [], body);
      assert Emit(chunks) == Chunk(c) + Emit(rest);
      if |t| < |Chunk(c)| {
        assert t <= Chunk(c);
        CutChunk(c, t, limit, body);
      } else {
        var t' := t[|Chunk(c)|..];
        assert t == Chunk(c) + t' && t' <= Emit(rest);
        OneChunk(c, t', limit, body);
        CutIsNoticed(rest, t', limit, body + c);
      }
    }
  }

  // ---------- Refusals ----------

  /** The first line of the input, with its end, has k bytes. */
  predicate FirstLineIs(s: Bytes, k: nat) {
    0 < k <= |s| && s[k - 1] == LF && forall i :: 0 <= i < k - 1 ==> s[i] != LF
  }

  lemma {:induction false} LineOf(s: Bytes, k: nat, max: nat)
    requires FirstLineIs(s, k)
    ensures LineLength(s, max) == if k <= max then k else max
  {
    if k > 1 && max > 0 {
      LineOf(s[1..], k - 1, max - 1);
    }
  }

  /**
   Why a chunk is refused: a first line of more than 65536 bytes or one that is no size is malformed, and so is
   data without its line end; a negative size, and one with which the body would exceed the limit, are too large.
   Any other chunk is taken.
  */
  lemma {:induction false} Refusals(s: Bytes, k: nat, limit: nat, body: Bytes)
    requires FirstLineIs(s, k)
    ensures var size, after := ParseInt(BeforeSemicolon(s[..k])), s[k..];
      && (k > 65536 || size.None? ==> Decode(s, limit, body) == Refused(400))
      && (k <= 65536 && size.Some? && (size.value < 0 || |body| + size.value > limit) ==> Decode(s, limit, body) == Refused(413))
      && (k <= 65536 && size.Some? && 0 < size.value <= limit - |body| ==>
            Decode(s, limit, body) ==
              if |after| >= size.value + 2 && after[size.value] == 13 && after[size.value + 1] == 10
              then Decode(after[size.value + 2..], limit, body + after[..size.value]) else Refused(400))
  {
    hide ParseInt, BeforeSemicolon, LineLength, FirstLineIs;
    LineOf(s, k, LONGEST_LINE + 1);
    assert 0 < k <= |s| by { LineIsThere(s, k); }
    var size, after := ParseInt(BeforeSemicolon(s[..k])), s[k..];
    if k <= 65536 && size.Some? && 0 < size.value <= limit - |body| {
      TakesChunk(s, k, size.value, limit, body);
    }
  }

  lemma LineIsThere(s: Bytes, k: nat)
    requires FirstLineIs(s, k)
    ensures 0 < k <= |s|
  {
  }

  lemma {:induction false} TakesChunk(s: Bytes, k: nat, size: nat, limit: nat, body: Bytes)
    requires 0 < k <= |s| && k <= 65536 && LineLength(s, LONGEST_LINE + 1) == k
    requires ParseInt(BeforeSemicolon(s[..k])) == Some(size) && 0 < size && |body| + size <= limit
    ensures var after := s[k..];
      Decode(s, limit, body) ==
        if |after| >= size + 2 && after[size] == 13 && after[size + 1] == 10
        then Decode(after[size + 2..], limit, body + after[..size]) else Refused(400)
  {
    hide ParseInt, BeforeSemicolon, LineLength;
    var after := s[k..];
    if |after| >= size + 2 {
      assert after[size..size + 2] == [after[size], after[size + 1]];
    }
  }

  // ---------- Other spellings of a size ----------

  lemma {:induction false} DigitsOf(n: nat, s: Bytes)
    requires s == Hex(n)
    ensures DigitString(s) && Value(s) == n && s[0] in s && s[|s| - 1] in s && !Blank(s[0]) && !Blank(s[|s| - 1])
    ensures WithoutPrefix(WithoutSign(s)) == s
  {
    HexDigits(n);
    HexIsPlain(n);
    assert s[0] in s && s[|s| - 1] in s;
  }

  lemma StripsNothing(first: Bytes, n: nat)
    requires first != [] && !Blank(first[0])
    ensures Strip(first + Hex(n)) == first + Hex(n)
  {
    DigitsOf(n, Hex(n));
    assert (first + Hex(n))[|first + Hex(n)| - 1] == Hex(n)[|Hex(n)| - 1];
    StripPlain(first + Hex(n));
  }

  lemma SignedSize(n: nat, sign: Byte)
    requires sign == 43 || sign == 45
    ensures var r := ParseInt([sign] + Hex(n)); r.Some? && (sign == 43 ==> r.value == n) && (sign == 45 ==> r.value + n == 0)
  {
    hide DigitString, Value, Strip;
    DigitsOf(n, Hex(n));
    StripsNothing([sign], n);
    assert WithoutSign([sign] + Hex(n)) == Hex(n);
    HexIsPlain(n);
    PlainPrefix(n);
  }

  lemma PlainPrefix(n: nat)
    ensures WithoutPrefix(Hex(n)) == Hex(n) && WithoutSign(Hex(n)) == Hex(n)
  {
    HexIsPlain(n);
    assert Hex(n)[0] in Hex(n);
  }

  lemma PrefixedSize(n: nat, x: Byte)
    requires x == 120 || x == 88
    ensures ParseInt([48, x] + Hex(n)) == Some(n)
  {
    hide DigitString, Value, Strip;
    var text := [48, x] + Hex(n);
    DigitsOf(n, Hex(n));
    StripsNothing([48, x], n);
    assert WithoutSign(text) == text;
    assert text[2] == Hex(n)[0] && Hex(n)[0] in Hex(n);
    assert text[2..] == Hex(n);
    assert WithoutPrefix(text) == Hex(n);
  }

  lemma BlankSize(n: nat)
    ensures ParseInt([32] + Hex(n) + [32]) == Some(n)
  {
    hide DigitString, Value;
    var s := Hex(n);
    DigitsOf(n, s);
    var text := [32] + s + [32];
    assert text[1..] == s + [32] && StripLeft(text) == StripLeft(s + [32]) == s + [32];
    assert (s + [32])[..|s|] == s;
    assert StripRight(s + [32]) == StripRight(s) == s;
  }

  /** A size may have a sign, the prefix 0x and blanks around it; a minus makes it negative. Nothing is no size. */
  lemma OtherSpellings(n: nat)
    ensures ParseInt([43] + Hex(n)) == Some(n)
    ensures ParseInt([45] + Hex(n)).Some? && ParseInt([45] + Hex(n)).value + n == 0
    ensures ParseInt([48, 120] + Hex(n)) == Some(n) && ParseInt([48, 88] + Hex(n)) == Some(n)
    ensures ParseInt([32] + Hex(n) + [32]) == Some(n)
    ensures ParseInt([]) == None
  {
    SignedSize(n, 43);
    SignedSize(n, 45);
    PrefixedSize(n, 120);
    PrefixedSize(n, 88);
    BlankSize(n);
  }
}
