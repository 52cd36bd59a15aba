/**
 JSON values as an export writes them, and what a JSONB column makes of them: it refuses escapes that
 name no character it can store and numbers that are too long, and it spells every number its own way.

 A value is its compact text with the numbers cut out, and the numbers. Names within an object are
 distinct and in one order, and the text is compared as written: the program does both comparisons after
 canonicalRaw, which changes nothing else.
*/
module JsonValues {
  import opened Wrappers

  // ---------- Numbers ----------

  /** -12.50e-3 is Number(true, "12", "50", Some(-3)). */
  datatype Number = Number(negative: bool, whole: string, fraction: string, exponent: Option<int>)

  predicate Digits(s: string) {
    forall i :: 0 <= i < |s| ==> '0' <= s[i] <= '9'
  }

  predicate AllZero(s: string) {
    forall i :: 0 <= i < |s| ==> s[i] == '0'
  }

  /** The grammar of section 6 of RFC 8259. */
  predicate WellFormed(n: Number) {
    n.whole != "" && Digits(n.whole) && Digits(n.fraction) && (n.whole[0] == '0' ==> n.whole == "0")
  }

  type Numeral = n: Number | WellFormed(n) witness Number(false, "0", "", None)

  datatype Json = Json(frame: string, numbers: seq<Numeral>)

  const JSON_NULL := Json("null", [])

  predicate IsZero(n: Number) {
    AllZero(n.whole) && AllZero(n.fraction)
  }

  function Zeros(n: nat): (s: string)
    ensures |s| == n && AllZero(s)
  {
    if n == 0 then "" else Zeros(n - 1) + "0"
  }

  /** Where the decimal point stands once the exponent is carried out. */
  function Point(n: Number): int {
    |n.whole| + n.exponent.GetOr(0)
  }

  function WholePart(n: Number): string {
    var digits, point := n.whole + n.fraction, Point(n);
    if point <= 0 then "" else if point <= |digits| then digits[..point] else digits + Zeros(point - |digits|)
  }

  function FractionPart(n: Number): string {
    var digits, point := n.whole + n.fraction, Point(n);
    if point <= 0 then Zeros(-point) + digits else if point <= |digits| then digits[point..] else ""
  }

  /** Without the zeros in front. */
  function Stripped(s: string): (r: string)
    requires Digits(s)
    ensures r != "" && Digits(r) && (r[0] == '0' ==> r == "0")
    ensures AllZero(r) <==> AllZero(s)
  {
    if s == "" then "0"
    else if s[0] == '0' then
      assert forall i :: 0 < i < |s| ==> s[i] == s[1..][i - 1];
      Stripped(s[1..])
    else s
  }

  lemma {:induction false} StrippedStays(s: string)
    requires s != "" && Digits(s) && (s[0] == '0' ==> s == "0")
    ensures Stripped(s) == s
  {
    if s == "0" {
      assert s[1..] == "";
    }
  }

  lemma Joined(a: string, b: string)
    ensures Digits(a + b) <==> Digits(a) && Digits(b)
    ensures AllZero(a + b) <==> AllZero(a) && AllZero(b)
  {
    assert forall i :: 0 <= i < |a| ==> (a + b)[i] == a[i];
    assert forall i :: 0 <= i < |b| ==> (a + b)[|a| + i] == b[i];
  }

  lemma ZerosAreDigits(n: nat)
    ensures Digits(Zeros(n)) && AllZero(Zeros(n))
  {
  }

  lemma PartsAreDigits(n: Numeral)
    ensures Digits(WholePart(n)) && Digits(FractionPart(n))
    ensures IsZero(n) <==> AllZero(WholePart(n)) && AllZero(FractionPart(n))
  {
    hide Digits, AllZero;
    var digits, point := n.whole + n.fraction, Point(n);
    Joined(n.whole, n.fraction);
    if point <= 0 {
      ZerosAreDigits(-point);
      Joined(Zeros(-point), digits);
      NothingIsZero();
    } else if point <= |digits| {
      Joined(digits[..point], digits[point..]);
      assert digits == digits[..point] + digits[point..];
    } else {
      ZerosAreDigits(point - |digits|);
      Joined(digits, Zeros(point - |digits|));
      NothingIsZero();
    }
  }

  lemma NothingIsZero()
    ensures Digits("") && AllZero("")
  {
  }

  /** The same number in plain digits, with its scale; a zero has no sign. */
  function Respelled(n: Numeral): Numeral {
    PartsAreDigits(n);
    Number(n.negative && !IsZero(n), Stripped(WholePart(n)), FractionPart(n), None)
  }

  predicate Plain(n: Number) {
    n.exponent.None? && !(n.negative && IsZero(n))
  }

  /** A number keeps its spelling exactly when it is plain. */
  lemma PlainStays(n: Numeral)
    ensures Respelled(n) == n <==> Plain(n)
  {
    if Plain(n) {
      var digits := n.whole + n.fraction;
      assert digits[..|n.whole|] == n.whole && digits[|n.whole|..] == n.fraction;
      StrippedStays(n.whole);
    }
  }

  lemma RespelledIsPlain(n: Numeral)
    ensures Plain(Respelled(n)) && Respelled(Respelled(n)) == Respelled(n)
  {
    PartsAreDigits(n);
    PlainStays(Respelled(n));
  }

  function Ten(n: nat): (r: nat)
    ensures r > 0
  {
    if n == 0 then 1 else 10 * Ten(n - 1)
  }

  function ValueOf(s: string): int {
    if s == "" then 0 else 10 * ValueOf(s[..|s| - 1]) + (s[|s| - 1] as int - '0' as int)
  }

  /** The number without its sign, times ten to the k, for a k that makes this an integer. */
  function Scaled(n: Number, k: nat): int
    requires k + n.exponent.GetOr(0) >= |n.fraction|
  {
    ValueOf(n.whole + n.fraction) * Ten(k + n.exponent.GetOr(0) - |n.fraction|)
  }

  lemma {:induction false} TenAdds(a: nat, b: nat)
    ensures Ten(a + b) == Ten(a) * Ten(b)
  {
    if a > 0 {
      TenAdds(a - 1, b);
    }
  }

  lemma {:induction false} ZerosInFront(s: string, t: string)
    requires AllZero(s)
    ensures ValueOf(s + t) == ValueOf(t)
  {
    if t != "" {
      ZerosInFront(s, t[..|t| - 1]);
      assert (s + t)[..|s + t| - 1] == s + t[..|t| - 1];
    } else if s != "" {
      ZerosInFront(s[..|s| - 1], t);
      assert (s + t)[..|s + t| - 1] == s[..|s| - 1] + t;
    }
  }

  lemma {:induction false} ZerosBehind(s: string, n: nat)
    ensures ValueOf(s + Zeros(n)) == ValueOf(s) * Ten(n)
  {
    if n > 0 {
      ZerosBehind(s, n - 1);
      var longer := s + Zeros(n);
      assert longer[..|longer| - 1] == s + Zeros(n - 1) && longer[|longer| - 1] == '0';
      Regroup(ValueOf(s), Ten(n - 1), 10);
    } else {
      assert s + Zeros(0) == s;
    }
  }

  lemma {:induction false} StrippedIsEqual(s: string, t: string)
    requires Digits(s)
    ensures ValueOf(Stripped(s) + t) == ValueOf(s + t)
  {
    if s == "" {
      ZerosInFront("0", t);
      assert s + t == t;
    } else if s[0] == '0' {
      StrippedIsEqual(s[1..], t);
      ZerosInFront("0", s[1..] + t);
      assert s + t == "0" + (s[1..] + t);
    }
  }

  lemma Regroup(a: int, b: int, c: int)
    ensures a * b * c == a * (b * c)
  {
  }

  /** Moving the point is carrying out the exponent. */
  lemma MovedIsEqual(n: Numeral, k: nat)
    requires k + n.exponent.GetOr(0) >= |n.fraction| && k >= |FractionPart(n)|
    ensures ValueOf(WholePart(n) + FractionPart(n)) * Ten(k - |FractionPart(n)|) == Scaled(n, k)
  {
    hide ValueOf, Ten;
    var digits, point := n.whole + n.fraction, Point(n);
    if point <= 0 {
      assert WholePart(n) + FractionPart(n) == Zeros(-point) + digits;
      ZerosInFront(Zeros(-point), digits);
    } else if point <= |digits| {
      assert WholePart(n) + FractionPart(n) == digits;
    } else {
      var more := point - |digits|;
      assert WholePart(n) + FractionPart(n) == digits + Zeros(more);
      ZerosBehind(digits, more);
      TenAdds(more, k);
      Regroup(ValueOf(digits), Ten(more), Ten(k));
    }
  }

  /** The other spelling is of the same number. */
  lemma RespelledIsEqual(n: Numeral, k: nat)
    requires k + n.exponent.GetOr(0) >= |n.fraction| && k >= |Respelled(n).fraction|
    ensures Scaled(Respelled(n), k) == Scaled(n, k)
    ensures IsZero(Respelled(n)) || Respelled(n).negative == n.negative
  {
    hide ValueOf, Ten, WholePart, FractionPart, Stripped;
    PartsAreDigits(n);
    StrippedIsEqual(WholePart(n), FractionPart(n));
    MovedIsEqual(n, k);
  }

  // ---------- Columns ----------

  const MAX_WHOLE: nat := 131072
  const MAX_FRACTION: nat := 16383

  predicate NumberHolds(n: Numeral) {
    |Respelled(n).whole| <= MAX_WHOLE && |Respelled(n).fraction| <= MAX_FRACTION
  }

  predicate HighSurrogate(code: string)
    requires |code| == 4
  {
    code[0] in "dD" && code[1] in "89abAB"
  }

  predicate LowSurrogate(code: string)
    requires |code| == 4
  {
    code[0] in "dD" && code[1] in "cdefCDEF"
  }

  /**
   No character of the text is U+0000, written or escaped, and escaped surrogates come in pairs.
   pending says that the text before ended in the first half of a pair.
  */
  predicate Storable(s: string, pending: bool) {
    if s == "" then !pending
    else if |s| >= 6 && s[0] == '\\' && s[1] == 'u' then
      var code := s[2..6];
      code != "0000" && (pending <==> LowSurrogate(code)) && Storable(s[6..], HighSurrogate(code))
    else if |s| >= 2 && s[0] == '\\' then !pending && s[1] != '\0' && Storable(s[2..], false)
    else !pending && s[0] != '\0' && Storable(s[1..], false)
  }

  predicate JsonHolds(j: Json) {
    Storable(j.frame, false) && forall n :: n in j.numbers ==> NumberHolds(n)
  }

  /** What a JSONB column gives back. */
  function Jsonb(j: Json): Json {
    j.(numbers := seq(|j.numbers|, i requires 0 <= i < |j.numbers| => Respelled(j.numbers[i])))
  }

  predicate NumbersPlain(j: Json) {
    forall n :: n in j.numbers ==> Plain(n)
  }

  /** A value comes back as it was exactly when its numbers are plain. */
  lemma JsonStays(j: Json)
    ensures Jsonb(j) == j <==> NumbersPlain(j)
  {
    forall i | 0 <= i < |j.numbers|
      ensures Respelled(j.numbers[i]) == j.numbers[i] <==> Plain(j.numbers[i])
    {
      PlainStays(j.numbers[i]);
    }
    if Jsonb(j) == j {
      forall i | 0 <= i < |j.numbers| ensures Plain(j.numbers[i]) { assert Jsonb(j).numbers[i] == j.numbers[i]; }
    }
  }

  /** The column holds what it gives back just when it holds the value. */
  lemma JsonbHolds(j: Json)
    ensures JsonHolds(Jsonb(j)) <==> JsonHolds(j)
  {
    var back := Jsonb(j);
    forall i | 0 <= i < |j.numbers|
      ensures NumberHolds(back.numbers[i]) <==> NumberHolds(j.numbers[i])
    {
      RespelledIsPlain(j.numbers[i]);
    }
    if JsonHolds(back) {
      forall i | 0 <= i < |j.numbers| ensures NumberHolds(j.numbers[i]) { assert back.numbers[i] in back.numbers; }
    }
  }
}
