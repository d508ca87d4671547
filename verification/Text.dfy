/** The string helpers of Go's strings and strconv packages that the code relies on. */
module Text {

  // ---- Cut, Split, Join on a one-character separator ----

  /** Position of the first c, or the length. */
  function IndexOf(s: string, c: char): (i: nat)
    ensures i <= |s| && (i < |s| ==> s[i] == c) && forall j :: 0 <= j < i ==> s[j] != c
  {
    if |s| == 0 || s[0] == c then 0 else 1 + IndexOf(s[1..], c)
  }

  function Before(s: string, c: char): string { s[..IndexOf(s, c)] }

  function After(s: string, c: char): string {
    if IndexOf(s, c) < |s| then s[IndexOf(s, c) + 1..] else ""
  }

  lemma {:induction false} CutAt(x: string, c: char, y: string)
    requires c !in x
    ensures Before(x + [c] + y, c) == x && After(x + [c] + y, c) == y
    ensures Before(x, c) == x && After(x, c) == ""
  {
    var s := x + [c] + y;
    var i := IndexOf(s, c);
    assert s[|x|] == c;
    assert forall j :: 0 <= j < |x| ==> s[j] == x[j] && x[j] in x;
    assert i == |x|;
    assert IndexOf(x, c) == |x|;
  }

  function Split(s: string, c: char): (parts: seq<string>)
    ensures |parts| > 0
    decreases |s|
  {
    if IndexOf(s, c) == |s| then [s] else [Before(s, c)] + Split(After(s, c), c)
  }

  function Join(parts: seq<string>, c: char): string {
    if |parts| == 0 then "" else if |parts| == 1 then parts[0]
    else parts[0] + [c] + Join(parts[1..], c)
  }

  lemma {:induction false} SplitJoin(parts: seq<string>, c: char)
    requires |parts| > 0 && forall i :: 0 <= i < |parts| ==> c !in parts[i]
    ensures Split(Join(parts, c), c) == parts
  {
    if |parts| == 1 {
      CutAt(parts[0], c, "");
      assert IndexOf(parts[0], c) == |parts[0]|;
    } else {
      var tail := Join(parts[1..], c);
      CutAt(parts[0], c, tail);
      assert forall i :: 0 <= i < |parts[1..]| ==> parts[1..][i] == parts[i + 1];
      SplitJoin(parts[1..], c);
      assert IndexOf(Join(parts, c), c) < |Join(parts, c)| by {
        assert Join(parts, c)[|parts[0]|] == c;
      }
    }
  }

  lemma {:induction false} JoinMore(x: string, rest: seq<string>, c: char)
    requires |rest| > 0
    ensures Join([x] + rest, c) == x + [c] + Join(rest, c)
  {
    assert ([x] + rest)[1..] == rest;
  }

  lemma {:induction false} CutParts(s: string, c: char)
    requires IndexOf(s, c) < |s|
    ensures s == Before(s, c) + [c] + After(s, c)
    ensures |After(s, c)| < |s| && Split(s, c) == [Before(s, c)] + Split(After(s, c), c)
  {
  }

  lemma {:induction false} JoinSplit(s: string, c: char)
    ensures Join(Split(s, c), c) == s
    decreases |s|
  {
    if IndexOf(s, c) < |s| {
      CutParts(s, c);
      var rest := After(s, c);
      JoinSplit(rest, c);
      JoinMore(Before(s, c), Split(rest, c), c);
    }
  }

  // ---- Decimal numbers ----

  function Digit(d: int): char
    requires 0 <= d < 10
  {
    "0123456789"[d]
  }

  predicate IsDigit(c: char) { '0' <= c <= '9' }

  function DigitValue(c: char): (d: int)
    requires IsDigit(c)
    ensures 0 <= d < 10
  {
    c as int - '0' as int
  }

  /** strconv.FormatInt for non-negative numbers. */
  function Decimal(n: nat): string {
    if n < 10 then [Digit(n)] else Decimal(n / 10) + [Digit(n % 10)]
  }

  predicate AllDigits(s: string) { forall i :: 0 <= i < |s| ==> IsDigit(s[i]) }

  function Value(s: string): nat
    requires AllDigits(s)
  {
    if |s| == 0 then 0 else Value(s[..|s| - 1]) * 10 + DigitValue(s[|s| - 1])
  }

  lemma {:induction false} DecimalValue(n: nat)
    ensures |Decimal(n)| > 0 && AllDigits(Decimal(n)) && Value(Decimal(n)) == n
  {
    if n >= 10 {
      DecimalValue(n / 10);
      assert Decimal(n)[..|Decimal(n)| - 1] == Decimal(n / 10);
    } else {
      assert Value([]) == 0;
      assert Decimal(n)[..0] == [];
    }
  }

  const MAX_INT64: int := 0x7fff_ffff_ffff_ffff
  const MIN_INT64: int := -0x8000_0000_0000_0000
  const MAX_UINT64: int := 0xffff_ffff_ffff_ffff

  /** strconv.ParseUint(s, 10, 64) with its error dropped: 0 on bad syntax,
      the largest value when out of range. */
  function ParseUint(s: string): int {
    if |s| == 0 || !AllDigits(s) then 0
    else if Value(s) > MAX_UINT64 then MAX_UINT64 else Value(s)
  }

  /** strconv.ParseInt(s, 10, 64) with its error dropped: one sign is
      allowed, bad syntax gives 0, and out of range gives the nearest bound. */
  function ParseInt(s: string): int {
    var negative := |s| > 0 && s[0] == '-';
    var digits := if |s| > 0 && (s[0] == '-' || s[0] == '+') then s[1..] else s;
    if |digits| == 0 || !AllDigits(digits) then 0
    else if negative then (if 0 - Value(digits) < MIN_INT64 then MIN_INT64 else 0 - Value(digits))
    else if Value(digits) > MAX_INT64 then MAX_INT64 else Value(digits)
  }

  lemma {:induction false} ParseDecimal(n: nat)
    ensures n <= MAX_UINT64 ==> ParseUint(Decimal(n)) == n
    ensures n <= MAX_INT64 ==> ParseInt(Decimal(n)) == n
    ensures forall c :: !IsDigit(c) ==> c !in Decimal(n)
  {
    DecimalValue(n);
    assert IsDigit(Decimal(n)[0]);
  }

  // ---- White space ----

  /** unicode.IsSpace. */
  predicate IsSpace(c: char) {
    || c in "\t\n\r \U{0B}\U{0C}\U{85}\U{A0}\U{1680}\U{2028}\U{2029}\U{202F}\U{205F}\U{3000}"
    || '\U{2000}' <= c <= '\U{200A}'
  }

  function TrimLeft(s: string): string {
    if |s| > 0 && IsSpace(s[0]) then TrimLeft(s[1..]) else s
  }

  function TrimRight(s: string): string {
    if |s| > 0 && IsSpace(s[|s| - 1]) then TrimRight(s[..|s| - 1]) else s
  }

  /** strings.TrimSpace. */
  function TrimSpace(s: string): string { TrimRight(TrimLeft(s)) }
}
