/** Whole numbers as text, as fmt's %d prints them and strconv.ParseInt reads
    them. */
module Decimal {

  predicate IsDigit(c: char) { '0' <= c <= '9' }

  predicate AllDigits(s: string) { forall c | c in s :: IsDigit(c) }

  function DigitOf(d: nat): (c: char)
    requires d < 10
    ensures IsDigit(c) && c as int - '0' as int == d
  {
    '0' + d as char
  }

  /** The digits of n, as %d prints it. */
  function Digits(n: nat): (s: string)
    ensures s != "" && AllDigits(s)
  {
    if n < 10 then [DigitOf(n)] else Digits(n / 10) + [DigitOf(n % 10)]
  }

  function Value(s: string): nat
    requires AllDigits(s)
  {
    if s == "" then 0
    else
      assert s[|s| - 1] in s;
      Value(s[..|s| - 1]) * 10 + (s[|s| - 1] as int - '0' as int)
  }

  lemma {:induction false} ValueOfDigits(n: nat)
    ensures Value(Digits(n)) == n
  {
    if n >= 10 {
      ValueOfDigits(n / 10);
      var s := Digits(n);
      assert s[..|s| - 1] == Digits(n / 10);
    }
  }

  /** Different numbers print differently. */
  lemma DigitsAreUnique(m: nat, n: nat)
    requires Digits(m) == Digits(n)
    ensures m == n
  {
    ValueOfDigits(m);
    ValueOfDigits(n);
  }

  function Print(i: int): string { if i < 0 then "-" + Digits(-i) else Digits(i) }

  const MAX64 := 0x7fff_ffff_ffff_ffff
  const MIN64 := -MAX64 - 1

  /** strconv.ParseInt(s, 10, 64) with its error dropped: 0 for what is no
      number, the nearest end of the range for what does not fit. */
  function Parse(s: string): int {
    var signed := s != "" && s[0] in "+-";
    var digits := if signed then s[1..] else s;
    if digits == "" || !AllDigits(digits) then 0
    else
      var n: int := Value(digits);
      var v := if signed && s[0] == '-' then -n else n;
      if v > MAX64 then MAX64 else if v < MIN64 then MIN64 else v
  }

  /** Reading undoes printing for every 64-bit number. */
  lemma ParsePrint(i: int)
    requires MIN64 <= i <= MAX64
    ensures Parse(Print(i)) == i
  {
    hide Digits, Value;
    if i < 0 {
      ValueOfDigits(-i);
      assert Print(i)[1..] == Digits(-i);
    } else {
      ValueOfDigits(i);
      assert IsDigit(Print(i)[0]);
    }
  }

  /** What is printed holds digits and a minus sign. */
  lemma PrintHolds(i: int)
    ensures Print(i) != "" && forall c | c in Print(i) :: IsDigit(c) || c == '-'
  {
    if i < 0 {
      forall c | c in Print(i) ensures IsDigit(c) || c == '-' {
        assert c == '-' || c in Digits(-i);
      }
    }
  }

  /** A number is printed in base ten: one more digit is ten times the number and
      that digit; a minus sign is put before the digits of a negative one. */
  lemma PrintedDigits(m: nat, d: nat)
    requires d < 10
    ensures Print(d) == ["0123456789"[d]]
    ensures m > 0 ==> Print(10 * m + d) == Print(m) + ["0123456789"[d]]
    ensures m > 0 ==> Print(-(m as int)) == "-" + Print(m)
  {
    assert (10 * m + d) / 10 == m && (10 * m + d) % 10 == d;
    assert "0123456789"[d] == DigitOf(d);
  }
}
