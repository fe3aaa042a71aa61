/** Decimal rendering of unsigned integers: what `%d` prints, and the hand-written `uitoa`. */
module Decimal {

  function DigitChar(d: nat): (c: char)
    requires d < 10
    ensures '0' <= c <= '9' && c as int - '0' as int == d
  {
    '0' + d as char
  }

  /** The decimal numeral of n, most significant digit first, no leading zero. */
  function Digits(n: nat): (s: string)
    ensures |s| > 0
    ensures forall i :: 0 <= i < |s| ==> '0' <= s[i] <= '9'
    ensures s[0] == '0' ==> n == 0
  {
    if n < 10 then [DigitChar(n)] else Digits(n / 10) + [DigitChar(n % 10)]
  }

  ghost predicate IsNumeral(s: string) {
    forall i :: 0 <= i < |s| ==> '0' <= s[i] <= '9'
  }

  /** The number a numeral denotes, read back digit by digit. */
  ghost function Value(s: string): nat
    requires IsNumeral(s)
  {
    if s == [] then 0 else 10 * Value(s[..|s| - 1]) + (s[|s| - 1] as int - '0' as int)
  }

  lemma {:induction false} ValueOfDigits(n: nat)
    ensures Value(Digits(n)) == n
  {
    if n < 10 {
      assert Digits(n)[..0] == [];
    } else {
      ValueOfDigits(n / 10);
      assert Digits(n)[..|Digits(n)| - 1] == Digits(n / 10);
    }
  }

  lemma {:induction false} DigitsInjective(m: nat, n: nat)
    ensures Digits(m) == Digits(n) ==> m == n
  {
    ValueOfDigits(m);
    ValueOfDigits(n);
  }

  ghost function Reversed(s: string): (r: string)
    ensures |r| == |s|
    ensures forall i :: 0 <= i < |s| ==> r[i] == s[|s| - 1 - i]
  {
    seq(|s|, i requires 0 <= i < |s| => s[|s| - 1 - i])
  }

  /** The digit loop and the in-place reversal agree with decimal printing for every input. */
  method Uitoa(u: nat) returns (s: string)
    ensures s == Digits(u)
  {
    if u == 0 {
      return "0";
    }
    var buf: string := [];
    var rest := u;
    while rest > 0
      invariant if rest == 0 then Reversed(buf) == Digits(u) else Digits(rest) + Reversed(buf) == Digits(u)
    {
      ghost var before := buf;
      buf := buf + [DigitChar(rest % 10)];
      assert Reversed(buf) == [DigitChar(rest % 10)] + Reversed(before);
      if rest < 10 {
        assert Digits(rest) + Reversed(before) == Reversed(buf);
      } else {
        assert Digits(rest) + Reversed(before) == Digits(rest / 10) + Reversed(buf);
      }
      rest := rest / 10;
    }
    ghost var digits := buf;
    var i, j := 0, |buf| - 1;
    while i < j
      invariant 0 <= i && j == |digits| - 1 - i && i <= j + 1 && |buf| == |digits|
      invariant forall k :: 0 <= k < i || j < k < |digits| ==> buf[k] == digits[|digits| - 1 - k]
      invariant forall k :: i <= k <= j ==> buf[k] == digits[k]
    {
      buf := buf[i := buf[j]][j := buf[i]];
      i, j := i + 1, j - 1;
    }
    assert buf == Reversed(digits);
    return buf;
  }
}
