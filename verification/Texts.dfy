/** What the other modules share on strings: decimal numbers, and the order of std::string. */
module Texts {

  function Digit(n: nat): char {
    (48 + n % 10) as char
  }

  /** What operator<< and fmt::format print for a number. */
  function Decimal(n: nat): string {
    if n < 10 then [Digit(n)] else Decimal(n / 10) + [Digit(n)]
  }

  /** The number that a text's characters stand for by their places, as decimal digits. */
  function ValueOf(digits: string): int {
    if digits == "" then 0 else 10 * ValueOf(digits[..|digits| - 1]) + (digits[|digits| - 1] as int - '0' as int)
  }

  predicate AllDigits(text: string) {
    forall i | 0 <= i < |text| :: '0' <= text[i] <= '9'
  }

  /** The text is the decimal numeral of n: digits, without a zero in front unless it is the only one. */
  predicate IsNumeral(text: string, n: nat) {
    text != "" && AllDigits(text) && (|text| > 1 ==> text[0] != '0') && ValueOf(text) == n
  }

  lemma {:induction false} DecimalIsNumeral(n: nat)
    ensures IsNumeral(Decimal(n), n)
    ensures n > 0 ==> Decimal(n)[0] != '0'
  {
    if n < 10 {
      assert [Digit(n)][..0] == "";
    } else {
      DecimalIsNumeral(n / 10);
      LastDigit(Decimal(n / 10), n);
    }
  }

  lemma LastDigit(digits: string, n: nat)
    requires AllDigits(digits)
    ensures AllDigits(digits + [Digit(n)]) && ValueOf(digits + [Digit(n)]) == 10 * ValueOf(digits) + n % 10
  {
    assert (digits + [Digit(n)])[..|digits|] == digits;
  }

  lemma {:induction false} ValueIsNat(digits: string)
    requires AllDigits(digits)
    ensures ValueOf(digits) >= 0 && (digits != "" && digits[0] != '0' ==> ValueOf(digits) > 0)
  {
    if digits != "" { ValueIsNat(digits[..|digits| - 1]); }
  }

  /** A number has one numeral only. */
  lemma {:induction false} OneNumeral(a: string, b: string, n: nat)
    requires IsNumeral(a, n) && IsNumeral(b, n)
    ensures a == b
    decreases n
  {
    var c, d := a[..|a| - 1], b[..|b| - 1];
    ValueIsNat(c);
    ValueIsNat(d);
    assert a == c + [a[|a| - 1]] && b == d + [b[|b| - 1]];
    if n >= 10 { OneNumeral(c, d, n / 10); }
  }

  /** std::string's operator<. */
  predicate Less(a: string, b: string) {
    b != "" && (a == "" || a[0] < b[0] || (a[0] == b[0] && Less(a[1..], b[1..])))
  }

  lemma {:induction false} LessAfter(pre: string, a: string, b: string)
    ensures Less(pre + a, pre + b) == Less(a, b)
  {
    if pre == "" {
      assert pre + a == a && pre + b == b;
    } else {
      LessAfter(pre[1..], a, b);
      assert (pre + a)[1..] == pre[1..] + a && (pre + b)[1..] == pre[1..] + b;
    }
  }
}
