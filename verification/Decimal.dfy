/** Decimal digit strings: what `std::to_string` prints and what `std::stoi` reads. */
module Decimal {

  predicate IsDigit(c: char) {
    '0' <= c <= '9'
  }

  const DIGITS := set c: char | IsDigit(c)

  predicate AllDigits(s: string) {
    forall i | 0 <= i < |s| :: IsDigit(s[i])
  }

  /** `is_positive_integer`: a non-empty string of digits. */
  predicate IsPositiveInteger(s: string) {
    s != "" && AllDigits(s)
  }

  function Print(n: nat): (s: string)
    ensures IsPositiveInteger(s)
  {
    if n < 10 then [(n + 48) as char] else Print(n / 10) + [(n % 10 + 48) as char]
  }

  /** The number a digit string denotes; leading zeros are allowed. */
  function Value(s: string): nat
    requires AllDigits(s)
  {
    if s == "" then 0 else Value(s[..|s| - 1]) * 10 + (s[|s| - 1] as int - 48)
  }

  lemma {:induction false} ValueOfPrint(n: nat)
    ensures Value(Print(n)) == n
  {
    if n < 10 {
      assert Print(n)[..0] == "";
    } else {
      var front := Print(n / 10);
      assert (front + [(n % 10 + 48) as char])[..|front|] == front;
      ValueOfPrint(n / 10);
    }
  }

  /** Leading zeros do not count. */
  lemma {:induction false} ValueOfLeadingZero(s: string)
    requires AllDigits(s)
    ensures Value("0" + s) == Value(s)
  {
    var t := "0" + s;
    if s == "" {
      assert t[..0] == "";
    } else {
      assert t[..|t| - 1] == "0" + s[..|s| - 1];
      ValueOfLeadingZero(s[..|s| - 1]);
    }
  }

  /** No leading zeros, as a JSON number requires. */
  lemma {:induction false} PrintHasNoLeadingZero(n: nat)
    ensures |Print(n)| == 1 || Print(n)[0] != '0'
    ensures n > 0 ==> Print(n)[0] != '0'
  {
    if n >= 10 {
      PrintHasNoLeadingZero(n / 10);
    }
  }
}
