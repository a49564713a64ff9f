/** Unsigned decimal text: what `std::to_string` prints and what `stoi` / `strtoull` read back. */
module Decimal {

  predicate IsDigit(c: char) {
    '0' <= c <= '9'
  }

  predicate AllDigits(s: string) {
    forall i :: 0 <= i < |s| ==> IsDigit(s[i])
  }

  function DigitChar(d: nat): (c: char)
    requires d < 10
    ensures IsDigit(c) && DigitValue(c) == d
  {
    ('0' as int + d) as char
  }

  function DigitValue(c: char): (d: nat)
    requires IsDigit(c)
    ensures d < 10
  {
    c as int - '0' as int
  }

  /** `std::to_string` of an unsigned number: no sign, no leading zero. */
  function Print(n: nat): (s: string)
    ensures |s| >= 1 && AllDigits(s)
  {
    if n < 10 then [DigitChar(n)] else Print(n / 10) + [DigitChar(n % 10)]
  }

  /** The number a run of digits stands for; the empty run is 0. */
  function Parse(s: string): nat
    requires AllDigits(s)
  {
    if s == [] then 0 else 10 * Parse(s[..|s| - 1]) + DigitValue(s[|s| - 1])
  }

  function Pow10(k: nat): (p: nat)
    ensures p >= 1
  {
    if k == 0 then 1 else 10 * Pow10(k - 1)
  }

  /** Printing and then parsing gives the number back. */
  lemma {:induction false} PrintThenParse(n: nat)
    ensures Parse(Print(n)) == n
  {
    if n >= 10 {
      PrintThenParse(n / 10);
      assert Print(n)[..|Print(n)| - 1] == Print(n / 10);
    } else {
      assert Print(n)[..0] == [];
    }
  }

  /** k digits stand for a number below 10^k. */
  lemma {:induction false} ParseBound(s: string)
    requires AllDigits(s)
    ensures Parse(s) < Pow10(|s|)
  {
    if s != [] {
      ParseBound(s[..|s| - 1]);
    }
  }

  /** Two digit runs of the same length that parse alike are the same text. */
  lemma {:induction false} ParseInjective(s: string, t: string)
    requires AllDigits(s) && AllDigits(t) && |s| == |t| && Parse(s) == Parse(t)
    ensures s == t
  {
    if s != [] {
      ParseInjective(s[..|s| - 1], t[..|t| - 1]);
      assert s == s[..|s| - 1] + [s[|s| - 1]];
      assert t == t[..|t| - 1] + [t[|t| - 1]];
    }
  }

  /** A leading zero does not change the number. */
  lemma {:induction false} ParseLeadingZero(s: string)
    requires AllDigits(s)
    ensures AllDigits("0" + s) && Parse("0" + s) == Parse(s)
  {
    if s == [] {
      assert ("0" + s)[..0] == [];
    } else {
      ParseLeadingZero(s[..|s| - 1]);
      assert ("0" + s)[..|s|] == "0" + s[..|s| - 1];
    }
  }

  /** A number below 10^k prints in at most k digits, and one of at least 10^k needs more. */
  lemma {:induction false} PrintLength(n: nat, k: nat)
    requires k >= 1
    ensures |Print(n)| <= k <==> n < Pow10(k)
  {
    if n >= 10 {
      if k >= 2 {
        PrintLength(n / 10, k - 1);
      }
    }
  }

  /** Reading a run of digits from the left, as `strtoull` does: acc * 10^|s| + the rest. */
  function ReadLeft(acc: nat, s: string): nat
    requires AllDigits(s)
    decreases |s|
  {
    if s == [] then acc else ReadLeft(10 * acc + DigitValue(s[0]), s[1..])
  }

  lemma {:induction false} ReadLeftIsParse(t: string, s: string)
    requires AllDigits(t) && AllDigits(s)
    ensures AllDigits(t + s) && ReadLeft(Parse(t), s) == Parse(t + s)
    decreases |s|
  {
    if s == [] {
      assert t + s == t;
    } else {
      var t' := t + [s[0]];
      assert t'[..|t'| - 1] == t;
      ReadLeftIsParse(t', s[1..]);
      assert t' + s[1..] == t + s;
    }
  }
}
