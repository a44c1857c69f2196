/** Decimal rendering and parsing of integers, as %d and strconv.Atoi do them on 64-bit ints. */
module Decimal {
  import opened Wrappers

  const MIN_INT: int := -0x8000_0000_0000_0000
  const MAX_INT: int := 0x7fff_ffff_ffff_ffff

  predicate IsDigit(c: char) { '0' <= c <= '9' }

  predicate AllDigits(s: string) {
    forall i :: 0 <= i < |s| ==> IsDigit(s[i])
  }

  function DigitOf(d: nat): (c: char)
    requires d < 10
    ensures IsDigit(c) && ValueOf(c) == d && c == "0123456789"[d]
  {
    '0' + d as char
  }

  function ValueOf(c: char): (d: nat)
    requires IsDigit(c)
    ensures d < 10 && c == "0123456789"[d]
  {
    (c - '0') as nat
  }

  function Digits(n: nat): (s: string)
    ensures s != [] && AllDigits(s)
  {
    if n < 10 then [DigitOf(n)] else Digits(n / 10) + [DigitOf(n % 10)]
  }

  function Value(s: string): nat
    requires AllDigits(s)
  {
    if s == [] then 0 else 10 * Value(s[..|s| - 1]) + ValueOf(s[|s| - 1])
  }

  lemma {:induction false} DigitsValue(n: nat)
    ensures Value(Digits(n)) == n
  {
    if n < 10 {
      assert Digits(n)[..0] == [];
    } else {
      DigitsValue(n / 10);
      assert Digits(n)[..|Digits(n)| - 1] == Digits(n / 10);
    }
  }

  /** The usual form: no leading zero, and the last digit is the remainder by ten. */
  lemma {:induction false} DigitsCanonical(n: nat)
    ensures |Digits(n)| > 1 ==> Digits(n)[0] != '0'
    ensures Digits(n)[|Digits(n)| - 1] == "0123456789"[n % 10]
    ensures n > 0 ==> Digits(n)[0] != '0'
  {
    if n >= 10 {
      DigitsCanonical(n / 10);
    }
  }

  lemma DigitsInjective(m: nat, n: nat)
    requires Digits(m) == Digits(n)
    ensures m == n
  {
    DigitsValue(m);
    DigitsValue(n);
  }

  /** The verb %d. */
  function Itoa(n: int): string {
    if n < 0 then "-" + Digits(-n) else Digits(n)
  }

  predicate InRange(n: int) { MIN_INT <= n <= MAX_INT }

  /** strconv.Atoi: an optional sign, at least one digit, nothing else, and a value that fits. */
  function Atoi(s: string): Option<int> {
    if s == [] then None
    else
      var signed := s[0] == '-' || s[0] == '+';
      var digits := if signed then s[1..] else s;
      if digits == [] || !AllDigits(digits) then None
      else
        var v: int := Value(digits);
        var n := if s[0] == '-' then -v else v;
        if InRange(n) then Some(n) else None
  }

  predicate IsSign(sign: string) {
    sign == "" || sign == "+" || sign == "-"
  }

  /** The text is an optional sign and a digit string, and this is the number it denotes. */
  predicate Denotes(s: string, sign: string, digits: string, n: int) {
    && s == sign + digits && IsSign(sign) && digits != "" && AllDigits(digits)
    && n == if sign == "-" then 0 - Value(digits) else Value(digits)
  }

  /** A text is accepted exactly when it denotes a number of the machine, and then read as that number. */
  lemma AtoiAccepts(s: string, n: int)
    ensures Atoi(s) == Some(n) <==>
              -9223372036854775808 <= n <= 9223372036854775807 && exists sign, digits :: Denotes(s, sign, digits, n)
  {
    if Atoi(s) == Some(n) {
      if s[0] == '-' || s[0] == '+' {
        assert s == [s[0]] + s[1..];
        assert Denotes(s, [s[0]], s[1..], n);
      } else {
        assert "" + s == s;
        assert Denotes(s, "", s, n);
      }
    }
    if sign, digits :| InRange(n) && Denotes(s, sign, digits, n) {
      Unsigned(s, sign, digits);
    }
  }

  lemma Unsigned(s: string, sign: string, digits: string)
    requires s == sign + digits && IsSign(sign) && digits != "" && AllDigits(digits)
    ensures sign == "" ==> IsDigit(s[0]) && s == digits
    ensures sign != "" ==> s[0] == sign[0] && s[1..] == digits
  {
    if sign == "" {
      assert s == digits;
    }
  }

  /** What is printed is read back, for every integer of the machine. */
  lemma AtoiOfItoa(n: int)
    requires InRange(n)
    ensures Atoi(Itoa(n)) == Some(n)
  {
    DigitsValue(if n < 0 then -n else n);
    assert n < 0 ==> Itoa(n)[1..] == Digits(-n);
    assert n >= 0 ==> IsDigit(Itoa(n)[0]);
  }

  /** After a separator that is no digit, only digits: the separator is the last non-digit. */
  lemma SeparatorIsLast(s: string, p: string, separator: char, n: nat)
    requires s == p + [separator] + Digits(n) && !IsDigit(separator)
    ensures |p| < |s| && !IsDigit(s[|p|]) && forall j :: |p| < j < |s| ==> IsDigit(s[j])
    ensures p == s[..|p|] && Digits(n) == s[|p| + 1..]
  {
    assert forall j :: |p| < j < |s| ==> s[j] == Digits(n)[j - |p| - 1];
  }

  /** A prefix, a separator that is no digit, and a number: all can be read back. */
  lemma SuffixInjective(p: string, q: string, separator: char, m: nat, n: nat)
    requires !IsDigit(separator)
    requires p + [separator] + Digits(m) == q + [separator] + Digits(n)
    ensures p == q && m == n
  {
    var s := p + [separator] + Digits(m);
    SeparatorIsLast(s, p, separator, m);
    SeparatorIsLast(s, q, separator, n);
    assert |p| == |q|;
    DigitsInjective(m, n);
  }
}
