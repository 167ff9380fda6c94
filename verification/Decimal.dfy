/** Decimal printing and parsing of integers, as Rust's `Display` and `FromStr` do it. */
module Decimal {
  import opened Octets

  function Digit(d: nat): (c: char)
    requires d < 10
  {
    '0' + d as char
  }

  predicate IsDigit(c: char) {
    '0' <= c <= '9'
  }

  predicate AllDigits(s: string) {
    forall i :: 0 <= i < |s| ==> IsDigit(s[i])
  }

  function DigitValue(c: char): (d: nat)
    requires IsDigit(c)
    ensures d < 10
  {
    (c - '0') as int
  }

  /** `format!("{}", n)` for an unsigned `n`. */
  function ShowNat(n: nat): (s: string)
    ensures |s| > 0 && AllDigits(s)
  {
    if n < 10 then [Digit(n)] else ShowNat(n / 10) + [Digit(n % 10)]
  }

  /** `format!("{}", n)` for a signed `n`. */
  function ShowInt(n: int): (s: string)
    ensures |s| > 0
  {
    if n < 0 then "-" + ShowNat(-n) else ShowNat(n)
  }

  /** Each of these numbers printed. */
  function Printed(numbers: seq<int>): seq<string> {
    seq(|numbers|, i requires 0 <= i < |numbers| => ShowInt(numbers[i]))
  }

  function Pow10(k: nat): (p: nat)
    ensures p > 0
  {
    if k == 0 then 1 else 10 * Pow10(k - 1)
  }

  /** The number a digit string denotes. */
  function Value(s: string): nat
    requires AllDigits(s)
  {
    if |s| == 0 then 0 else 10 * Value(s[..|s| - 1]) + DigitValue(s[|s| - 1])
  }

  /** `s.parse()` into an unsigned type with `limit` values: digits after at most one `+`. */
  function ParseUnsigned(s: string, limit: nat): Option<nat> {
    var digits := if |s| > 0 && s[0] == '+' then s[1..] else s;
    if |digits| > 0 && AllDigits(digits) && Value(digits) < limit then Some(Value(digits)) else None
  }

  lemma {:induction false} ValueOfShow(n: nat)
    ensures Value(ShowNat(n)) == n
  {
    var s := ShowNat(n);
    if n >= 10 {
      assert s[..|s| - 1] == ShowNat(n / 10);
      ValueOfShow(n / 10);
    } else {
      assert s[..0] == [];
    }
  }

  lemma ParseOfShow(n: nat, limit: nat)
    ensures ParseUnsigned(ShowNat(n), limit) == if n < limit then Some(n) else None
  {
    ValueOfShow(n);
    assert IsDigit(ShowNat(n)[0]);
  }

  /** Distinct integers print differently. */
  lemma ShowIntInjective(a: int, b: int)
    requires ShowInt(a) == ShowInt(b)
    ensures a == b
  {
    var x, y := if a < 0 then -a else a, if b < 0 then -b else b;
    ValueOfShow(x);
    ValueOfShow(y);
    assert IsDigit(ShowNat(x)[0]) && IsDigit(ShowNat(y)[0]);
    if a < 0 {
      assert ShowInt(a)[1..] == ShowNat(x);
    }
    if b < 0 {
      assert ShowInt(b)[1..] == ShowNat(y);
    }
  }

  /** Digit strings of one length are determined by their value. */
  lemma {:induction false} ValueInjective(s: string, t: string)
    requires AllDigits(s) && AllDigits(t) && |s| == |t|
    requires Value(s) == Value(t)
    ensures s == t
  {
    if |s| > 0 {
      var k := |s| - 1;
      assert Value(s) == 10 * Value(s[..k]) + DigitValue(s[k]);
      assert Value(t) == 10 * Value(t[..k]) + DigitValue(t[k]);
      ValueInjective(s[..k], t[..k]);
      assert s == s[..k] + [s[k]] && t == t[..k] + [t[k]];
    }
  }

  // ---- in figures ----

  lemma DigitsInFigures(d: nat)
    requires d < 10
    ensures Digit(d) == "0123456789"[d] && IsDigit("0123456789"[d]) && DigitValue("0123456789"[d]) == d
  {
    var t := "0123456789";
    assert t[0] == '0' && t[1] == '1' && t[2] == '2' && t[3] == '3' && t[4] == '4';
    assert t[5] == '5' && t[6] == '6' && t[7] == '7' && t[8] == '8' && t[9] == '9';
  }

  /** Digit `i` from the right counts the `i`th power of ten. */
  lemma {:induction false} ShowNatInFigures(n: nat, i: nat)
    requires i < |ShowNat(n)|
    ensures ShowNat(n)[|ShowNat(n)| - 1 - i] == "0123456789"[n / Pow10(i) % 10]
  {
    if i == 0 {
      DigitsInFigures(n % 10);
      assert ShowNat(n)[|ShowNat(n)| - 1] == Digit(n % 10) && Pow10(0) == 1;
    } else {
      ShowNatInFigures(n / 10, i - 1);
      DivDiv(n, Pow10(i - 1));
      hide Pow10;
      assert ShowNat(n)[..|ShowNat(n)| - 1] == ShowNat(n / 10);
      assert Pow10(i) == 10 * Pow10(i - 1) by { Tenfold(i - 1); }
    }
  }

  lemma Tenfold(i: nat)
    ensures Pow10(i + 1) == 10 * Pow10(i)
  {
  }

  /** There are as many digits as the number needs. */
  lemma {:induction false} ShowNatLength(n: nat)
    ensures n < Pow10(|ShowNat(n)|) && (ShowNat(n) == "0" || Pow10(|ShowNat(n)| - 1) <= n)
  {
    if n >= 10 {
      var s := ShowNat(n / 10);
      ShowNatLength(n / 10);
      Tenfold(|s|);
      Tenfold(|s| - 1);
      assert s == "0" ==> Value(s) == 0;
      ValueOfShow(n / 10);
    } else {
      DigitsInFigures(n);
      assert Pow10(1) == 10;
    }
  }

  lemma DivDiv(n: nat, p: nat)
    requires p > 0
    ensures n / (10 * p) == n / 10 / p
  {
    var q, r := n / 10 / p, n / 10 % p;
    assert n / 10 == q * p + r;
    assert n == 10 * (q * p + r) + n % 10 == q * (10 * p) + (10 * r + n % 10);
    QuotientIs(n, 10 * p, q, 10 * r + n % 10);
  }

  lemma Product(x: nat, y: nat, d: nat)
    requires x >= y
    ensures x * d >= y * d
  {
  }

  lemma Smaller(x: nat, y: nat, d: nat)
    requires x * d < y * d
    ensures x < y
  {
    if x >= y {
      Product(x, y, d);
    }
  }

  lemma QuotientIs(n: nat, d: nat, q: nat, r: nat)
    requires n == q * d + r && r < d
    ensures n / d == q
  {
    var a := n / d;
    assert a * d <= n < (a + 1) * d && q * d <= n < (q + 1) * d;
    Smaller(a, q + 1, d);
    Smaller(q, a + 1, d);
  }

  lemma ShowIntInFigures(n: int)
    ensures n < 0 ==> ShowInt(n) == "-" + ShowNat(-n)
    ensures n >= 0 ==> ShowInt(n) == ShowNat(n)
  {
  }

  /** A text is refused unless it has a digit and nothing but digits after at most one plus sign. */
  lemma ParseInFigures(s: string, limit: nat)
    ensures ParseUnsigned("+" + s, limit) == if s != "" && s[0] == '+' then None else ParseUnsigned(s, limit)
    ensures ParseUnsigned("", limit) == None
    ensures (exists i :: 1 <= i < |s| && !('0' <= s[i] <= '9')) ==> ParseUnsigned(s, limit) == None
  {
    assert ("+" + s)[1..] == s;
    if i :| 1 <= i < |s| && !('0' <= s[i] <= '9') {
      assert s[0] == '+' ==> s[1..][i - 1] == s[i];
    }
  }
}
