/** Exact decimal arithmetic on digit strings: the vocabulary in which request-id
    canonicalisation is specified. Nothing here is specific to JSON-RPC. */
module Decimals {

  predicate IsDigit(c: char) {
    '0' <= c <= '9'
  }

  predicate AllDigits(s: string) {
    forall i | 0 <= i < |s| :: IsDigit(s[i])
  }

  function DigitValue(c: char): (v: nat)
    requires IsDigit(c)
    ensures v < 10
  {
    c as int - '0' as int
  }

  /** The number a digit string denotes; the empty string denotes zero. */
  function Nat(s: string): nat
    requires AllDigits(s)
  {
    if s == "" then 0 else 10 * Nat(s[..|s| - 1]) + DigitValue(s[|s| - 1])
  }

  function Pow10(n: nat): (p: nat)
    ensures p > 0
  {
    if n == 0 then 1 else 10 * Pow10(n - 1)
  }

  function Zeros(n: nat): (s: string)
    ensures |s| == n && AllDigits(s) && forall i | 0 <= i < n :: s[i] == '0'
  {
    seq(n, i => '0')
  }

  /** coeff * 10^exp, with a possibly negative exponent. */
  datatype Decimal = Decimal(coeff: int, exp: int)

  function Min(a: int, b: int): int {
    if a <= b then a else b
  }

  /** a's coefficient once its exponent has been lowered to e. */
  function At(a: Decimal, e: int): int
    requires e <= a.exp
  {
    a.coeff * Pow10(a.exp - e)
  }

  /** Exact equality of the rational numbers a and b. */
  predicate SameValue(a: Decimal, b: Decimal) {
    var e := Min(a.exp, b.exp);
    At(a, e) == At(b, e)
  }

  lemma {:induction false} Pow10Add(m: nat, n: nat)
    ensures Pow10(m + n) == Pow10(m) * Pow10(n)
    decreases m
  {
    if m > 0 {
      Pow10Add(m - 1, n);
      var p, q := Pow10(m - 1), Pow10(n);
      MulAssociative(10, p, q);
      assert m + n - 1 == (m - 1) + n;
    }
  }

  lemma Lower(a: Decimal, e: int, k: nat)
    requires e <= a.exp
    ensures At(a, e - k) == At(a, e) * Pow10(k)
  {
    Pow10Add(a.exp - e, k);
    assert a.exp - (e - k) == (a.exp - e) + k;
    MulAssociative(a.coeff, Pow10(a.exp - e), Pow10(k));
  }

  /** The common exponent at which two decimals are compared does not matter. */
  lemma CompareAnywhere(a: Decimal, b: Decimal, e: int)
    requires e <= a.exp && e <= b.exp
    ensures SameValue(a, b) <==> At(a, e) == At(b, e)
  {
    var m := Min(a.exp, b.exp);
    Lower(a, m, m - e);
    Lower(b, m, m - e);
    Cancel(At(a, m), At(b, m), Pow10(m - e));
  }

  lemma MulAssociative(x: int, y: int, z: int)
    ensures x * (y * z) == (x * y) * z
  {
  }

  lemma MulDistributes(x: int, y: int, p: int)
    ensures (x - y) * p == x * p - y * p
    ensures (x + y) * p == x * p + y * p
  {
  }

  lemma TenTimes(x: int, p: int)
    ensures 10 * (x * p) == x * (10 * p)
  {
  }

  lemma NonZero(d: int, p: nat)
    requires d != 0 && p > 0
    ensures d * p != 0
  {
  }

  lemma Cancel(x: int, y: int, p: nat)
    requires p > 0
    ensures x * p == y * p <==> x == y
  {
    MulDistributes(x, y, p);
    if x * p == y * p && x != y {
      NonZero(x - y, p);
    }
  }

  lemma SameValueTransitive(a: Decimal, b: Decimal, c: Decimal)
    requires SameValue(a, b) && SameValue(b, c)
    ensures SameValue(a, c)
  {
    var e := Min(a.exp, Min(b.exp, c.exp));
    CompareAnywhere(a, b, e);
    CompareAnywhere(b, c, e);
    CompareAnywhere(a, c, e);
  }

  lemma ShiftBy(c: int, e: int, k: nat, p: nat)
    requires p == Pow10(k)
    ensures SameValue(Decimal(c * p, e), Decimal(c, e + k))
  {
    assert Min(e, e + k) == e && Pow10(0) == 1;
    assert At(Decimal(c * p, e), e) == c * p * Pow10(0);
    assert At(Decimal(c, e + k), e) == c * p;
  }

  /** Moving k trailing zeros of the coefficient into the exponent keeps the value. */
  lemma Shift(c: int, e: int, k: nat)
    ensures SameValue(Decimal(c * Pow10(k), e), Decimal(c, e + k))
  {
    ShiftBy(c, e, k, Pow10(k));
  }

  lemma AppendDigit(x: nat, p: nat, n: nat, d: nat)
    ensures 10 * (x * p + n) + d == x * (10 * p) + (10 * n + d)
  {
    TenTimes(x, p);
  }

  lemma {:induction false} NatAppend(s: string, t: string)
    requires AllDigits(s) && AllDigits(t)
    ensures AllDigits(s + t) && Nat(s + t) == Nat(s) * Pow10(|t|) + Nat(t)
    decreases |t|
  {
    if t == "" {
      assert s + t == s;
    } else {
      var t' := t[..|t| - 1];
      NatAppend(s, t');
      assert (s + t)[..|s + t| - 1] == s + t';
      assert (s + t)[|s + t| - 1] == t[|t| - 1];
      assert Pow10(|t|) == 10 * Pow10(|t'|);
      AppendDigit(Nat(s), Pow10(|t'|), Nat(t'), DigitValue(t[|t| - 1]));
    }
  }

  lemma {:induction false} NatZeros(n: nat)
    ensures Nat(Zeros(n)) == 0
    decreases n
  {
    if n > 0 {
      NatZeros(n - 1);
      assert Zeros(n)[..n - 1] == Zeros(n - 1);
    }
  }

  lemma PrependZeros(n: nat, s: string)
    requires AllDigits(s)
    ensures AllDigits(Zeros(n) + s) && Nat(Zeros(n) + s) == Nat(s)
  {
    NatAppend(Zeros(n), s);
    NatZeros(n);
  }

  lemma AppendZeros(s: string, n: nat)
    requires AllDigits(s)
    ensures AllDigits(s + Zeros(n)) && Nat(s + Zeros(n)) == Nat(s) * Pow10(n)
  {
    NatAppend(s, Zeros(n));
    NatZeros(n);
  }

  /** A digit string that does not start with zero is at least its leading place. */
  lemma {:induction false} LeadingPlace(s: string)
    requires AllDigits(s) && s != "" && s[0] != '0'
    ensures Pow10(|s| - 1) <= Nat(s) < Pow10(|s|)
    decreases |s|
  {
    if |s| > 1 {
      LeadingPlace(s[..|s| - 1]);
    } else {
      assert s[..0] == "";
    }
  }

  /** Digit strings without leading zeros are determined by their value. */
  lemma {:induction false} NatInjective(s: string, t: string)
    requires AllDigits(s) && AllDigits(t)
    requires s == "" || s[0] != '0'
    requires t == "" || t[0] != '0'
    requires Nat(s) == Nat(t)
    ensures s == t
    decreases |s|
  {
    if s == "" || t == "" {
      if s != "" { LeadingPlace(s); }
      if t != "" { LeadingPlace(t); }
    } else {
      var s', t' := s[..|s| - 1], t[..|t| - 1];
      assert Nat(s') == Nat(t') && DigitValue(s[|s| - 1]) == DigitValue(t[|t| - 1]);
      NatInjective(s', t');
      assert s == s' + [s[|s| - 1]] && t == t' + [t[|t| - 1]];
    }
  }

  /** Coefficients that are not multiples of ten make the representation unique. */
  lemma NormalUnique(a: Decimal, b: Decimal)
    requires a.coeff % 10 != 0 && b.coeff % 10 != 0
    requires SameValue(a, b)
    ensures a == b
  {
    if a.exp < b.exp {
      TenDivides(b.coeff, b.exp - a.exp);
    } else if b.exp < a.exp {
      TenDivides(a.coeff, a.exp - b.exp);
    }
  }

  lemma TenDivides(c: int, k: nat)
    requires k > 0
    ensures (c * Pow10(k)) % 10 == 0
  {
    var p := Pow10(k - 1);
    assert c * (10 * p) == 10 * (c * p);
  }
}
