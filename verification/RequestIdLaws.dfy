/** What the canonical keys of request_id.go are for: they identify values exactly. */
module RequestIdLaws {
  import opened Decimals
  import opened Results
  import opened RequestIds

  function Signed(negative: bool, n: nat): int {
    if negative then 0 - n else n
  }

  /** The value of what the parser hands to the printer. */
  function Amount(n: Numeric): Decimal
    requires AllDigits(n.digits)
  {
    Decimal(Signed(n.negative, Nat(n.digits)), n.exp10)
  }

  /** Neither a leading nor a trailing zero; zero itself has no digits and no sign. */
  predicate Normal(n: Numeric) {
    && AllDigits(n.digits)
    && (n.digits == "" ==> !n.negative && n.exp10 == 0)
    && (n.digits != "" ==> n.digits[0] != '0' && n.digits[|n.digits| - 1] != '0')
  }

  // ------------------------------------------------- each stage keeps the value

  lemma {:induction false} TrimLeftKeeps(s: string)
    requires AllDigits(s)
    ensures Nat(TrimLeft(s)) == Nat(s)
    decreases |s|
  {
    if s != "" && s[0] == '0' {
      TrimLeftKeeps(s[1..]);
      PrependZeros(1, s[1..]);
      assert s == Zeros(1) + s[1..];
    }
  }

  lemma {:induction false} TrimRightKeeps(s: string)
    requires AllDigits(s)
    ensures AllDigits(TrimRight(s))
    ensures Nat(s) == Nat(TrimRight(s)) * Pow10(|s| - |TrimRight(s)|)
    decreases |s|
  {
    if s != "" && s[|s| - 1] == '0' {
      var t := s[..|s| - 1];
      TrimRightKeeps(t);
      TenTimes(Nat(TrimRight(s)), Pow10(|t| - |TrimRight(s)|));
    }
  }

  lemma SignedTimes(negative: bool, n: nat, p: nat)
    ensures Signed(negative, n * p) == Signed(negative, n) * p
  {
    MulDistributes(0, n, p);
  }

  lemma SignedShift(negative: bool, n: nat, k: nat, e: int)
    ensures SameValue(Decimal(Signed(negative, n * Pow10(k)), e), Decimal(Signed(negative, n), e + k))
  {
    SignedTimes(negative, n, Pow10(k));
    Shift(Signed(negative, n), e, k);
  }

  lemma NormalizeKeeps(n: Numeric)
    requires AllDigits(n.digits)
    ensures AllDigits(Normalize(n).digits)
    ensures SameValue(Amount(n), Amount(Normalize(n)))
  {
    var t := TrimRight(n.digits);
    TrimRightKeeps(n.digits);
    SignedShift(n.negative, Nat(t), |n.digits| - |t|, n.exp10);
  }

  lemma DigestKeeps(l: Literal)
    requires WellFormed(l)
    ensures AllDigits(Digest(l).digits)
    ensures SameValue(Value(l), Amount(Digest(l)))
  {
    TrimLeftKeeps(l.whole + l.frac);
    if Digest(l).digits == "" {
      ZeroIsZero(Value(l), Amount(Digest(l)));
    }
  }

  lemma ZeroIsZero(a: Decimal, b: Decimal)
    requires a.coeff == 0 && b.coeff == 0
    ensures SameValue(a, b)
  {
  }

  lemma NormalizeIsNormal(n: Numeric)
    requires AllDigits(n.digits)
    requires if n.digits == "" then !n.negative && n.exp10 == 0 else n.digits[0] != '0'
    ensures Normal(Normalize(n))
  {
    TrimRightKeeps(n.digits);
    if n.digits != "" && TrimRight(n.digits) == "" {
      NonEmptyPositive(n.digits);
      assert false;
    }
  }

  /** The normal form of an accepted literal, and that it denotes the same number. */
  lemma NormalForm(l: Literal)
    requires WellFormed(l)
    ensures Normal(Normalize(Digest(l)))
    ensures SameValue(Value(l), Amount(Normalize(Digest(l))))
  {
    DigestKeeps(l);
    NormalizeIsNormal(Digest(l));
    NormalizeKeeps(Digest(l));
    SameValueTransitive(Value(l), Amount(Digest(l)), Amount(Normalize(Digest(l))));
  }

  lemma NonEmptyPositive(s: string)
    requires AllDigits(s) && s != "" && s[0] != '0'
    ensures Nat(s) > 0
  {
    LeadingPlace(s);
  }

  /** The literal whose text the printer produces. */
  function Printed(n: Numeric): Literal
    requires Normal(n)
  {
    var d := n.digits;
    if d == "" then Literal(false, "0", "", NoExponent)
    else if n.exp10 >= 0 then Literal(n.negative, d + Zeros(n.exp10), "", NoExponent)
    else
      var scale := 0 - n.exp10;
      if |d| > scale then Literal(n.negative, d[..|d| - scale], d[|d| - scale..], NoExponent)
      else Literal(n.negative, "0", Zeros(scale - |d|) + d, NoExponent)
  }

  lemma PlainText(l: Literal)
    requires l.exp.NoExponent?
    ensures Text(l) == (if l.minus then "-" else "") + (l.whole + FractionText(l.frac))
  {
  }

  lemma PrintedWellFormed(n: Numeric)
    requires Normal(n)
    ensures WellFormed(Printed(n))
  {
  }

  lemma PrintedIsText(n: Numeric)
    requires Normal(n) && Print(n).Some?
    ensures WellFormed(Printed(n)) && Print(n).value == Text(Printed(n))
  {
    var l := Printed(n);
    PrintedWellFormed(n);
    PlainText(l);
    var scale := 0 - n.exp10;
    if n.digits != "" && 0 < scale < |n.digits| {
      assert l.whole + FractionText(l.frac) == l.whole + "." + l.frac;
    } else if n.digits != "" && 0 < scale {
      assert l.whole + FractionText(l.frac) == "0." + Zeros(scale - |n.digits|) + n.digits;
    } else {
      assert l.whole + FractionText(l.frac) == l.whole;
    }
  }

  lemma WholeKeeps(n: Numeric)
    requires Normal(n) && WellFormed(Printed(n)) && n.digits != "" && n.exp10 >= 0
    ensures SameValue(Value(Printed(n)), Amount(n))
  {
    var l := Printed(n);
    assert l.whole + l.frac == n.digits + Zeros(n.exp10);
    AppendZeros(n.digits, n.exp10);
    SignedShift(n.negative, Nat(n.digits), n.exp10, 0);
  }

  lemma BelowOneKeeps(n: Numeric)
    requires Normal(n) && WellFormed(Printed(n)) && n.digits != "" && |n.digits| <= 0 - n.exp10
    ensures SameValue(Value(Printed(n)), Amount(n))
  {
    var l, d := Printed(n), n.digits;
    assert l.whole + l.frac == Zeros(1) + (Zeros(0 - n.exp10 - |d|) + d);
    PrependZeros(0 - n.exp10 - |d|, d);
    PrependZeros(1, Zeros(0 - n.exp10 - |d|) + d);
  }

  lemma PrintedKeeps(n: Numeric)
    requires Normal(n) && WellFormed(Printed(n))
    ensures SameValue(Value(Printed(n)), Amount(n))
  {
    var l := Printed(n);
    if n.digits == "" {
      assert l.whole + l.frac == "0" && "0"[..0] == "";
    } else if n.exp10 >= 0 {
      WholeKeeps(n);
    } else if |n.digits| > 0 - n.exp10 {
      assert l.whole + l.frac == n.digits;
    } else {
      BelowOneKeeps(n);
    }
  }

  // ------------------------------------------------- normal forms are unique

  lemma ModTen(x: nat, d: nat)
    requires d < 10
    ensures (10 * x + d) % 10 == d
  {
  }

  lemma LastDigit(s: string)
    requires AllDigits(s) && s != "" && s[|s| - 1] != '0'
    ensures Nat(s) % 10 != 0
  {
    ModTen(Nat(s[..|s| - 1]), DigitValue(s[|s| - 1]));
  }

  lemma ZeroOnlyZero(a: Decimal, b: Decimal)
    requires SameValue(a, b) && a.coeff == 0
    ensures b.coeff == 0
  {
    var e := Min(a.exp, b.exp);
    if b.coeff != 0 {
      NonZero(b.coeff, Pow10(b.exp - e));
    }
  }

  lemma NonZeroAmount(n: Numeric)
    requires Normal(n) && n.digits != ""
    ensures Amount(n).coeff != 0 && Amount(n).coeff % 10 != 0
    ensures n.negative <==> Amount(n).coeff < 0
  {
    NonEmptyPositive(n.digits);
    LastDigit(n.digits);
  }

  lemma NormalFormUnique(a: Numeric, b: Numeric)
    requires Normal(a) && Normal(b) && SameValue(Amount(a), Amount(b))
    ensures a == b
  {
    if a.digits != "" { NonZeroAmount(a); }
    if b.digits != "" { NonZeroAmount(b); }
    if a.digits == "" {
      ZeroOnlyZero(Amount(a), Amount(b));
    } else if b.digits == "" {
      SameValueSymmetric(Amount(a), Amount(b));
      ZeroOnlyZero(Amount(b), Amount(a));
    } else {
      NormalUnique(Amount(a), Amount(b));
      NatInjective(a.digits, b.digits);
    }
  }

  // ------------------------------------------------- the laws

  lemma CanonicalOf(l: Literal)
    requires WellFormed(l)
    ensures Canonical(Text(l)) == if InBounds(l) then Print(Normalize(Digest(l))) else None
  {
    ScanComplete(l);
  }

  /** A key is itself a number text, and denotes exactly the number it is the key of. */
  lemma KeyDenotesItsId(raw: string)
    requires Canonical(raw).Some?
    ensures var key := Canonical(raw).value;
            && Scan(raw).Some? && WellFormed(Scan(raw).value)
            && Scan(key).Some? && WellFormed(Scan(key).value)
            && SameValue(Value(Scan(key).value), Value(Scan(raw).value))
  {
    ScanSound(raw);
    var l := Scan(raw).value;
    var n := Normalize(Digest(l));
    NormalForm(l);
    PrintedIsText(n);
    PrintedKeeps(n);
    ScanComplete(Printed(n));
    SameValueSymmetric(Value(l), Amount(n));
    SameValueTransitive(Value(Printed(n)), Amount(n), Value(l));
  }

  lemma SameValueSymmetric(a: Decimal, b: Decimal)
    requires SameValue(a, b)
    ensures SameValue(b, a)
  {
  }

  /** Two accepted number texts have the same key if and only if they denote the same number. */
  lemma KeysIdentifyNumbers(a: string, b: string)
    requires Canonical(a).Some? && Canonical(b).Some?
    ensures Scan(a).Some? && Scan(b).Some?
    ensures WellFormed(Scan(a).value) && WellFormed(Scan(b).value)
    ensures Canonical(a) == Canonical(b) <==> SameValue(Value(Scan(a).value), Value(Scan(b).value))
  {
    KeyDenotesItsId(a);
    KeyDenotesItsId(b);
    var x, y := Value(Scan(a).value), Value(Scan(b).value);
    if Canonical(a) == Canonical(b) {
      var k := Value(Scan(Canonical(a).value).value);
      SameValueSymmetric(k, x);
      SameValueTransitive(x, k, y);
    }
    if SameValue(x, y) {
      SameValueSameNormalForm(Scan(a).value, Scan(b).value);
    }
  }

  lemma SameValueSameNormalForm(l: Literal, m: Literal)
    requires WellFormed(l) && WellFormed(m) && SameValue(Value(l), Value(m))
    ensures Normalize(Digest(l)) == Normalize(Digest(m))
  {
    var p, q := Normalize(Digest(l)), Normalize(Digest(m));
    NormalForm(l);
    NormalForm(m);
    SameValueSymmetric(Value(l), Amount(p));
    SameValueTransitive(Amount(p), Value(l), Value(m));
    SameValueTransitive(Amount(p), Value(m), Amount(q));
    NormalFormUnique(p, q);
  }

  /** What a literal prints as has the literal's own normal form. */
  lemma PrintedSameForm(l: Literal)
    requires WellFormed(l) && Print(Normalize(Digest(l))).Some?
    ensures var n := Normalize(Digest(l));
            && Normal(n) && WellFormed(Printed(n)) && Text(Printed(n)) == Print(n).value
            && Printed(n).exp.NoExponent? && Normalize(Digest(Printed(n))) == n
  {
    var n := Normalize(Digest(l));
    NormalForm(l);
    PrintedIsText(n);
    PrintedKeeps(n);
    SameValueSymmetric(Value(Printed(n)), Amount(n));
    SameValueTransitive(Value(l), Amount(n), Value(Printed(n)));
    SameValueSameNormalForm(l, Printed(n));
  }

  lemma CanonicalPrints(raw: string)
    requires Canonical(raw).Some?
    ensures Scan(raw).Some? && WellFormed(Scan(raw).value)
    ensures Canonical(raw) == Print(Normalize(Digest(Scan(raw).value)))
  {
    ScanSound(raw);
  }

  /** Keys are bounded fixed points: at most 4096 characters and a sign, accepted again under
      the same bounds, and their own key. */
  lemma KeysAreFixedPoints(raw: string)
    requires Canonical(raw).Some?
    ensures var key := Canonical(raw).value;
            && |key| <= MAX_KEY_LEN + (if key[..1] == "-" then 1 else 0)
            && Canonical(key) == Some(key)
  {
    CanonicalPrints(raw);
    var l := Scan(raw).value;
    PrintedSameForm(l);
    PrintedLength(Normalize(Digest(l)));
    CanonicalOf(Printed(Normalize(Digest(l))));
  }

  lemma PrintedLength(n: Numeric)
    requires Normal(n) && Print(n).Some?
    ensures var key := Print(n).value;
            |key| <= MAX_KEY_LEN + (if key != "" && key[..1] == "-" then 1 else 0)
    ensures |Printed(n).whole + Printed(n).frac| <= MAX_KEY_LEN
  {
    var key := Print(n).value;
    assert n.negative ==> key[..1] == "-";
  }

  // ------------------------------------------------- exactly which numbers have which key

  /** A number written out plainly: no exponent, no zero at the end of the fraction, no minus zero. */
  predicate IsPlain(m: Literal) {
    && WellFormed(m) && m.exp.NoExponent?
    && (m.frac != "" ==> m.frac[|m.frac| - 1] != '0')
    && (m.minus ==> m.whole != "0" || m.frac != "")
  }

  function Unsigned(m: Literal): string {
    m.whole + FractionText(m.frac)
  }

  lemma PrintedIsPlain(n: Numeric)
    requires Normal(n)
    ensures IsPlain(Printed(n))
  {
    PrintedWellFormed(n);
  }

  lemma {:induction false} LeadingZerosRestored(s: string)
    ensures Zeros(|s| - |TrimLeft(s)|) + TrimLeft(s) == s
    decreases |s|
  {
    if s != "" && s[0] == '0' {
      LeadingZerosRestored(s[1..]);
      assert Zeros(|s| - |TrimLeft(s)|) == Zeros(1) + Zeros(|s[1..]| - |TrimLeft(s)|);
      assert s == Zeros(1) + s[1..];
    }
  }

  lemma {:induction false} TrimLeftEnds(s: string)
    requires s != "" && s[|s| - 1] != '0'
    ensures TrimLeft(s) != "" && TrimLeft(s)[|TrimLeft(s)| - 1] != '0'
    decreases |s|
  {
    if s[0] == '0' { TrimLeftEnds(s[1..]); }
  }

  lemma WholePlain(m: Literal)
    requires IsPlain(m) && m.whole != "0" && m.frac == ""
    ensures Normal(Normalize(Digest(m))) && m == Printed(Normalize(Digest(m)))
  {
    NormalForm(m);
    assert m.whole + m.frac == m.whole;
    assert Digest(m) == Numeric(m.minus, m.whole, 0);
    ZerosRestored(m.whole);
  }

  lemma MixedPlain(m: Literal)
    requires IsPlain(m) && m.whole != "0" && m.frac != ""
    ensures Normal(Normalize(Digest(m))) && m == Printed(Normalize(Digest(m)))
  {
    NormalForm(m);
    var d := m.whole + m.frac;
    assert TrimLeft(d) == d && TrimRight(d) == d;
    assert Normalize(Digest(m)) == Numeric(m.minus, d, 0 - |m.frac|);
    assert d[..|d| - |m.frac|] == m.whole && d[|d| - |m.frac|..] == m.frac;
  }

  lemma TrimsZero(s: string)
    ensures TrimLeft("0" + s) == TrimLeft(s)
  {
    assert ("0" + s)[1..] == s;
  }

  lemma SmallPlain(m: Literal)
    requires IsPlain(m) && m.whole == "0" && m.frac != ""
    ensures Normal(Normalize(Digest(m))) && m == Printed(Normalize(Digest(m)))
  {
    NormalForm(m);
    var d := TrimLeft(m.frac);
    TrimsZero(m.frac);
    TrimLeftEnds(m.frac);
    LeadingZerosRestored(m.frac);
    assert TrimRight(d) == d;
    assert Normalize(Digest(m)) == Numeric(m.minus, d, 0 - |m.frac|);
  }

  lemma ZeroPlain(m: Literal)
    requires IsPlain(m) && m.whole == "0" && m.frac == ""
    ensures Normal(Normalize(Digest(m))) && m == Printed(Normalize(Digest(m)))
  {
    NormalForm(m);
    assert m.whole + m.frac == "0";
    assert TrimLeft("0") == TrimLeft("0"[1..]) == "";
  }

  lemma PlainIsPrinted(m: Literal)
    requires IsPlain(m)
    ensures Normal(Normalize(Digest(m))) && m == Printed(Normalize(Digest(m)))
  {
    if m.whole == "0" {
      if m.frac == "" { ZeroPlain(m); } else { SmallPlain(m); }
    } else {
      if m.frac == "" { WholePlain(m); } else { MixedPlain(m); }
    }
  }

  /** Every number can be written out plainly in exactly one way. */
  lemma PlainUnique(m: Literal, m': Literal)
    requires IsPlain(m) && IsPlain(m')
    ensures SameValue(Value(m), Value(m')) <==> m == m'
  {
    if SameValue(Value(m), Value(m')) {
      PlainIsPrinted(m);
      PlainIsPrinted(m');
      SameValueSameNormalForm(m, m');
    }
  }

  lemma PlainExists(l: Literal) returns (m: Literal)
    requires WellFormed(l)
    ensures IsPlain(m) && SameValue(Value(m), Value(l))
  {
    var n := Normalize(Digest(l));
    NormalForm(l);
    PrintedIsPlain(n);
    PrintedKeeps(n);
    SameValueSymmetric(Value(l), Amount(n));
    SameValueTransitive(Value(Printed(n)), Amount(n), Value(l));
    m := Printed(n);
  }

  lemma UnsignedLength(n: Numeric)
    requires Normal(n) && n.digits != ""
    ensures var d, scale := |n.digits|, 0 - n.exp10;
            |Unsigned(Printed(n))| == if scale <= 0 then d - scale else if d > scale then d + 1 else 2 + scale
  {
  }

  /** The printer gives a number out exactly if it has at most 4096 characters, not counting the sign. */
  lemma PrintExactly(n: Numeric)
    requires Normal(n)
    ensures Print(n) == if |Unsigned(Printed(n))| <= 4096 then Some(Text(Printed(n))) else None
  {
    if n.digits != "" { UnsignedLength(n); }
    if Print(n).Some? { PrintedIsText(n); }
  }

  /** What is left of digits without their leading zeros is as long as the number is large. */
  lemma {:induction false} SignificantDigits(s: string, limit: nat)
    requires AllDigits(s)
    ensures |TrimLeft(s)| <= limit <==> Nat(s) < Pow10(limit)
  {
    var t := TrimLeft(s);
    TrimLeftKeeps(s);
    if t != "" {
      LeadingPlace(t);
      if |t| <= limit { Pow10Monotone(|t|, limit); } else { Pow10Monotone(limit, |t| - 1); }
    }
  }

  /** The exponent, and the digits behind the leading zeros, are within the bounds of the parser. */
  predicate WithinBounds(l: Literal) {
    WellFormed(l) && (l.exp.Exponent? ==> Nat(l.exp.digits) <= 4096) && |TrimLeft(l.whole + l.frac)| <= 4096
  }

  /** m is the number of the text, written out plainly. */
  predicate WritesOut(m: Literal, raw: string) {
    && Scan(raw).Some? && WellFormed(Scan(raw).value)
    && IsPlain(m) && SameValue(Value(m), Value(Scan(raw).value))
  }

  /** Exactly which texts have a key, and which: a number text has one if and only if its exponent is
      at most 4096, its digits behind the leading zeros are at most 4096, and written out plainly the
      number has at most 4096 characters, not counting the sign; the key is the number written so. */
  lemma KeyExactly(raw: string, m: Literal)
    requires WritesOut(m, raw)
    ensures Canonical(raw) == if WithinBounds(Scan(raw).value) && |Unsigned(m)| <= 4096 then Some(Text(m)) else None
  {
    ScanSound(raw);
    var l := Scan(raw).value;
    var n := Normalize(Digest(l));
    CanonicalOf(l);
    NormalForm(l);
    PrintExactly(n);
    PlainIsPrinted(m);
    SameValueSameNormalForm(m, l);
  }

  /** A text that is no number text has no key. */
  lemma OnlyNumbersHaveKeys(raw: string)
    ensures Canonical(raw).Some? ==> exists l :: WellFormed(l) && Text(l) == raw
  {
    if Canonical(raw).Some? { ScanSound(raw); }
  }

  // ------------------------------------------------- ids the connection sends

  /** Decimal digits of a natural number, as encoding/json prints an unsigned integer. */
  function DecimalText(n: nat): (s: string)
    ensures s != "" && AllDigits(s) && (s[0] == '0' ==> n == 0)
    ensures n == 0 ==> s == "0"
    ensures Nat(s) == n
  {
    var last := [(n % 10 + '0' as int) as char];
    if n < 10 then last
    else
      NatAppend(DecimalText(n / 10), last);
      DecimalText(n / 10) + last
  }

  lemma {:induction false} Pow10Monotone(m: nat, n: nat)
    requires m <= n
    ensures Pow10(m) <= Pow10(n)
    decreases n - m
  {
    if m < n { Pow10Monotone(m, n - 1); }
  }

  lemma TwentyDigits()
    ensures Pow10(20) >= 0x1_0000_0000_0000_0000
  {
    assert Pow10(5) == 100000;
    Pow10Add(5, 5);
    Pow10Add(10, 10);
  }

  lemma DecimalTextShort(n: nat)
    requires n < 0x1_0000_0000_0000_0000
    ensures |DecimalText(n)| <= 20
  {
    var s := DecimalText(n);
    TwentyDigits();
    if |s| > 20 {
      LeadingPlace(s);
      Pow10Monotone(20, |s| - 1);
      assert false;
    }
  }

  lemma PlainLiteral(n: nat)
    ensures var s := DecimalText(n); var l := Literal(false, s, "", NoExponent);
            WellFormed(l) && Text(l) == s && Scan(s) == Some(l) && l.whole + l.frac == s
  {
    var s := DecimalText(n);
    var l := Literal(false, s, "", NoExponent);
    assert s + "" == s && "" + s == s;
    PlainText(l);
    assert Text(l) == s;
    ScanComplete(l);
  }

  /** The plain decimal text under which a sent request is registered is the key under which
      the response's id is looked up, for every 64-bit counter value. */
  lemma SentIdsAreKeys(n: nat)
    requires n < 0x1_0000_0000_0000_0000
    ensures Canonical(DecimalText(n)) == Some(DecimalText(n))
  {
    DecimalTextShort(n);
    PlainLiteral(n);
    PlainDigits(n);
    CanonicalOf(Literal(false, DecimalText(n), "", NoExponent));
  }

  lemma PlainPrint(s: string)
    requires AllDigits(s) && s != "" && s[0] != '0' && |s| <= MAX_KEY_LEN
    ensures Print(Normalize(Numeric(false, s, 0))) == Some(s)
  {
    var t := TrimRight(s);
    TrimRightKeeps(s);
    NonEmptyPositive(s);
    ZerosRestored(s);
    assert "" + (t + Zeros(|s| - |t|)) == s;
  }

  lemma PlainDigest(s: string)
    requires WellFormed(Literal(false, s, "", NoExponent))
    ensures var d := TrimLeft(s);
            Digest(Literal(false, s, "", NoExponent)) == Numeric(false, d, 0)
  {
    assert s + "" == s;
  }

  lemma PlainDigits(n: nat)
    ensures var s := DecimalText(n);
            var l := Literal(false, s, "", NoExponent);
            && WellFormed(l)
            && |TrimLeft(l.whole + l.frac)| <= |s|
            && (|s| <= MAX_KEY_LEN ==> Print(Normalize(Digest(l))) == Some(s))
  {
    var s := DecimalText(n);
    PlainDigest(s);
    if n == 0 {
      assert TrimLeft("0") == TrimLeft("0"[1..]) == "";
    } else if |s| <= MAX_KEY_LEN {
      PlainPrint(s);
    }
  }

  lemma {:induction false} ZerosRestored(s: string)
    ensures TrimRight(s) + Zeros(|s| - |TrimRight(s)|) == s
    decreases |s|
  {
    if s != "" && s[|s| - 1] == '0' {
      ZerosRestored(s[..|s| - 1]);
    }
  }

  // ------------------------------------------------- all kinds of ids

  datatype JsonId = NullId | StringId(text: string) | NumberId(raw: string) | OtherId

  /** canonicalJSONRPCIDKey after decoding; quote is the JSON encoding of a string. */
  function Key(quote: string -> string, id: JsonId): Option<string> {
    match id
    case NullId => Some("null")
    case StringId(text) => Some(quote(text))
    case NumberId(raw) => Canonical(raw)
    case OtherId => None
  }

  predicate SameId(a: JsonId, b: JsonId) {
    match (a, b)
    case (NullId, NullId) => true
    case (StringId(s), StringId(t)) => s == t
    case (NumberId(s), NumberId(t)) =>
      && Scan(s).Some? && Scan(t).Some?
      && WellFormed(Scan(s).value) && WellFormed(Scan(t).value)
      && SameValue(Value(Scan(s).value), Value(Scan(t).value))
    case _ => false
  }

  /** Number, string and null keys never collide, and keys of one kind identify the id. */
  lemma KeysIdentifyIds(quote: string -> string, a: JsonId, b: JsonId)
    requires forall s :: quote(s) != "" && quote(s)[0] == '"'
    requires forall s, t :: quote(s) == quote(t) ==> s == t
    requires Key(quote, a).Some? && Key(quote, b).Some?
    ensures Key(quote, a) == Key(quote, b) <==> SameId(a, b)
  {
    if a.NumberId? { NumberKeyStart(a.raw); }
    if b.NumberId? { NumberKeyStart(b.raw); }
    if a.NumberId? && b.NumberId? { KeysIdentifyNumbers(a.raw, b.raw); }
  }

  lemma NumberKeyStart(raw: string)
    requires Canonical(raw).Some?
    ensures var key := Canonical(raw).value; key != "" && (key[0] == '-' || IsDigit(key[0]))
  {
    ScanSound(raw);
    NormalForm(Scan(raw).value);
    PrintedIsText(Normalize(Digest(Scan(raw).value)));
  }
}
