/** Numeric request ids: the scanner, the normaliser and the printer of request_id.go.
    The grammar is the one of section 6 of RFC 8259, given here twice: as the set of texts
    `Text(l)` of well-formed literals, and as the scanner's left-to-right reading `Scan`. */
module RequestIds {
  import opened Decimals
  import opened Results

  const MAX_KEY_LEN := 4096
  const MAX_ABS_EXP10 := 4096

  datatype IdError = Invalid | TooLarge

  // ---------------------------------------------------------------- grammar

  datatype Exponent = NoExponent | Exponent(mark: char, sign: string, digits: string)

  /** number = [ minus ] int [ frac ] [ exp ]; an empty frac means that there is none. */
  datatype Literal = Literal(minus: bool, whole: string, frac: string, exp: Exponent)

  predicate WellFormed(l: Literal) {
    && l.whole != "" && AllDigits(l.whole) && (l.whole[0] == '0' ==> |l.whole| == 1)
    && AllDigits(l.frac)
    && ExponentOk(l.exp)
  }

  predicate ExponentOk(e: Exponent) {
    e.Exponent? ==>
      && (e.mark == 'e' || e.mark == 'E')
      && (e.sign == "" || e.sign == "+" || e.sign == "-")
      && e.digits != "" && AllDigits(e.digits)
  }

  function ExponentText(e: Exponent): string {
    match e
    case NoExponent => ""
    case Exponent(mark, sign, digits) => [mark] + sign + digits
  }

  function FractionText(frac: string): string {
    if frac == "" then "" else "." + frac
  }

  function Text(l: Literal): string {
    (if l.minus then "-" else "") + l.whole + FractionText(l.frac) + ExponentText(l.exp)
  }

  function ExponentValue(e: Exponent): int
    requires ExponentOk(e)
  {
    match e
    case NoExponent => 0
    case Exponent(_, sign, digits) => if sign == "-" then 0 - Nat(digits) else Nat(digits)
  }

  /** The exact decimal value a literal denotes. */
  function Value(l: Literal): Decimal
    requires WellFormed(l)
  {
    var c := Nat(l.whole + l.frac);
    Decimal(if l.minus then 0 - c else c, ExponentValue(l.exp) - |l.frac|)
  }

  // ---------------------------------------------------------------- scanning

  /** The end of the run of digits that starts at i. */
  function DigitsEnd(s: string, i: nat): (e: nat)
    requires i <= |s|
    ensures i <= e <= |s| && forall j | i <= j < e :: IsDigit(s[j])
    ensures e < |s| ==> !IsDigit(s[e])
    decreases |s| - i
  {
    if i < |s| && IsDigit(s[i]) then DigitsEnd(s, i + 1) else i
  }

  lemma DigitsEndIs(s: string, i: nat, e: nat)
    requires i <= e <= |s| && forall j | i <= j < e :: IsDigit(s[j])
    requires e < |s| ==> !IsDigit(s[e])
    ensures DigitsEnd(s, i) == e
  {
  }

  /** Reads the optional exponent at i, which has to reach the end of the text. */
  function ScanExponent(s: string, i: nat): Option<Exponent>
    requires i <= |s|
  {
    if i == |s| then Some(NoExponent)
    else if s[i] != 'e' && s[i] != 'E' then None
    else
      var signed := i + 1 < |s| && (s[i + 1] == '+' || s[i + 1] == '-');
      var j := if signed then i + 2 else i + 1;
      if j < |s| && DigitsEnd(s, j) == |s|
      then Some(Exponent(s[i], s[i + 1..j], s[j..]))
      else None
  }

  /** Reads the optional fraction at i: its digits, and where it ends. */
  function ScanFraction(s: string, i: nat): (r: Option<(string, nat)>)
    requires i <= |s|
    ensures r.Some? ==> i <= r.value.1 <= |s|
  {
    if i == |s| || s[i] != '.' then Some(("", i))
    else
      var e := DigitsEnd(s, i + 1);
      if e == i + 1 then None else Some((s[i + 1..e], e))
  }

  /** The integer part at i: where it ends, unless it is missing or has a leading zero. */
  function ScanWhole(s: string, i: nat): (r: Option<nat>)
    requires i <= |s|
    ensures r.Some? ==> i < r.value <= |s|
  {
    var e := DigitsEnd(s, i);
    if e == i || (s[i] == '0' && e > i + 1) then None else Some(e)
  }

  /** The literal a text is the text of, if it is one. */
  function Scan(s: string): Option<Literal> {
    var start := if s != "" && s[0] == '-' then 1 else 0;
    match ScanWhole(s, start)
    case None => None
    case Some(intEnd) =>
      match ScanFraction(s, intEnd)
      case None => None
      case Some((frac, fracEnd)) =>
        match ScanExponent(s, fracEnd)
        case None => None
        case Some(exp) => Some(Literal(start == 1, s[start..intEnd], frac, exp))
  }

  lemma ScanExponentSound(s: string, i: nat)
    requires i <= |s| && ScanExponent(s, i).Some?
    ensures ExponentText(ScanExponent(s, i).value) == s[i..]
    ensures ExponentOk(ScanExponent(s, i).value)
  {
    if i < |s| {
      var signed := i + 1 < |s| && (s[i + 1] == '+' || s[i + 1] == '-');
      var j := if signed then i + 2 else i + 1;
      assert DigitsEnd(s, j) == |s|;
      assert signed ==> s[i + 1..j] == [s[i + 1]];
      assert s[i..] == [s[i]] + s[i + 1..j] + s[j..];
    }
  }

  lemma ScanWholeSound(s: string, start: nat)
    requires start <= |s| && ScanWhole(s, start).Some?
    ensures var whole := s[start..ScanWhole(s, start).value];
            whole != "" && AllDigits(whole) && (whole[0] == '0' ==> |whole| == 1)
  {
  }

  lemma ScanFractionSound(s: string, i: nat)
    requires i <= |s| && ScanFraction(s, i).Some?
    ensures var (frac, e) := ScanFraction(s, i).value;
            FractionText(frac) == s[i..e] && AllDigits(frac)
  {
  }

  lemma Cut(s: string, a: nat, b: nat, c: nat)
    requires a <= b <= c <= |s|
    ensures s == s[..a] + s[a..b] + s[b..c] + s[c..]
  {
  }

  lemma ScanSound(s: string)
    requires Scan(s).Some?
    ensures WellFormed(Scan(s).value) && Text(Scan(s).value) == s
  {
    var start := if s != "" && s[0] == '-' then 1 else 0;
    var intEnd := ScanWhole(s, start).value;
    var (frac, fracEnd) := ScanFraction(s, intEnd).value;
    var l := Literal(start == 1, s[start..intEnd], frac, ScanExponent(s, fracEnd).value);
    ScanWholeSound(s, start);
    ScanFractionSound(s, intEnd);
    ScanExponentSound(s, fracEnd);
    assert Scan(s) == Some(l);
    assert Text(l) == s by {
      assert (if start == 1 then "-" else "") == s[..start];
      Cut(s, start, intEnd, fracEnd);
    }
  }

  lemma ScanExponentComplete(s: string, i: nat, e: Exponent)
    requires i <= |s| && s[i..] == ExponentText(e)
    requires ExponentOk(e)
    ensures ScanExponent(s, i) == Some(e)
  {
    if e.Exponent? {
      var t := s[i..];
      var j := i + 1 + |e.sign|;
      assert t[0] == e.mark && s[i] == t[0];
      assert s[j..] == t[1 + |e.sign|..] == e.digits;
      assert s[i + 1..j] == t[1..1 + |e.sign|] == e.sign;
      if e.sign == "" {
        assert s[i + 1] == s[j..][0] == e.digits[0];
      } else {
        assert s[i + 1] == s[i + 1..j][0] == e.sign[0];
      }
      forall k | j <= k < |s| ensures IsDigit(s[k]) {
        assert s[k] == e.digits[k - j];
      }
      DigitsEndIs(s, j, |s|);
    } else {
      assert |s[i..]| == 0;
    }
  }

  lemma ScanFractionComplete(s: string, i: nat, frac: string)
    requires AllDigits(frac) && i + |FractionText(frac)| <= |s|
    requires s[i..i + |FractionText(frac)|] == FractionText(frac)
    requires i + |FractionText(frac)| < |s| ==> !IsDigit(s[i + |FractionText(frac)|])
    requires frac == "" && i < |s| ==> s[i] != '.'
    ensures ScanFraction(s, i) == Some((frac, i + |FractionText(frac)|))
  {
    if frac != "" {
      var e := i + |FractionText(frac)|;
      assert s[i] == s[i..e][0];
      forall j | i + 1 <= j < e ensures IsDigit(s[j]) {
        assert s[j] == s[i..e][j - i] == frac[j - i - 1];
      }
      DigitsEndIs(s, i + 1, e);
      assert s[i + 1..e] == s[i..e][1..] == frac;
    }
  }

  lemma ScanWholeComplete(s: string, i: nat, e: nat)
    requires i < e <= |s| && AllDigits(s[i..e]) && (s[i] == '0' ==> e == i + 1)
    requires e < |s| ==> !IsDigit(s[e])
    ensures ScanWhole(s, i) == Some(e)
  {
    forall j | i <= j < e ensures IsDigit(s[j]) {
      assert s[j] == s[i..e][j - i];
    }
    DigitsEndIs(s, i, e);
  }

  /** Where the parts of a text written as a sign, digits, a fraction and a rest begin. */
  lemma Parts(sign: string, whole: string, f: string, x: string, s: string, a: nat, b: nat, c: nat)
    requires s == sign + whole + f + x
    requires a == |sign| && b == a + |whole| && c == b + |f|
    ensures |s| == c + |x|
    ensures s[..a] == sign && s[a..b] == whole && s[b..c] == f && s[c..] == x
  {
  }

  lemma ScanFrom(s: string, l: Literal, a: nat, b: nat, c: nat)
    requires a <= b <= c <= |s| && a == (if s != "" && s[0] == '-' then 1 else 0) && l.minus == (a == 1)
    requires ScanWhole(s, a) == Some(b) && s[a..b] == l.whole
    requires ScanFraction(s, b) == Some((l.frac, c)) && ScanExponent(s, c) == Some(l.exp)
    ensures Scan(s) == Some(l)
  {
  }

  lemma FractionAfterWhole(s: string, l: Literal, b: nat, c: nat)
    requires WellFormed(l) && b <= c <= |s|
    requires s[b..c] == FractionText(l.frac) && s[c..] == ExponentText(l.exp)
    ensures ScanFraction(s, b) == Some((l.frac, c))
    ensures b < |s| ==> !IsDigit(s[b])
  {
    assert b < c ==> s[b] == s[b..c][0];
    assert c < |s| ==> s[c] == s[c..][0];
    ScanFractionComplete(s, b, l.frac);
  }

  lemma ScanAssembled(s: string, l: Literal, a: nat, b: nat, c: nat)
    requires WellFormed(l) && a <= b <= c <= |s|
    requires s[..a] == (if l.minus then "-" else "") && s[a..b] == l.whole
    requires s[b..c] == FractionText(l.frac) && s[c..] == ExponentText(l.exp)
    ensures Scan(s) == Some(l)
  {
    assert s[a] == s[a..b][0];
    assert a == 1 ==> s[0] == s[..a][0];
    FractionAfterWhole(s, l, b, c);
    ScanWholeComplete(s, a, b);
    ScanExponentComplete(s, c, l.exp);
    ScanFrom(s, l, a, b, c);
  }

  /** The scanner accepts every text of the grammar, and reads it in the only way possible. */
  lemma ScanComplete(l: Literal)
    requires WellFormed(l)
    ensures Scan(Text(l)) == Some(l)
  {
    var sign := if l.minus then "-" else "";
    var f := FractionText(l.frac);
    var a := |sign|;
    var b := a + |l.whole|;
    var c := b + |f|;
    Parts(sign, l.whole, f, ExponentText(l.exp), Text(l), a, b, c);
    ScanAssembled(Text(l), l, a, b, c);
  }

  // ---------------------------------------------------------------- bounded integers

  /** Go's integer division, which truncates toward zero. */
  function TruncatedDiv10(a: int): int {
    if a >= 0 then a / 10 else -(-a / 10)
  }

  /** One turn of the accumulator loop; None is the overflow exit. */
  function Accumulate(value: nat, c: char, max: int): Option<nat>
    requires IsDigit(c)
  {
    if value > TruncatedDiv10(max - DigitValue(c)) then None else Some(10 * value + DigitValue(c))
  }

  /** What the loop has computed after reading s. */
  function Bounded(s: string, max: int): Option<nat>
    requires AllDigits(s)
  {
    if s == "" then Some(0)
    else match Bounded(s[..|s| - 1], max)
      case None => None
      case Some(v) => Accumulate(v, s[|s| - 1], max)
  }

  method ParseBoundedInt(raw: string, max: int) returns (r: Result<nat, IdError>)
    ensures r == Err(Invalid) ==> raw == "" || !AllDigits(raw)
    ensures r.Ok? ==> raw != "" && AllDigits(raw) && Bounded(raw, max) == Some(r.value)
    ensures raw != "" && AllDigits(raw) ==> (r.Ok? <==> Bounded(raw, max).Some?)
  {
    if raw == "" { return Err(Invalid); }
    var value := 0;
    var i := 0;
    while i < |raw|
      invariant 0 <= i <= |raw|
      invariant AllDigits(raw[..i]) && Bounded(raw[..i], max) == Some(value)
    {
      if !IsDigit(raw[i]) { return Err(Invalid); }
      assert raw[..i + 1][..i] == raw[..i];
      var digit := DigitValue(raw[i]);
      if value > TruncatedDiv10(max - digit) {
        if AllDigits(raw) { OverflowSticks(raw, i + 1, max); }
        return Err(TooLarge);
      }
      value := value * 10 + digit;
      i := i + 1;
    }
    assert raw[..i] == raw;
    return Ok(value);
  }

  lemma {:induction false} OverflowSticks(s: string, i: nat, max: int)
    requires i <= |s| && AllDigits(s) && AllDigits(s[..i]) && Bounded(s[..i], max).None?
    ensures Bounded(s, max).None?
    decreases |s|
  {
    if i == |s| {
      assert s[..i] == s;
    } else {
      assert s[..|s| - 1][..i] == s[..i];
      OverflowSticks(s[..|s| - 1], i, max);
    }
  }

  /** With a bound of at least nine the loop accepts exactly the numbers within the bound. */
  lemma {:induction false} BoundedExact(s: string, max: int)
    requires AllDigits(s) && max >= 9
    ensures Bounded(s, max) == if Nat(s) <= max then Some(Nat(s)) else None
    decreases |s|
  {
    if s != "" {
      BoundedExact(s[..|s| - 1], max);
    }
  }

  /** ... and nine is the smallest bound that is exact: the division of a negative number
      truncates to zero, so a smaller bound lets a too-large first digit through (a bound
      below -9 rejects everything, which is again exact). */
  lemma BoundedExactIff(max: int)
    ensures (forall s | s != "" && AllDigits(s) :: Bounded(s, max).Some? <==> Nat(s) <= max)
            <==> max >= 9 || max <= -10
  {
    if max >= 9 {
      forall s | s != "" && AllDigits(s) ensures Bounded(s, max).Some? <==> Nat(s) <= max {
        BoundedExact(s, max);
      }
    } else if max <= -10 {
      forall s | s != "" && AllDigits(s) ensures Bounded(s, max).None? {
        RejectsAll(s, max);
      }
    } else {
      assert "9"[..0] == "" && Nat("9") == 9;
      assert "0"[..0] == "" && Nat("0") == 0;
      assert Bounded("9", max) == Accumulate(0, '9', max);
      assert Bounded("0", max) == Accumulate(0, '0', max);
      if max >= 0 {
        assert AllDigits("9") && Bounded("9", max).Some? && Nat("9") > max;
      } else {
        assert AllDigits("0") && Bounded("0", max).Some? && Nat("0") > max;
      }
    }
  }

  lemma {:induction false} RejectsAll(s: string, max: int)
    requires s != "" && AllDigits(s) && max <= -10
    ensures Bounded(s, max).None?
    decreases |s|
  {
    if |s| > 1 {
      RejectsAll(s[..|s| - 1], max);
    }
  }

  // ---------------------------------------------------------------- normal form

  /** What the parser hands to the printer: a sign, digits without leading zeros (none at
      all for zero) and a power of ten. */
  datatype Numeric = Numeric(negative: bool, digits: string, exp10: int)

  function TrimLeft(s: string): (t: string)
    ensures |t| <= |s| && (t != "" ==> t[0] != '0')
    ensures AllDigits(s) ==> AllDigits(t)
  {
    if s != "" && s[0] == '0' then TrimLeft(s[1..]) else s
  }

  function TrimRight(s: string): (t: string)
    ensures t <= s && (t != "" ==> t[|t| - 1] != '0')
  {
    if s != "" && s[|s| - 1] == '0' then TrimRight(s[..|s| - 1]) else s
  }

  /** The literals the parser accepts: bounded exponent, bounded number of digits. */
  predicate InBounds(l: Literal)
    requires WellFormed(l)
  {
    && (l.exp.Exponent? ==> Nat(l.exp.digits) <= MAX_ABS_EXP10)
    && |TrimLeft(l.whole + l.frac)| <= MAX_KEY_LEN
  }

  function Digest(l: Literal): Numeric
    requires WellFormed(l)
  {
    var digits := TrimLeft(l.whole + l.frac);
    if digits == "" then Numeric(false, "", 0)
    else Numeric(l.minus, digits, ExponentValue(l.exp) - |l.frac|)
  }

  /** Trailing zeros move from the digits to the power of ten. */
  function Normalize(n: Numeric): Numeric {
    var digits := TrimRight(n.digits);
    n.(digits := digits, exp10 := n.exp10 + (|n.digits| - |digits|))
  }

  /** The canonical text of a normalised number, unless it is too long. */
  function Print(n: Numeric): Option<string> {
    var sign := if n.negative then "-" else "";
    var d := n.digits;
    if d == "" then Some("0")
    else if n.exp10 >= 0 then
      if n.exp10 > MAX_KEY_LEN - |d| then None else Some(sign + (d + Zeros(n.exp10)))
    else
      var scale := 0 - n.exp10;
      if scale > MAX_KEY_LEN then None
      else if |d| > scale then
        if |d| + 1 > MAX_KEY_LEN then None
        else Some(sign + (d[..|d| - scale] + "." + d[|d| - scale..]))
      else if scale - |d| > MAX_KEY_LEN - |d| - 2 then None
      else Some(sign + ("0." + Zeros(scale - |d|) + d))
  }

  /** parseJSONRPCNumericID: what an accepted text is parsed to. */
  function Accepted(raw: string): Option<Numeric> {
    match Scan(raw)
    case None => None
    case Some(l) =>
      ScanSound(raw);
      if InBounds(l) then Some(Digest(l)) else None
  }

  /** canonicalJSONRPCNumericIDKey: the key of a number text, if it is accepted. */
  function Canonical(raw: string): Option<string> {
    match Accepted(raw)
    case None => None
    case Some(n) => Print(Normalize(n))
  }

  // ---------------------------------------------------------------- the loops

  method SkipDigits(raw: string, start: nat) returns (i: nat)
    requires start <= |raw|
    ensures i == DigitsEnd(raw, start)
  {
    i := start;
    while i < |raw| && IsDigit(raw[i])
      invariant start <= i <= |raw|
      invariant forall j | start <= j < i :: IsDigit(raw[j])
    {
      i := i + 1;
    }
    DigitsEndIs(raw, start, i);
  }

  /** Where the digits of the exponent marked at i begin. */
  function ExponentDigits(s: string, i: nat): nat {
    if i + 1 < |s| && (s[i + 1] == '+' || s[i + 1] == '-') then i + 2 else i + 1
  }

  lemma ExponentRead(s: string, i: nat, e: nat)
    requires i < |s| && (s[i] == 'e' || s[i] == 'E')
    requires var j := ExponentDigits(s, i); j < e <= |s| && DigitsEnd(s, j) == e
    ensures var j := ExponentDigits(s, i);
            && AllDigits(s[j..e])
            && ScanExponent(s, i) == if e == |s| then Some(Exponent(s[i], s[i + 1..j], s[j..e])) else None
    ensures e == |s| ==> ExponentOk(ScanExponent(s, i).value)
  {
    var j := ExponentDigits(s, i);
    assert j == i + 2 ==> s[i + 1..j] == [s[i + 1]];
    assert e == |s| ==> s[j..e] == s[j..];
  }

  /** The exponent part, from its mark on; r is its value and i is where it ends. */
  method ParseExponent(raw: string, mark: nat) returns (r: Result<int, IdError>, i: nat)
    requires mark < |raw| && (raw[mark] == 'e' || raw[mark] == 'E')
    ensures i <= |raw|
    ensures r == Err(Invalid) ==> ScanExponent(raw, mark).None?
    ensures ScanExponent(raw, mark).Some? ==>
              var e := ScanExponent(raw, mark).value;
              && ExponentOk(e)
              && (r.Ok? <==> Nat(e.digits) <= MAX_ABS_EXP10)
              && (r.Ok? ==> i == |raw| && r.value == ExponentValue(e))
    ensures ScanExponent(raw, mark).None? && r.Ok? ==> i < |raw|
  {
    i := mark + 1;
    if i >= |raw| { return Err(Invalid), i; }
    var negative := false;
    if raw[i] == '+' || raw[i] == '-' {
      negative := raw[i] == '-';
      i := i + 1;
      if i >= |raw| { return Err(Invalid), i; }
    }
    var start := i;
    assert start == ExponentDigits(raw, mark);
    i := SkipDigits(raw, i);
    if i == start { return Err(Invalid), i; }
    ExponentRead(raw, mark, i);
    assert raw[mark + 1..start] == "-" <==> negative;
    var magnitude := ParseBoundedInt(raw[start..i], MAX_ABS_EXP10);
    BoundedExact(raw[start..i], MAX_ABS_EXP10);
    if magnitude.Err? { return Err(magnitude.error), i; }
    var exponentSign: int := if negative then -1 else 1;
    return Ok(exponentSign * magnitude.value), i;
  }

  /** What the parser has established once it stands behind the fraction. */
  lemma Assembled(raw: string, negative: bool, intStart: nat, intEnd: nat, frac: string, fracEnd: nat)
    requires raw != "" && negative == (raw[0] == '-') && intStart == (if negative then 1 else 0)
    requires intStart <= intEnd <= |raw| && fracEnd <= |raw|
    requires ScanWhole(raw, intStart) == Some(intEnd)
    requires ScanFraction(raw, intEnd) == Some((frac, fracEnd))
    ensures var e := ScanExponent(raw, fracEnd);
            if e.None? then Scan(raw).None? && Accepted(raw).None?
            else
              var l := Literal(negative, raw[intStart..intEnd], frac, e.value);
              && Scan(raw) == Some(l)
              && WellFormed(l)
              && Accepted(raw) == if InBounds(l) then Some(Digest(l)) else None
  {
    if Scan(raw).Some? { ScanSound(raw); }
  }

  /** The integer part that starts at start; None when it is missing or has a leading zero. */
  method ParseWhole(raw: string, start: nat) returns (end: Option<nat>)
    requires start < |raw|
    ensures end == ScanWhole(raw, start)
  {
    if raw[start] == '0' {
      if start + 1 < |raw| && IsDigit(raw[start + 1]) { return None; }
      DigitsEndIs(raw, start, start + 1);
      return Some(start + 1);
    }
    if '1' <= raw[start] <= '9' {
      var i := SkipDigits(raw, start);
      return Some(i);
    }
    return None;
  }

  method ParseFraction(raw: string, start: nat) returns (r: Option<(string, nat)>)
    requires start <= |raw|
    ensures r == ScanFraction(raw, start)
  {
    if start < |raw| && raw[start] == '.' {
      var i := SkipDigits(raw, start + 1);
      if i == start + 1 { return None; }
      return Some((raw[start + 1..i], i));
    }
    return Some(("", start));
  }

  /** What is accepted of a text of the grammar whose exponent is within its bound. */
  lemma Digested(raw: string, negative: bool, intStart: nat, intEnd: nat, frac: string, fracEnd: nat, exponent: int)
    requires raw != "" && negative == (raw[0] == '-') && intStart == (if negative then 1 else 0)
    requires intStart <= intEnd <= |raw| && fracEnd <= |raw|
    requires ScanWhole(raw, intStart) == Some(intEnd)
    requires ScanFraction(raw, intEnd) == Some((frac, fracEnd))
    requires ScanExponent(raw, fracEnd).Some?
    requires var e := ScanExponent(raw, fracEnd).value;
             ExponentOk(e) && (e.Exponent? ==> Nat(e.digits) <= MAX_ABS_EXP10) && exponent == ExponentValue(e)
    ensures var digits := TrimLeft(raw[intStart..intEnd] + frac);
            && Scan(raw).Some?
            && Accepted(raw) == (if |digits| > MAX_KEY_LEN then None
                                 else if digits == "" then Some(Numeric(false, "", 0))
                                 else Some(Numeric(negative, digits, exponent - |frac|)))
  {
    Assembled(raw, negative, intStart, intEnd, frac, fracEnd);
  }

  method ParseNumericId(raw: string) returns (r: Result<Numeric, IdError>)
    requires raw != ""
    ensures r == Err(Invalid) ==> Scan(raw).None?
    ensures r.Ok? ==> Accepted(raw) == Some(r.value)
    ensures r.Err? ==> Accepted(raw).None?
  {
    var negative := raw[0] == '-';
    var intStart := if negative then 1 else 0;
    if intStart >= |raw| { return Err(Invalid); }
    var intEnd := ParseWhole(raw, intStart);
    if intEnd.None? { return Err(Invalid); }
    var intDigits := raw[intStart..intEnd.value];
    var fraction := ParseFraction(raw, intEnd.value);
    if fraction.None? { return Err(Invalid); }
    var (fracDigits, i) := fraction.value;
    ghost var fracEnd := i;

    var exponent := 0;
    if i < |raw| && (raw[i] == 'e' || raw[i] == 'E') {
      var x;
      x, i := ParseExponent(raw, i);
      if x.Err? {
        Assembled(raw, negative, intStart, intEnd.value, fracDigits, fracEnd);
        return Err(x.error);
      }
      exponent := x.value;
    }
    if i != |raw| {
      Assembled(raw, negative, intStart, intEnd.value, fracDigits, fracEnd);
      return Err(Invalid);
    }
    Digested(raw, negative, intStart, intEnd.value, fracDigits, fracEnd, exponent);

    var digits := TrimLeft(intDigits + fracDigits);
    if digits == "" { return Ok(Numeric(false, "", 0)); }
    if |digits| > MAX_KEY_LEN { return Err(TooLarge); }
    return Ok(Numeric(negative, digits, exponent - |fracDigits|));
  }
}
