/** The two methods of request_id.go that make the key of a number, against the value it denotes. */
module RequestIdKeys {
  import opened Decimals
  import opened Results
  import opened RequestIds
  import opened RequestIdLaws

  /** What the parser hands over: no leading zeros, and zero without sign and exponent. */
  predicate Parsed(n: Numeric) {
    AllDigits(n.digits) && if n.digits == "" then !n.negative && n.exp10 == 0 else n.digits[0] != '0'
  }

  lemma FormattedExactly(n: Numeric, m: Literal)
    requires Parsed(n)
    requires IsPlain(m) && SameValue(Value(m), Amount(n))
    ensures Print(Normalize(n)) == if |Unsigned(m)| <= 4096 then Some(Text(m)) else None
  {
    NormalizeIsNormal(n);
    NormalizeKeeps(n);
    SameValueTransitive(Value(m), Amount(n), Amount(Normalize(n)));
    PrintExactly(Normalize(n));
    PlainIsPrinted(m);
    NormalForm(m);
    SameValueSymmetric(Value(m), Amount(Normalize(Digest(m))));
    SameValueTransitive(Amount(Normalize(Digest(m))), Value(m), Amount(Normalize(n)));
    NormalFormUnique(Normalize(Digest(m)), Normalize(n));
  }

  lemma FormattedForAll(n: Numeric)
    requires Parsed(n)
    ensures forall m | IsPlain(m) && SameValue(Value(m), Amount(n)) ::
              Print(Normalize(n)) == if |Unsigned(m)| <= 4096 then Some(Text(m)) else None
  {
    forall m | IsPlain(m) && SameValue(Value(m), Amount(n))
      ensures Print(Normalize(n)) == if |Unsigned(m)| <= 4096 then Some(Text(m)) else None
    {
      FormattedExactly(n, m);
    }
  }

  lemma KeyForAll(raw: string)
    ensures forall m | WritesOut(m, raw) ::
              Canonical(raw) == if WithinBounds(Scan(raw).value) && |Unsigned(m)| <= 4096 then Some(Text(m)) else None
  {
    forall m | WritesOut(m, raw)
      ensures Canonical(raw) == if WithinBounds(Scan(raw).value) && |Unsigned(m)| <= 4096 then Some(Text(m)) else None
    {
      KeyExactly(raw, m);
    }
  }

  /** For a number without leading zeros, as the parser hands it over, the result is the number written
      out plainly, or TooLarge exactly if that has more than 4096 characters, not counting the sign. */
  method FormatCanonical(negative: bool, digits0: string, exp0: int) returns (r: Result<string, IdError>)
    ensures r == match Print(Normalize(Numeric(negative, digits0, exp0)))
                 case Some(key) => Ok(key)
                 case None => Err(TooLarge)
    ensures Parsed(Numeric(negative, digits0, exp0)) ==>
              forall m | IsPlain(m) && SameValue(Value(m), Amount(Numeric(negative, digits0, exp0))) ::
                r == if |Unsigned(m)| <= 4096 then Ok(Text(m)) else Err(TooLarge)
  {
    if Parsed(Numeric(negative, digits0, exp0)) { FormattedForAll(Numeric(negative, digits0, exp0)); }
    var digits, exp10 := digits0, exp0;
    while |digits| > 0 && digits[|digits| - 1] == '0'
      invariant TrimRight(digits) == TrimRight(digits0)
      invariant exp10 + |digits| == exp0 + |digits0|
    {
      digits := digits[..|digits| - 1];
      exp10 := exp10 + 1;
    }
    if digits == "" { return Ok("0"); }
    var sign := if negative then "-" else "";
    if exp10 >= 0 {
      if exp10 > MAX_KEY_LEN - |digits| { return Err(TooLarge); }
      var result := digits + Zeros(exp10);
      result := sign + result;
      if |result| > MAX_KEY_LEN + |sign| { return Err(TooLarge); }
      return Ok(result);
    }
    var scale := -exp10;
    if scale > MAX_KEY_LEN { return Err(TooLarge); }
    if |digits| > scale {
      var intPart := digits[..|digits| - scale];
      var fracPart := digits[|digits| - scale..];
      if |intPart| + 1 + |fracPart| > MAX_KEY_LEN { return Err(TooLarge); }
      return Ok(sign + (intPart + "." + fracPart));
    }
    var leadingZeros := scale - |digits|;
    if leadingZeros > MAX_KEY_LEN - |digits| - 2 { return Err(TooLarge); }
    return Ok(sign + ("0." + Zeros(leadingZeros) + digits));
  }

  method CanonicalNumericKey(raw: string) returns (r: Result<string, IdError>)
    ensures r.Ok? ==> Canonical(raw) == Some(r.value)
    ensures r.Err? ==> Canonical(raw).None?
    ensures r == Err(Invalid) ==> Scan(raw).None?
    ensures forall m | WritesOut(m, raw) ::
              r == if WithinBounds(Scan(raw).value) && |Unsigned(m)| <= 4096 then Ok(Text(m)) else Err(TooLarge)
  {
    KeyForAll(raw);
    if raw == "" { return Err(Invalid); }
    var n := ParseNumericId(raw);
    if n.Err? {
      assert Canonical(raw).None?;
      assert n.error == Invalid ==> forall m :: !WritesOut(m, raw);
      return Err(n.error);
    }
    r := FormatCanonical(n.value.negative, n.value.digits, n.value.exp10);
  }
}
