/** Decimal integer tokens as Go's `strconv.Atoi` reads them: an optional `+`
    or `-` followed by one or more decimal digits, nothing else (no spaces, no
    underscores, no empty token). Integers are unbounded here, so the 64-bit
    range check of `Atoi` is not part of the model. `FormatInt` writes an
    integer in the shortest such form and is the partner of `ParseInt`. */
module Atoi {
  import opened Outcomes

  predicate IsDigit(c: char)
  {
    '0' <= c <= '9'
  }

  predicate IsSign(c: char)
  {
    c == '+' || c == '-'
  }

  /** One or more decimal digits. */
  predicate IsDigits(s: string)
  {
    0 < |s| && forall i :: 0 <= i < |s| ==> IsDigit(s[i])
  }

  /** The tokens `strconv.Atoi` accepts. */
  predicate IsIntLiteral(s: string)
  {
    IsDigits(s) || (0 < |s| && IsSign(s[0]) && IsDigits(s[1..]))
  }

  /** The value of a run of decimal digits, most significant first. */
  function DigitsValue(s: string): nat
    requires forall i :: 0 <= i < |s| ==> IsDigit(s[i])
  {
    if |s| == 0 then 0
    else
      assert IsDigit(s[|s| - 1]);
      10 * DigitsValue(s[..|s| - 1]) + (s[|s| - 1] as int - '0' as int)
  }

  /** `strconv.Atoi`: the value of the token, or `None` for anything that is
      not an optional sign followed by digits. */
  function ParseInt(s: string): (r: Option<int>)
    ensures r.Some? <==> IsIntLiteral(s)
    ensures r.Some? && IsDigits(s) ==> r.value == DigitsValue(s)
    ensures 0 < |s| && IsSign(s[0]) && IsDigits(s[1..]) ==>
              r == Some(if s[0] == '-' then 0 - DigitsValue(s[1..]) as int else DigitsValue(s[1..]))
  {
    if 0 < |s| && IsSign(s[0]) then
      if IsDigits(s[1..]) then
        var magnitude: int := DigitsValue(s[1..]);
        Some(if s[0] == '-' then -magnitude else magnitude)
      else None
    else if IsDigits(s) then Some(DigitsValue(s))
    else None
  }

  function DigitChar(d: nat): (c: char)
    requires d < 10
    ensures IsDigit(c) && c as int - '0' as int == d
  {
    ('0' as int + d) as char
  }

  /** The decimal digits of `n`, without leading zeros. */
  function FormatNat(n: nat): (r: string)
    ensures IsDigits(r) && DigitsValue(r) == n
    decreases n
  {
    if n < 10 then [DigitChar(n)]
    else
      var r := FormatNat(n / 10) + [DigitChar(n % 10)];
      assert r[..|r| - 1] == FormatNat(n / 10);
      r
  }

  /** `n` in decimal, with a `-` in front when it is negative. */
  function FormatInt(n: int): (r: string)
    ensures 0 < |r|
    ensures forall i :: 0 <= i < |r| ==> r[i] == '-' || IsDigit(r[i])
  {
    if n < 0 then "-" + FormatNat(-n) else FormatNat(n)
  }

  /** `ParseInt` reads back what `FormatInt` writes. */
  lemma ParseFormatInt(n: int)
    ensures ParseInt(FormatInt(n)) == Some(n)
  {
    if n < 0 {
      assert FormatInt(n)[1..] == FormatNat(-n);
    }
  }
}
