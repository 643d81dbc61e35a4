/**
 * The two string recognisers the settings handler relies on: JavaScript's
 * `Number(str)` restricted to the question "is this an integer, and which
 * one", and the multiplier pattern `^\d+(\.\d{1,2})?$`.
 */
module JsNumber {
  import opened Wrappers
  import opened Text

  predicate IsDigit(c: char) { '0' <= c <= '9' }

  predicate AllDigits(s: string) { forall i :: 0 <= i < |s| ==> IsDigit(s[i]) }

  predicate AllZeros(s: string) { forall i :: 0 <= i < |s| ==> s[i] == '0' }

  function DigitValue(c: char): nat
    requires IsDigit(c)
  {
    (c as int - '0' as int) as nat
  }

  function DigitChar(d: nat): (c: char)
    requires d < 10
    ensures IsDigit(c) && DigitValue(c) == d
  {
    ('0' as int + d) as char
  }

  /** The value of a string of decimal digits, most significant first. */
  function DigitsValue(s: string): nat
    requires AllDigits(s)
  {
    if s == [] then 0 else 10 * DigitsValue(s[..|s| - 1]) + DigitValue(s[|s| - 1])
  }

  /** The decimal rendering of a natural number, without leading zeros. */
  function NatToString(n: nat): (s: string)
    ensures |s| >= 1 && AllDigits(s) && DigitsValue(s) == n
  {
    if n < 10 then [DigitChar(n)]
    else
      var prefix := NatToString(n / 10);
      var s := prefix + [DigitChar(n % 10)];
      assert s[..|s| - 1] == prefix;
      s
  }

  /** An unsigned decimal literal whose fraction, if any, is all zeros. */
  function UnsignedInteger(t: string): Option<nat>
  {
    var k := FirstDot(t);
    var ip := t[..k];
    var fp := if k < |t| then t[k + 1..] else "";
    if AllDigits(ip) && AllDigits(fp) && (|ip| > 0 || |fp| > 0) && AllZeros(fp)
    then Some(DigitsValue(ip))
    else None
  }

  /**
   * `Number(s)` when it is an integer, read in exact arithmetic; `None` stands
   * for NaN and for every finite non-integer. The empty string converts to 0.
   * JavaScript rounds to the nearest double instead, which agrees with this
   * reading for every integer of magnitude at most 2^53 written without a
   * fraction.
   */
  function ParseNumber(s: string): Option<int>
  {
    if s == "" then Some(0)
    else if s[0] == '-' then
      match UnsignedInteger(s[1..])
      case Some(n) => Some(-(n as int))
      case None => None
    else if s[0] == '+' then
      match UnsignedInteger(s[1..])
      case Some(n) => Some(n)
      case None => None
    else
      match UnsignedInteger(s)
      case Some(n) => Some(n)
      case None => None
  }

  /** Digits never contain the dot, so the first dot of `ds + rest` is found after them. */
  lemma {:induction false} FirstDotAfterDigits(ds: string, rest: string)
    requires AllDigits(ds)
    ensures FirstDot(ds + rest) == |ds| + FirstDot(rest)
  {
    if ds != [] {
      assert IsDigit(ds[0]) && (ds + rest)[0] == ds[0];
      assert (ds + rest)[1..] == ds[1..] + rest;
      FirstDotAfterDigits(ds[1..], rest);
    } else {
      assert ds + rest == rest;
    }
  }

  /** `ParseNumber` reads back every decimal rendering, with or without a minus sign. */
  lemma ParseNumberRoundTrip(n: nat)
    ensures ParseNumber(NatToString(n)) == Some(n)
    ensures ParseNumber("-" + NatToString(n)) == Some(-(n as int))
  {
    var s := NatToString(n);
    FirstDotAfterDigits(s, "");
    assert s + "" == s;
    assert s[..|s|] == s;
    assert ("-" + s)[1..] == s;
  }

  /** `/^\d+(\.\d{1,2})?$/.test(s)` */
  predicate IsValidMultiplier(s: string)
  {
    var k := FirstDot(s);
    k >= 1 && AllDigits(s[..k])
    && (k == |s| || (1 <= |s| - k - 1 <= 2 && AllDigits(s[k + 1..])))
  }

  /** The value of an accepted multiplier in hundredths; never negative. */
  function MultiplierHundredths(s: string): (r: int)
    requires IsValidMultiplier(s)
    ensures r >= 0
  {
    var k := FirstDot(s);
    var whole := DigitsValue(s[..k]);
    if k == |s| then 100 * whole
    else
      var fp := s[k + 1..];
      if |fp| == 1 then 100 * whole + 10 * DigitValue(fp[0])
      else 100 * whole + DigitsValue(fp)
  }

  /** Every non-empty digit string is accepted and read as a whole number. */
  lemma MultiplierAcceptsWhole(ip: string)
    requires |ip| >= 1 && AllDigits(ip)
    ensures IsValidMultiplier(ip)
    ensures MultiplierHundredths(ip) == 100 * DigitsValue(ip)
  {
    FirstDotAfterDigits(ip, "");
    assert ip + "" == ip;
    assert ip[..|ip|] == ip;
  }

  /** A digit string followed by a dot and one or two digits is accepted. */
  lemma MultiplierAcceptsFraction(ip: string, fp: string)
    requires |ip| >= 1 && AllDigits(ip)
    requires 1 <= |fp| <= 2 && AllDigits(fp)
    ensures IsValidMultiplier(ip + "." + fp)
    ensures |fp| == 2 ==> MultiplierHundredths(ip + "." + fp) == 100 * DigitsValue(ip) + DigitsValue(fp)
  {
    var s := ip + "." + fp;
    FirstDotAfterDigits(ip, "." + fp);
    assert s == ip + ("." + fp);
    assert FirstDot("." + fp) == 0;
    assert s[..|ip|] == ip;
    assert s[|ip| + 1..] == fp;
  }

  /**
   * Accepted multipliers are exactly the strings of the two shapes above: a
   * non-empty digit string, optionally followed by a dot and one or two digits.
   */
  lemma MultiplierShape(s: string)
    requires IsValidMultiplier(s)
    ensures IsDigit(s[0])
    ensures exists ip: string, fp: string ::
              |ip| >= 1 && AllDigits(ip) && (s == ip || (1 <= |fp| <= 2 && AllDigits(fp) && s == ip + "." + fp))
  {
    var k := FirstDot(s);
    assert s[0] == s[..k][0];
    if k == |s| {
      assert s == s[..k];
      assert |s[..k]| >= 1 && AllDigits(s[..k]) && s == s[..k];
    } else {
      var ip, fp := s[..k], s[k + 1..];
      assert s == ip + "." + fp;
      assert |ip| >= 1 && AllDigits(ip) && 1 <= |fp| <= 2 && AllDigits(fp) && s == ip + "." + fp;
    }
  }

  /** A value in hundredths written as `<whole>.<two digits>`. */
  function RenderHundredths(h: nat): string
  {
    NatToString(h / 100) + "." + [DigitChar((h % 100) / 10), DigitChar(h % 10)]
  }

  /** Two digit characters read as a two-digit number. */
  lemma TwoDigits(hi: nat, lo: nat)
    requires hi < 10 && lo < 10
    ensures AllDigits([DigitChar(hi), DigitChar(lo)])
    ensures DigitsValue([DigitChar(hi), DigitChar(lo)]) == 10 * hi + lo
  {
    var fp := [DigitChar(hi), DigitChar(lo)];
    assert fp[..1] == [DigitChar(hi)];
    assert [DigitChar(hi)][..0] == [];
    assert DigitsValue([DigitChar(hi)]) == hi;
  }

  /** A natural number split into its hundreds, tens and units. */
  lemma HundredthsSplit(h: nat)
    ensures h == 100 * (h / 100) + 10 * ((h % 100) / 10) + h % 10
  {
    var q, r := h / 100, h % 100;
    assert h == 100 * q + r;
    assert r == 10 * (r / 10) + r % 10;
    assert r % 10 == h % 10;
  }

  /** Rendering a value in hundredths gives an accepted multiplier that reads back as that value. */
  lemma MultiplierRoundTrip(h: nat)
    ensures IsValidMultiplier(RenderHundredths(h))
    ensures MultiplierHundredths(RenderHundredths(h)) == h
  {
    var hi, lo := (h % 100) / 10, h % 10;
    TwoDigits(hi, lo);
    MultiplierAcceptsFraction(NatToString(h / 100), [DigitChar(hi), DigitChar(lo)]);
    HundredthsSplit(h);
  }
}
