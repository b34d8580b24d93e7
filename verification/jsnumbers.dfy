/** `parseInt` and `parseFloat` as the server applies them to the analytics provider's metric strings. */
module JsNumbers {
  import opened Js
  import opened Digits
  import opened JsStrings

  /** The longest run of decimal digits at the start of s. */
  function DigitPrefix(s: string): (p: string)
    ensures |p| <= |s| && p == s[..|p|] && AllDigits(p)
    ensures |p| < |s| ==> !IsDigit(s[|p|])
  {
    if s != [] && IsDigit(s[0]) then [s[0]] + DigitPrefix(s[1..]) else []
  }

  /** An optional leading sign: whether it is '-', and the text after it. */
  function SplitSign(s: string): (bool, string) {
    if s != [] && (s[0] == '-' || s[0] == '+') then (s[0] == '-', s[1..]) else (false, s)
  }

  function Signed(negative: bool, x: real): real {
    if negative then -x else x
  }

  /**
   * `parseInt(s)` with no radix: skip leading white space, read an optional sign
   * and the longest run of decimal digits; NaN when there is no digit.
   */
  function ParseInt(s: string): (n: Num)
  {
    var split := SplitSign(TrimStart(s));
    var digits := DigitPrefix(split.1);
    if digits == [] then NaN else Finite(Signed(split.0, DigitsValue(digits) as real))
  }

  /**
   * `parseFloat(s)`: skip leading white space, read an optional sign, digits, and
   * an optional '.' followed by digits; NaN when no digit is read.
   */
  function ParseFloat(s: string): (n: Num)
  {
    var split := SplitSign(TrimStart(s));
    ParseDecimal(split.0, split.1)
  }

  /** The unsigned part of `parseFloat`: digits, then an optional '.' and digits. */
  function ParseDecimal(negative: bool, rest: string): Num {
    var whole := DigitPrefix(rest);
    var fraction := FractionDigits(rest[|whole|..]);
    if whole == [] && fraction == [] then NaN
    else Finite(Signed(negative, DecimalValue(whole, fraction)))
  }

  /** The digits after a leading '.', if there is one. */
  function FractionDigits(s: string): (f: string)
    ensures AllDigits(f)
  {
    if s != [] && s[0] == '.' then DigitPrefix(s[1..]) else []
  }

  /** The value of `whole.fraction` written in decimal. */
  function DecimalValue(whole: string, fraction: string): real
    requires AllDigits(whole) && AllDigits(fraction)
  {
    DigitsValue(whole) as real + DigitsValue(fraction) as real / Pow10(|fraction|) as real
  }

  lemma {:induction false} DigitPrefixOfDigits(s: string)
    requires AllDigits(s)
    ensures DigitPrefix(s) == s
  {
    if s != [] {
      DigitPrefixOfDigits(s[1..]);
    }
  }

  /** The text of an optionally negative run of digits, as `String` prints integers. */
  function SignedDigits(negative: bool, digits: string): string {
    if negative then "-" + digits else digits
  }

  lemma SplitSignedDigits(negative: bool, digits: string)
    requires AllDigits(digits) && digits != []
    ensures TrimStart(SignedDigits(negative, digits)) == SignedDigits(negative, digits)
    ensures SplitSign(SignedDigits(negative, digits)) == (negative, digits)
  {
    var s := SignedDigits(negative, digits);
    assert IsDigit(digits[0]);
    assert !IsJsWhitespace(s[0]);
    if negative {
      assert s[1..] == digits;
    }
  }

  lemma ParseIntSignedDigits(negative: bool, digits: string)
    requires AllDigits(digits) && digits != []
    ensures ParseInt(SignedDigits(negative, digits)) == Finite(Signed(negative, DigitsValue(digits) as real))
  {
    SplitSignedDigits(negative, digits);
    DigitPrefixOfDigits(digits);
  }

  lemma ParseFloatSignedDigits(negative: bool, digits: string)
    requires AllDigits(digits) && digits != []
    ensures ParseFloat(SignedDigits(negative, digits)) == Finite(Signed(negative, DigitsValue(digits) as real))
  {
    SplitSignedDigits(negative, digits);
    ParseDecimalOfDigits(negative, digits);
  }

  lemma ParseDecimalOfDigits(negative: bool, digits: string)
    requires AllDigits(digits) && digits != []
    ensures ParseDecimal(negative, digits) == Finite(Signed(negative, DigitsValue(digits) as real))
  {
    DigitPrefixOfDigits(digits);
    assert digits[|digits|..] == [];
  }

  /** `parseInt(String(i)) === i` and `parseFloat(String(i)) === i`: integer counts are read back exactly. */
  lemma ParseOfIntToString(i: int)
    ensures ParseInt(IntToString(i)) == Finite(i as real)
    ensures ParseFloat(IntToString(i)) == Finite(i as real)
  {
    var n: nat := if i < 0 then -i else i;
    assert IntToString(i) == SignedDigits(i < 0, NatToString(n));
    ParseIntSignedDigits(i < 0, NatToString(n));
    ParseFloatSignedDigits(i < 0, NatToString(n));
    NatToStringValue(n);
  }

  /** A text with no decimal digit in it. */
  predicate NoDigit(s: string) {
    forall i :: 0 <= i < |s| ==> !IsDigit(s[i])
  }

  /** A metric string with no digit at all is read as NaN by both parsers. */
  lemma NoDigitsIsNaN(s: string)
    requires NoDigit(s)
    ensures ParseInt(s) == NaN && ParseFloat(s) == NaN
  {
    var split := SplitSign(TrimStart(s));
    NoDigitAfterSign(s);
    NoDigitRest(split.0, split.1);
  }

  /** Skipping white space and a sign leaves a text that still has no digit. */
  lemma NoDigitAfterSign(s: string)
    requires NoDigit(s)
    ensures NoDigit(SplitSign(TrimStart(s)).1)
  {
    var trimmed := TrimStart(s);
    NoDigitSuffix(s, |s| - |trimmed|);
    NoDigitSuffix(trimmed, |trimmed| - |SplitSign(trimmed).1|);
  }

  /** Neither digit run of the unsigned reader finds a digit in a text without one. */
  lemma NoDigitRest(negative: bool, rest: string)
    requires NoDigit(rest)
    ensures DigitPrefix(rest) == [] && ParseDecimal(negative, rest) == NaN
  {
    if rest != [] && rest[0] == '.' {
      NoDigitSuffix(rest, 1);
    }
  }

  lemma NoDigitSuffix(s: string, k: nat)
    requires NoDigit(s) && k <= |s|
    ensures NoDigit(s[k..])
  {
    forall i | 0 <= i < |s| - k
      ensures !IsDigit(s[k..][i])
    {
      assert s[k..][i] == s[k + i];
    }
  }

  /** The digit run at the start of `digits + rest` is `digits` when `rest` does not start with a digit. */
  lemma {:induction false} DigitPrefixStops(digits: string, rest: string)
    requires AllDigits(digits) && (rest == [] || !IsDigit(rest[0]))
    ensures DigitPrefix(digits + rest) == digits
  {
    if digits != [] {
      assert (digits + rest)[1..] == digits[1..] + rest;
      DigitPrefixStops(digits[1..], rest);
    }
  }

  /** A signed text whose first character is neither white space nor a sign splits into its sign and that text. */
  lemma SplitSignedText(negative: bool, t: string)
    requires t != [] && !IsJsWhitespace(t[0]) && t[0] != '-' && t[0] != '+'
    ensures TrimStart(SignedDigits(negative, t)) == SignedDigits(negative, t)
    ensures SplitSign(SignedDigits(negative, t)) == (negative, t)
  {
    if negative {
      assert SignedDigits(negative, t)[1..] == t;
    }
  }

  /** The unsigned reader takes `whole.fraction` apart into its two digit runs. */
  lemma ParseDecimalOfDecimal(negative: bool, whole: string, fraction: string)
    requires AllDigits(whole) && AllDigits(fraction) && whole + fraction != []
    ensures ParseDecimal(negative, whole + "." + fraction) == Finite(Signed(negative, DecimalValue(whole, fraction)))
  {
    var t := whole + "." + fraction;
    assert t == whole + ("." + fraction);
    DigitPrefixStops(whole, "." + fraction);
    assert t[|whole|..] == "." + fraction;
    assert ("." + fraction)[1..] == fraction;
    DigitPrefixOfDigits(fraction);
  }

  /**
   * `parseFloat` reads a decimal `whole.fraction` text, such as the provider's
   * "52.34" or "0.4523", as the value it writes; either part may be empty, not both.
   */
  lemma ParseFloatDecimal(negative: bool, whole: string, fraction: string)
    requires AllDigits(whole) && AllDigits(fraction) && whole + fraction != []
    ensures ParseFloat(SignedDigits(negative, whole + "." + fraction))
         == Finite(Signed(negative, DecimalValue(whole, fraction)))
  {
    var t := whole + "." + fraction;
    assert t[0] == (if whole == [] then '.' else whole[0]);
    SplitSignedText(negative, t);
    ParseDecimalOfDecimal(negative, whole, fraction);
  }
}
