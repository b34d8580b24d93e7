/**
 * The value helpers of the report export: the sheet-name sanitiser and the cell
 * formatter.
 */
module ExportValues {
  import opened Js
  import opened JsStrings

  /** The characters `/[\\/?*:|\[\]]/g` removes. */
  predicate IsForbidden(c: char) {
    c == '\\' || c == '/' || c == '?' || c == '*' || c == ':' || c == '|' || c == '[' || c == ']'
  }

  predicate NoForbidden(s: string) {
    forall i :: 0 <= i < |s| ==> !IsForbidden(s[i])
  }

  /** `s.replace(/[\\/?*:|\[\]]/g, '')`. */
  function RemoveForbidden(s: string): (r: string)
    ensures |r| <= |s| && NoForbidden(r)
  {
    if s == [] then []
    else (if IsForbidden(s[0]) then [] else [s[0]]) + RemoveForbidden(s[1..])
  }

  /** A name with no forbidden character is left unchanged by their removal. */
  lemma {:induction false} RemoveForbiddenKeepsClean(s: string)
    requires NoForbidden(s)
    ensures RemoveForbidden(s) == s
  {
    if s != [] {
      RemoveForbiddenKeepsClean(s[1..]);
    }
  }

  /**
   * Removal works character by character: on a concatenation it is the removal
   * from each part, so every allowed character is kept and in order.
   */
  lemma {:induction false} RemoveForbiddenConcat(a: string, b: string)
    ensures RemoveForbidden(a + b) == RemoveForbidden(a) + RemoveForbidden(b)
  {
    if a != [] {
      assert (a + b)[0] == a[0];
      assert (a + b)[1..] == a[1..] + b;
      RemoveForbiddenConcat(a[1..], b);
    } else {
      assert a + b == b;
    }
  }

  /** A name a workbook accepts for a sheet: 1 to 31 characters, none of them forbidden. */
  predicate ValidSheetName(name: string) {
    0 < |name| <= 31 && NoForbidden(name)
  }

  /** `s.substring(0, 31)`. */
  function Prefix31(s: string): (r: string)
    ensures r == s[..if |s| < 31 then |s| else 31]
  {
    s[..if |s| < 31 then |s| else 31]
  }

  lemma SliceNoForbidden(s: string, i: nat, j: nat)
    requires i <= j <= |s| && NoForbidden(s)
    ensures NoForbidden(s[i..j])
  {
    forall k | 0 <= k < j - i
      ensures !IsForbidden(s[i..j][k])
    {
      assert s[i..j][k] == s[i + k];
    }
  }

  lemma TrimNoForbidden(s: string)
    requires NoForbidden(s)
    ensures NoForbidden(Trim(s))
  {
    TrimIsMiddle(s);
    var i := |s| - |TrimStart(s)|;
    SliceNoForbidden(s, i, i + |Trim(s)|);
  }

  /**
   * sanitizeSheetName: drop the forbidden characters, trim, keep the first 31
   * characters, and fall back to 'Sheet' when nothing is left.
   */
  function SanitizeSheetName(name: string): (r: string)
    ensures ValidSheetName(r)
  {
    var cleaned := Trim(RemoveForbidden(name));
    TrimNoForbidden(RemoveForbidden(name));
    var cut := Prefix31(cleaned);
    SliceNoForbidden(cleaned, 0, |cut|);
    if cut == "" then "Sheet" else cut
  }

  /** A name that is already valid and has no white space at either end is kept as it is. */
  lemma SanitizeKeepsValidNames(name: string)
    requires ValidSheetName(name) && !IsJsWhitespace(name[0]) && !IsJsWhitespace(name[|name| - 1])
    ensures SanitizeSheetName(name) == name
  {
    RemoveForbiddenKeepsClean(name);
    TrimNoop(name);
  }

  /**
   * Sanitising is not idempotent: a 32-character name whose 31st character is a
   * space is cut to end in that space, which a second pass trims away.
   */
  lemma SanitizeNotIdempotent(s: string)
    requires |s| == 30 && NoForbidden(s) && !IsJsWhitespace(s[0]) && !IsJsWhitespace(s[29])
    ensures SanitizeSheetName(s + " x") == s + " "
    ensures SanitizeSheetName(SanitizeSheetName(s + " x")) == s
  {
    var name := s + " x";
    assert NoForbidden(name) by {
      forall i | 0 <= i < |name|
        ensures !IsForbidden(name[i])
      {
        if i < 30 {
          assert name[i] == s[i];
        }
      }
    }
    RemoveForbiddenKeepsClean(name);
    TrimNoop(name);
    assert Prefix31(name) == s + " ";
    var cut := s + " ";
    assert NoForbidden(cut) by {
      forall i | 0 <= i < |cut|
        ensures !IsForbidden(cut[i])
      {
        if i < 30 {
          assert cut[i] == s[i];
        }
      }
    }
    RemoveForbiddenKeepsClean(cut);
    assert TrimStart(cut) == cut;
    assert cut[..|cut| - 1] == s;
    assert TrimEnd(s) == s;
    assert Trim(cut) == s;
  }

  /** `Number(x.toFixed(2))` in exact arithmetic: |x| rounded half up to hundredths, sign kept. */
  function Round2(x: real): (r: real)
    ensures -0.005 <= r - x <= 0.005
    ensures (r * 100.0).Floor as real == r * 100.0
  {
    var m := (if x < 0.0 then -x else x) * 100.0;
    var n := (m + 0.5).Floor;
    assert n as real <= m + 0.5 < n as real + 1.0;
    assert (n as real).Floor == n && (-n as real).Floor == -n;
    if x < 0.0 then -(n as real) / 100.0 else (n as real) / 100.0
  }

  /**
   * formatExportValue: null and undefined become '', integers and strings pass
   * unchanged, and any other number is rounded to hundredths.
   */
  function FormatExportValue(value: Cell): (r: Cell)
    ensures value.Nullish? ==> r == Text("")
    ensures value.Text? || value.PercentText? || value.SecondsText? ==> r == value
    ensures value.Number? && (IsInteger(value.n) || value.n.NaN?) ==> r == value
    ensures value.Number? && value.n.Finite? ==>
      r.Number? && r.n.Finite? && -0.005 <= r.n.r - value.n.r <= 0.005 && IsInteger(Finite(r.n.r * 100.0))
  {
    match value
    case Nullish => Text("")
    case Number(n) =>
      if n.NaN? then value
      else if IsInteger(n) then IntegerHundredths(n.r); value
      else Number(Finite(Round2(n.r)))
    case _ => value
  }

  /** An integer is also a whole number of hundredths. */
  lemma IntegerHundredths(x: real)
    requires x.Floor as real == x
    ensures (x * 100.0).Floor as real == x * 100.0
  {
    var k := x.Floor;
    var h := k * 100;
    assert x * 100.0 == h as real;
    assert (h as real).Floor == h;
  }

  /** A number already at hundredths is its own rounding. */
  lemma Round2OfHundredths(x: real)
    requires (x * 100.0).Floor as real == x * 100.0
    ensures Round2(x) == x
  {
    var k := (x * 100.0).Floor;
    if x < 0.0 {
      assert (-x * 100.0 + 0.5).Floor == -k;
    } else {
      assert (x * 100.0 + 0.5).Floor == k;
    }
  }

  /** Formatting a formatted value changes nothing. */
  lemma FormatIdempotent(value: Cell)
    ensures FormatExportValue(FormatExportValue(value)) == FormatExportValue(value)
  {
    if value.Number? && value.n.Finite? && !IsInteger(value.n) {
      Round2OfHundredths(Round2(value.n.r));
    }
  }
}
