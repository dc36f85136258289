/**
 * Text and unit helpers: truncation with an ellipsis, layer-name clean-up,
 * mm/mil/oz conversions and the choice of unit for a thickness. Turning a
 * number into decimal text is left abstract: it is the `render` parameter.
 */
module Formatting {
  import opened Numeric

  /** Decimal rendering of a number with a given count of fraction digits. */
  type Render = (real, nat) -> string

  const Ellipsis: char := '\U{2026}'
  const MicroMetreSuffix: string := "\U{00B5}m"

  /** Python's prefix slice `s[:k]`, where a negative `k` counts from the end. */
  function PrefixSlice(s: string, k: int): (r: string)
    ensures |r| <= |s| && r == s[..|r|]
    ensures 0 <= k <= |s| ==> |r| == k
    ensures k > |s| ==> r == s
    ensures k < 0 ==> |r| == if |s| + k < 0 then 0 else |s| + k
  {
    if k >= 0 then (if k <= |s| then s[..k] else s)
    else if |s| + k < 0 then [] else s[..|s| + k]
  }

  /** Cut the text to `maxLength` characters, the last of them an ellipsis, when it is longer. */
  function TruncateText(text: string, maxLength: int): (r: string)
    ensures |text| <= maxLength ==> r == text
    ensures |text| > maxLength ==> 0 < |r| <= |text| + 1 && r[|r| - 1] == Ellipsis && r[..|r| - 1] == text[..|r| - 1]
    ensures |text| > maxLength >= 1 ==> |r| == maxLength
  {
    if |text| <= maxLength then text
    else PrefixSlice(text, maxLength - 1) + [Ellipsis]
  }

  /** With a zero limit the slice `text[:-1]` keeps all but one character, so nothing gets shorter. */
  lemma TruncateAtZeroKeepsLength(text: string)
    requires |text| >= 1
    ensures |TruncateText(text, 0)| == |text|
  {
  }

  /** Python's `str.upper` and `str.lower` on one character, for ASCII letters. */
  function UpperAscii(ch: char): char
  {
    if 'a' <= ch <= 'z' then (ch as int - 32) as char else ch
  }

  function LowerAscii(ch: char): char
  {
    if 'A' <= ch <= 'Z' then (ch as int + 32) as char else ch
  }

  /** `pat` occurs in `s` at position `i`. */
  ghost predicate OccursAt(s: string, pat: string, i: int)
  {
    0 <= i && i + |pat| <= |s| && s[i..i + |pat|] == pat
  }

  ghost predicate Contains(s: string, pat: string)
  {
    exists i :: OccursAt(s, pat, i)
  }

  /** `s.replace(pat, "")`: delete non-overlapping occurrences of `pat`, scanning left to right. */
  function RemoveAll(s: string, pat: string): (r: string)
    requires |pat| > 0
    decreases |s|
  {
    if |s| < |pat| then s
    else if s[..|pat|] == pat then RemoveAll(s[|pat|..], pat)
    else [s[0]] + RemoveAll(s[1..], pat)
  }

  /** Deleting never lengthens the text, and shortens it when the pattern occurs. */
  lemma {:induction false} RemoveAllShortens(s: string, pat: string)
    requires |pat| > 0
    ensures |RemoveAll(s, pat)| <= |s|
    ensures Contains(s, pat) ==> |RemoveAll(s, pat)| < |s|
    decreases |s|
  {
    if |s| < |pat| {
    } else if s[..|pat|] == pat {
      RemoveAllShortens(s[|pat|..], pat);
    } else {
      RemoveAllShortens(s[1..], pat);
      if Contains(s, pat) {
        var i :| OccursAt(s, pat, i);
        OccursUnshift(s, pat, i);
      }
    }
  }

  /** Text in which the pattern does not occur passes through unchanged. */
  lemma {:induction false} RemoveAllKeepsPlainText(s: string, pat: string)
    requires |pat| > 0 && !Contains(s, pat)
    ensures RemoveAll(s, pat) == s
    decreases |s|
  {
    if |s| >= |pat| {
      assert !OccursAt(s, pat, 0);
      var t := s[1..];
      forall j | 0 <= j
        ensures !OccursAt(t, pat, j)
      {
        if OccursAt(t, pat, j) {
          OccursShift(s, pat, j);
        }
      }
      RemoveAllKeepsPlainText(t, pat);
      assert [s[0]] + t == s;
    }
  }

  /** An occurrence in the tail is an occurrence one position later in the whole text. */
  lemma OccursShift(s: string, pat: string, j: int)
    requires |s| >= 1 && OccursAt(s[1..], pat, j)
    ensures OccursAt(s, pat, j + 1)
  {
    assert s[j + 1..j + 1 + |pat|] == s[1..][j..j + |pat|];
  }

  /** An occurrence past the first position is an occurrence one position earlier in the tail. */
  lemma OccursUnshift(s: string, pat: string, i: int)
    requires OccursAt(s, pat, i) && i >= 1
    ensures OccursAt(s[1..], pat, i - 1)
  {
    assert s[1..][i - 1..i - 1 + |pat|] == s[i..i + |pat|];
  }

  /** Deleting changes the text exactly when the pattern occurs in it. */
  lemma RemoveAllChangesIffContains(s: string, pat: string)
    requires |pat| > 0
    ensures |RemoveAll(s, pat)| <= |s|
    ensures RemoveAll(s, pat) == s <==> !Contains(s, pat)
  {
    RemoveAllShortens(s, pat);
    if !Contains(s, pat) {
      RemoveAllKeepsPlainText(s, pat);
    }
  }

  /** Layer names shown in tables: strip "layer_", then "Layer", then truncate. */
  function FormatLayerName(name: string, maxLength: int): (r: string)
    ensures maxLength >= 1 ==> |r| <= maxLength
    ensures |r| <= |name| || (maxLength < 0 && |r| == 1)
  {
    var stripped := RemoveAll(RemoveAll(name, "layer_"), "Layer");
    RemoveAllChangesIffContains(name, "layer_");
    RemoveAllChangesIffContains(RemoveAll(name, "layer_"), "Layer");
    TruncateText(stripped, maxLength)
  }

  /** A name holding neither prefix word and short enough is shown unchanged. */
  lemma FormatLayerNameKeepsPlainName(name: string, maxLength: int)
    requires !Contains(name, "layer_") && !Contains(name, "Layer") && |name| <= maxLength
    ensures FormatLayerName(name, maxLength) == name
  {
    RemoveAllChangesIffContains(name, "layer_");
    RemoveAllChangesIffContains(name, "Layer");
  }

  function MilsToMm(mils: real): real
  {
    mils * 0.0254
  }

  function MmToMils(mm: real): real
  {
    mm / 0.0254
  }

  function OzToMm(oz: real): real
  {
    oz * 0.035
  }

  function MmToOz(mm: real): real
  {
    mm / 0.035
  }

  /** Over exact reals the two conversions of each pair undo each other. */
  lemma ConversionRoundTrips(x: real)
    ensures MmToMils(MilsToMm(x)) == x && MilsToMm(MmToMils(x)) == x
    ensures MmToOz(OzToMm(x)) == x && OzToMm(MmToOz(x)) == x
  {
  }

  /** The number shown for a thickness, and the unit written after it. */
  datatype ThicknessDisplay = ThicknessDisplay(magnitude: real, suffix: string)

  /**
   * Unit choice: mils when asked for; otherwise micrometres below 1 mm and
   * millimetres from 1 mm up. The shown number always denotes the same length.
   */
  function ThicknessUnit(thicknessMm: real, unit: string): (d: ThicknessDisplay)
    ensures unit == "mils" ==> d.suffix == "mil" && MilsToMm(d.magnitude) == thicknessMm
    ensures unit != "mils" && thicknessMm < 1.0 ==>
              d.suffix == MicroMetreSuffix && d.magnitude / 1000.0 == thicknessMm
    ensures unit != "mils" && thicknessMm >= 1.0 ==> d.suffix == "mm" && d.magnitude == thicknessMm
  {
    if unit == "mils" then ThicknessDisplay(MmToMils(thicknessMm), "mil")
    else if thicknessMm < 1.0 then ThicknessDisplay(thicknessMm * 1000.0, MicroMetreSuffix)
    else ThicknessDisplay(thicknessMm, "mm")
  }

  /** The rendered magnitude followed by its unit suffix. */
  function FormatThickness(thicknessMm: real, precision: nat, unit: string, render: Render): (s: string)
    ensures unit == "mils" ==> s == render(MmToMils(thicknessMm), precision) + "mil"
    ensures unit != "mils" && thicknessMm < 1.0 ==> s == render(thicknessMm * 1000.0, precision) + MicroMetreSuffix
    ensures unit != "mils" && thicknessMm >= 1.0 ==> s == render(thicknessMm, precision) + "mm"
  {
    var d := ThicknessUnit(thicknessMm, unit);
    render(d.magnitude, precision) + d.suffix
  }

  /** Relative permittivity with two decimals. */
  function FormatEpsilon(epsilonR: real, render: Render): string
  {
    render(epsilonR, 2)
  }

  /** Loss tangent with four decimals. */
  function FormatLossTangent(lossTangent: real, render: Render): string
  {
    render(lossTangent, 4)
  }
}
