/**
 * Stackup extraction from the board. Each board layer, as seen through the
 * board API, becomes a StackupLayer (name, type, thickness in mm, material
 * label and the optional properties); silkscreen and solder paste layers are
 * dropped and the rest are aggregated into StackupData.
 *
 * The board API is not modelled: a board layer is the record of the values
 * its attribute reads return (`RawLayer`), and the layer type is whatever the
 * type determination produced. The material-name heuristic that the type
 * determination falls back on is modelled on its own.
 */
module Extractor {
  import opened Numeric
  import opened Models
  import opened Formatting
  import Layout
  import GraphicsModels
  import GraphicsLayout

  /**
   * What reading one board layer yields. `None` in `name`, `layerId`,
   * `thicknessNm` or `materialName` stands for a read that raises; an unset
   * material name is the empty string. `sublayerMaterials` is `None` when
   * reading the dielectric sublayers raises, otherwise it lists their
   * material names (`None` for a name whose read raises) and is empty when
   * the layer has no sublayers.
   */
  datatype RawLayer = RawLayer(
    layerType: LayerType,
    name: Option<string>,
    layerId: Option<int>,
    thicknessNm: Option<int>,
    materialName: Option<string>,
    sublayerMaterials: Option<seq<Option<string>>>,
    color: Option<string>,
    epsilonR: Option<real>,
    lossTangent: Option<real>)

  // ---------------------------------------------------------------------
  // Text helpers: decimal digits, whitespace stripping, substring search
  // ---------------------------------------------------------------------

  predicate IsDigit(c: char)
  {
    '0' <= c <= '9'
  }

  function DigitChar(d: nat): (c: char)
    requires d < 10
    ensures IsDigit(c) && c as int - '0' as int == d
  {
    ('0' as int + d) as char
  }

  /** `str(n)` for a non-negative integer: its decimal digits, most significant first. */
  function DecimalDigits(n: nat): (s: string)
    ensures |s| > 0 && forall i :: 0 <= i < |s| ==> IsDigit(s[i])
    decreases n
  {
    if n < 10 then [DigitChar(n)] else DecimalDigits(n / 10) + [DigitChar(n % 10)]
  }

  /** The number a string of decimal digits denotes. */
  function DigitsValue(s: string): int
    requires forall i :: 0 <= i < |s| ==> IsDigit(s[i])
    decreases |s|
  {
    if s == [] then 0 else DigitsValue(s[..|s| - 1]) * 10 + (s[|s| - 1] as int - '0' as int)
  }

  /** Reading the digits back gives the number: the decimal text names the number it came from. */
  lemma {:induction false} DecimalDigitsRoundTrip(n: nat)
    ensures DigitsValue(DecimalDigits(n)) == n
    decreases n
  {
    if n >= 10 {
      DecimalDigitsRoundTrip(n / 10);
      var s := DecimalDigits(n);
      assert s[..|s| - 1] == DecimalDigits(n / 10);
    }
  }

  /** `str(i)` for any integer. */
  function IntText(i: int): (s: string)
    ensures i >= 0 ==> s == DecimalDigits(i)
    ensures i < 0 ==> s == "-" + DecimalDigits(-i)
    ensures |s| > 0 && (s[0] == '-' <==> i < 0)
  {
    if i < 0 then "-" + DecimalDigits(-i) else DecimalDigits(i)
  }

  /** Distinct integers have distinct texts. */
  lemma IntTextInjective(i: int, j: int)
    requires IntText(i) == IntText(j)
    ensures i == j
  {
    if i < 0 && j < 0 {
      assert DecimalDigits(-i) == IntText(i)[1..] == IntText(j)[1..] == DecimalDigits(-j);
      DecimalDigitsRoundTrip(-i);
      DecimalDigitsRoundTrip(-j);
    } else if i >= 0 && j >= 0 {
      assert DecimalDigits(i) == IntText(i) == IntText(j) == DecimalDigits(j);
      DecimalDigitsRoundTrip(i);
      DecimalDigitsRoundTrip(j);
    }
  }

  /** Six of the characters `str.strip` removes: space, tab, line feed, carriage return, vertical tab and form feed. */
  predicate IsSpace(c: char)
  {
    c == ' ' || c == '\t' || c == '\n' || c == '\r' || c == '\U{000B}' || c == '\U{000C}'
  }

  ghost predicate Blank(s: string)
  {
    forall i :: 0 <= i < |s| ==> IsSpace(s[i])
  }

  /** `s.lstrip()`: drop the leading whitespace. */
  function StripStart(s: string): (r: string)
    ensures |r| <= |s|
    decreases |s|
  {
    if s == [] || !IsSpace(s[0]) then s else StripStart(s[1..])
  }

  /** `s.rstrip()`: drop the trailing whitespace. */
  function StripEnd(s: string): (r: string)
    ensures |r| <= |s|
    decreases |s|
  {
    if s == [] || !IsSpace(s[|s| - 1]) then s else StripEnd(s[..|s| - 1])
  }

  /** Only whitespace is dropped from the front, and what is kept does not start with whitespace. */
  lemma {:induction false} StripStartDropsSpaces(s: string)
    ensures StripStart(s) == s[|s| - |StripStart(s)|..]
    ensures StripStart(s) == [] || !IsSpace(StripStart(s)[0])
    ensures forall i :: 0 <= i < |s| - |StripStart(s)| ==> IsSpace(s[i])
    decreases |s|
  {
    if s != [] && IsSpace(s[0]) {
      StripStartDropsSpaces(s[1..]);
      assert s[1..][|s[1..]| - |StripStart(s[1..])|..] == s[|s| - |StripStart(s)|..];
      assert forall i :: 1 <= i < |s| ==> s[i] == s[1..][i - 1];
    }
  }

  /** Only whitespace is dropped from the back, and what is kept does not end with whitespace. */
  lemma {:induction false} StripEndDropsSpaces(s: string)
    ensures StripEnd(s) == s[..|StripEnd(s)|]
    ensures StripEnd(s) == [] || !IsSpace(StripEnd(s)[|StripEnd(s)| - 1])
    ensures forall i :: |StripEnd(s)| <= i < |s| ==> IsSpace(s[i])
    decreases |s|
  {
    if s != [] && !IsSpace(s[|s| - 1]) {
    } else if s != [] {
      StripEndDropsSpaces(s[..|s| - 1]);
      assert s[..|s| - 1][..|StripEnd(s)|] == s[..|StripEnd(s)|];
    }
  }

  /** `s.strip()`. */
  function Strip(s: string): string
  {
    StripEnd(StripStart(s))
  }

  /**
   * The stripped text is a contiguous piece of the input with no whitespace
   * at either end, and everything cut away is whitespace; it is empty
   * exactly when the input is blank.
   */
  lemma StripShape(s: string)
    ensures exists i, j :: 0 <= i <= j <= |s| && Strip(s) == s[i..j]
                           && (forall k :: 0 <= k < i ==> IsSpace(s[k]))
                           && (forall k :: j <= k < |s| ==> IsSpace(s[k]))
    ensures Strip(s) != [] ==> !IsSpace(Strip(s)[0]) && !IsSpace(Strip(s)[|Strip(s)| - 1])
    ensures Strip(s) == [] <==> Blank(s)
  {
    var i, j := StripBounds(s);
    if Strip(s) != [] {
      assert Strip(s)[0] == s[i] && Strip(s)[|Strip(s)| - 1] == s[j - 1];
    }
  }

  /** Where the stripped text sits in the input. */
  lemma StripBounds(s: string) returns (i: nat, j: nat)
    ensures i <= j <= |s| && Strip(s) == s[i..j]
    ensures forall k :: 0 <= k < i ==> IsSpace(s[k])
    ensures forall k :: j <= k < |s| ==> IsSpace(s[k])
    ensures i < j ==> !IsSpace(s[i]) && !IsSpace(s[j - 1])
  {
    var t := StripStart(s);
    var u := StripEnd(t);
    StripStartDropsSpaces(s);
    StripEndDropsSpaces(t);
    i := |s| - |t|;
    j := i + |u|;
    assert u == s[i..j];
    forall k | j <= k < |s|
      ensures IsSpace(s[k])
    {
      assert s[k] == t[k - i];
    }
    if i < j {
      assert s[i] == t[0] && s[j - 1] == u[|u| - 1];
    }
  }

  /** Python's truth test `x and x.strip()`: the text holds something besides whitespace. */
  predicate Filled(s: string)
  {
    |Strip(s)| > 0
  }

  /** Lower-case every ASCII letter (`str.lower`). */
  function Lower(s: string): (r: string)
    ensures |r| == |s| && forall i :: 0 <= i < |s| ==> r[i] == LowerAscii(s[i])
  {
    seq(|s|, i requires 0 <= i < |s| => LowerAscii(s[i]))
  }

  /** `pat in s`. */
  function HasSubstring(s: string, pat: string): bool
    decreases |s|
  {
    if |s| < |pat| then false
    else s[..|pat|] == pat || HasSubstring(s[1..], pat)
  }

  /** The search finds the pattern exactly when it occurs somewhere. */
  lemma {:induction false} HasSubstringIffContains(s: string, pat: string)
    ensures HasSubstring(s, pat) <==> Contains(s, pat)
    decreases |s|
  {
    if |s| >= |pat| && s[..|pat|] == pat {
      assert OccursAt(s, pat, 0);
    } else if |s| >= |pat| {
      HasSubstringIffContains(s[1..], pat);
      if Contains(s[1..], pat) {
        var j :| OccursAt(s[1..], pat, j);
        OccursShift(s, pat, j);
      }
      if Contains(s, pat) {
        var i :| OccursAt(s, pat, i);
        assert i != 0;
        OccursUnshift(s, pat, i);
      }
    }
  }

  // ---------------------------------------------------------------------
  // Layer type from the material name
  // ---------------------------------------------------------------------

  /**
   * The fallback classification by material name, checked in order on the
   * lower-cased name: copper (or exactly "cu"), then the dielectric words,
   * then mask, then silk; anything else is taken for a dielectric.
   */
  function MaterialTypeHeuristic(materialName: string): (t: LayerType)
    ensures t != Solderpaste
  {
    var m := Lower(materialName);
    if HasSubstring(m, "copper") || m == "cu" then Copper
    else if HasSubstring(m, "fr4") || HasSubstring(m, "prepreg") || HasSubstring(m, "core") then Dielectric
    else if HasSubstring(m, "soldermask") || HasSubstring(m, "mask") then Soldermask
    else if HasSubstring(m, "silk") then Silkscreen
    else Dielectric
  }

  /** Every occurrence of "soldermask" holds an occurrence of "mask". */
  lemma SoldermaskHoldsMask(m: string)
    requires Contains(m, "soldermask")
    ensures Contains(m, "mask")
  {
    var i :| OccursAt(m, "soldermask", i);
    assert m[i + 6..i + 10] == m[i..i + 10][6..10];
    assert OccursAt(m, "mask", i + 6);
  }

  /**
   * The classes in terms of occurrences in the lower-cased name. Copper
   * wins over everything; the "soldermask" test adds nothing to the "mask"
   * test; a name matching none of the words is a dielectric.
   */
  lemma MaterialClasses(materialName: string)
    ensures var m := Lower(materialName);
            var copper := Contains(m, "copper") || m == "cu";
            var dielectric := Contains(m, "fr4") || Contains(m, "prepreg") || Contains(m, "core");
            var t := MaterialTypeHeuristic(materialName);
            && (t == Copper <==> copper)
            && (t == Soldermask <==> !copper && !dielectric && Contains(m, "mask"))
            && (t == Silkscreen <==> !copper && !dielectric && !Contains(m, "mask") && Contains(m, "silk"))
            && (t == Dielectric <==> !copper && (dielectric || (!Contains(m, "mask") && !Contains(m, "silk"))))
  {
    var m := Lower(materialName);
    HasSubstringIffContains(m, "copper");
    HasSubstringIffContains(m, "fr4");
    HasSubstringIffContains(m, "prepreg");
    HasSubstringIffContains(m, "core");
    HasSubstringIffContains(m, "soldermask");
    HasSubstringIffContains(m, "mask");
    HasSubstringIffContains(m, "silk");
    if Contains(m, "soldermask") {
      SoldermaskHoldsMask(m);
    }
  }

  /** Lower-casing is idempotent, so the classification ignores letter case. */
  lemma MaterialHeuristicIgnoresCase(materialName: string)
    ensures MaterialTypeHeuristic(Lower(materialName)) == MaterialTypeHeuristic(materialName)
  {
    assert Lower(Lower(materialName)) == Lower(materialName);
  }

  // ---------------------------------------------------------------------
  // Converting one layer
  // ---------------------------------------------------------------------

  /** The name shown for a layer: its own, else "Layer <id>", else "Unknown" when a read fails. */
  function LayerName(raw: RawLayer): string
  {
    match raw.name
    case None => "Unknown"
    case Some(n) =>
      if n != "" then n
      else match raw.layerId
           case None => "Unknown"
           case Some(id) => "Layer " + IntText(id)
  }

  /** Nanometres to millimetres; a thickness that cannot be read counts as 0.0. */
  function ThicknessMm(raw: RawLayer): real
  {
    match raw.thicknessNm
    case None => 0.0
    case Some(nm) => nm as real / 1000000.0
  }

  /**
   * How the sublayer search ends: a stripped, non-blank name was found, every
   * sublayer was blank, or reading a sublayer's name raised (which abandons
   * the search).
   */
  datatype SublayerSearch = Found(material: string) | Exhausted | Raised

  /** A sublayer whose name reads without raising but is blank: the search passes over it. */
  predicate BlankRead(o: Option<string>)
  {
    o.Some? && !Filled(o.value)
  }

  /** The search over the sublayer material names, in order; `None` is a read that raises. */
  function FirstFilled(names: seq<Option<string>>): (r: SublayerSearch)
    ensures r.Found? ==> r.material != []
    decreases |names|
  {
    if names == [] then Exhausted
    else match names[0]
         case None => Raised
         case Some(n) => if Filled(n) then Found(Strip(n)) else FirstFilled(names[1..])
  }

  /** The search runs out exactly when every sublayer reads as blank. */
  lemma {:induction false} FirstFilledExhausted(names: seq<Option<string>>)
    ensures FirstFilled(names) == Exhausted <==> forall i :: 0 <= i < |names| ==> BlankRead(names[i])
    decreases |names|
  {
    if names != [] && BlankRead(names[0]) {
      var rest := names[1..];
      FirstFilledExhausted(rest);
      assert FirstFilled(names) == FirstFilled(rest);
      if FirstFilled(rest) == Exhausted {
        forall i | 0 <= i < |names|
          ensures BlankRead(names[i])
        {
          if i > 0 { assert names[i] == rest[i - 1]; }
        }
      } else {
        var k :| 0 <= k < |rest| && !BlankRead(rest[k]);
        assert names[k + 1] == rest[k];
      }
    }
  }

  /**
   * The first sublayer that is not blank decides the search: a name that
   * raises abandons it, a filled name is the result, stripped.
   */
  lemma {:induction false} FirstFilledStops(names: seq<Option<string>>, i: nat)
    requires i < |names| && !BlankRead(names[i])
    requires forall j :: 0 <= j < i ==> BlankRead(names[j])
    ensures FirstFilled(names) == if names[i].None? then Raised else Found(Strip(names[i].value))
    decreases i
  {
    if i > 0 {
      var rest := names[1..];
      assert BlankRead(names[0]);
      assert FirstFilled(names) == FirstFilled(rest);
      assert rest[i - 1] == names[i];
      forall j | 0 <= j < i - 1
        ensures BlankRead(rest[j])
      {
        assert rest[j] == names[j + 1];
      }
      FirstFilledStops(rest, i - 1);
    }
  }

  /** A search that does not run out stopped at a sublayer after only blank ones. */
  lemma {:induction false} FirstFilledIndex(names: seq<Option<string>>) returns (i: nat)
    requires FirstFilled(names) != Exhausted
    ensures i < |names| && !BlankRead(names[i])
    ensures forall j :: 0 <= j < i ==> BlankRead(names[j])
    decreases |names|
  {
    if !BlankRead(names[0]) {
      i := 0;
    } else {
      var rest := names[1..];
      assert FirstFilled(names) == FirstFilled(rest);
      var k := FirstFilledIndex(rest);
      i := k + 1;
      assert names[i] == rest[k];
      forall j | 0 < j < i
        ensures BlankRead(names[j])
      {
        assert names[j] == rest[j - 1];
      }
    }
  }

  /**
   * A dielectric's label: its own material name, else the first named
   * sublayer, else "DIELECTRIC"; any read that raises on the way also gives
   * "DIELECTRIC".
   */
  function DielectricMaterial(raw: RawLayer): string
  {
    match raw.materialName
    case None => "DIELECTRIC"
    case Some(n) =>
      if Filled(n) then Strip(n)
      else match raw.sublayerMaterials
           case None => "DIELECTRIC"
           case Some(subs) =>
             match FirstFilled(subs)
             case Found(m) => m
             case _ => "DIELECTRIC"
  }

  function MaterialLabel(raw: RawLayer): string
  {
    match raw.layerType
    case Copper => "COPPER"
    case Soldermask => "SOLDERMASK"
    case Silkscreen => "SILKSCREEN"
    case Solderpaste => "SOLDERPASTE"
    case Dielectric => DielectricMaterial(raw)
  }

  /** The layer record built from one board layer. */
  function ConvertedLayer(raw: RawLayer): StackupLayer
  {
    StackupLayer(LayerName(raw), raw.layerType, ThicknessMm(raw), MaterialLabel(raw),
                 raw.color, raw.epsilonR, raw.lossTangent)
  }

  /** The sublayer search restarted at `i` ends as the whole search does, when everything earlier was blank. */
  lemma FirstFilledFrom(names: seq<Option<string>>, i: nat)
    requires i < |names|
    ensures FirstFilled(names[i..]) ==
              match names[i]
              case None => Raised
              case Some(n) => if Filled(n) then Found(Strip(n)) else FirstFilled(names[i + 1..])
  {
    assert names[i..][1..] == names[i + 1..];
  }

  /** The sublayer loop: stops at the first filled name, or when a read raises. */
  method FirstNamedSublayer(subs: seq<Option<string>>) returns (outcome: SublayerSearch)
    ensures outcome == FirstFilled(subs)
  {
    outcome := Exhausted;
    var i := 0;
    while i < |subs|
      invariant 0 <= i <= |subs|
      invariant FirstFilled(subs[i..]) == FirstFilled(subs)
    {
      FirstFilledFrom(subs, i);
      if subs[i].None? {
        outcome := Raised;
        break;
      }
      if Filled(subs[i].value) {
        outcome := Found(Strip(subs[i].value));
        break;
      }
      i := i + 1;
    }
  }

  method ConvertLayer(raw: RawLayer) returns (layer: StackupLayer)
    ensures layer == ConvertedLayer(raw)
  {
    var name: string;
    if raw.name.None? {
      name := "Unknown";
    } else if raw.name.value != "" {
      name := raw.name.value;
    } else if raw.layerId.Some? {
      name := "Layer " + IntText(raw.layerId.value);
    } else {
      name := "Unknown";
    }
    assert name == LayerName(raw);

    var thicknessMm := 0.0;
    if raw.thicknessNm.Some? {
      thicknessMm := raw.thicknessNm.value as real / 1000000.0;
    }
    assert thicknessMm == ThicknessMm(raw);

    var material: string;
    match raw.layerType {
      case Copper => material := "COPPER";
      case Soldermask => material := "SOLDERMASK";
      case Silkscreen => material := "SILKSCREEN";
      case Solderpaste => material := "SOLDERPASTE";
      case Dielectric =>
        material := "";
        var raised := false;
        if raw.materialName.None? {
          raised := true;
        } else if Filled(raw.materialName.value) {
          material := Strip(raw.materialName.value);
        }
        if !raised && material == "" {
          if raw.sublayerMaterials.None? {
            raised := true;
          } else if |raw.sublayerMaterials.value| > 0 {
            var outcome := FirstNamedSublayer(raw.sublayerMaterials.value);
            if outcome.Found? {
              material := outcome.material;
            } else if outcome.Raised? {
              raised := true;
            }
          }
        }
        // the exception handler and the fallback both give the default label
        if raised || material == "" {
          material := "DIELECTRIC";
        }
        assert material == DielectricMaterial(raw);
    }
    layer := StackupLayer(name, raw.layerType, thicknessMm, material, raw.color, raw.epsilonR, raw.lossTangent);
  }

  /**
   * What conversion keeps and what it labels: type and optional properties
   * pass through; the thickness is the nanometre reading scaled to mm (0.0
   * when unreadable); every type but dielectric gets its fixed upper-case
   * label; a dielectric gets a non-blank stripped name from the layer or
   * from the first sublayer that is not blank, and "DIELECTRIC" when there
   * is none or a read on the way raises.
   */
  lemma ConvertedLayerFields(raw: RawLayer)
    ensures var l := ConvertedLayer(raw);
            && l.layerType == raw.layerType && l.color == raw.color
            && l.epsilonR == raw.epsilonR && l.lossTangent == raw.lossTangent
            && (raw.thicknessNm.Some? ==> l.thickness * 1000000.0 == raw.thicknessNm.value as real)
            && (raw.thicknessNm.None? ==> l.thickness == 0.0)
            && (raw.layerType == Copper ==> l.material == "COPPER")
            && (raw.layerType == Soldermask ==> l.material == "SOLDERMASK")
            && (raw.layerType == Silkscreen ==> l.material == "SILKSCREEN")
            && (raw.layerType == Solderpaste ==> l.material == "SOLDERPASTE")
            && l.material != []
    ensures var l := ConvertedLayer(raw);
            raw.layerType == Dielectric ==>
              match raw.materialName
              case None => l.material == "DIELECTRIC"
              case Some(n) =>
                if Filled(n) then l.material == Strip(n)
                else match raw.sublayerMaterials
                     case None => l.material == "DIELECTRIC"
                     case Some(subs) =>
                       && ((forall i :: 0 <= i < |subs| ==> BlankRead(subs[i])) ==> l.material == "DIELECTRIC")
                       && forall i :: 0 <= i < |subs| && !BlankRead(subs[i]) && (forall j :: 0 <= j < i ==> BlankRead(subs[j])) ==>
                            l.material == if subs[i].None? then "DIELECTRIC" else Strip(subs[i].value)
  {
    if raw.layerType == Dielectric && raw.materialName.Some? && !Filled(raw.materialName.value)
       && raw.sublayerMaterials.Some? {
      var subs := raw.sublayerMaterials.value;
      FirstFilledExhausted(subs);
      forall i | 0 <= i < |subs| && !BlankRead(subs[i]) && (forall j :: 0 <= j < i ==> BlankRead(subs[j]))
        ensures ConvertedLayer(raw).material == if subs[i].None? then "DIELECTRIC" else Strip(subs[i].value)
      {
        FirstFilledStops(subs, i);
      }
    }
  }

  /** A layer's own name is kept; an unnamed one is called "Layer <id>", which differs for different ids. */
  lemma LayerNames(raw: RawLayer, other: RawLayer)
    ensures raw.name.Some? && raw.name.value != "" ==> LayerName(raw) == raw.name.value
    ensures raw.name.None? ==> LayerName(raw) == "Unknown"
    ensures raw.name == Some("") && raw.layerId.Some? ==> LayerName(raw) == "Layer " + IntText(raw.layerId.value)
    ensures (raw.name == Some("") && other.name == Some("") && raw.layerId.Some? && other.layerId.Some?
             && raw.layerId != other.layerId) ==> LayerName(raw) != LayerName(other)
  {
    if raw.name == Some("") && other.name == Some("") && raw.layerId.Some? && other.layerId.Some?
       && LayerName(raw) == LayerName(other) {
      assert IntText(raw.layerId.value) == LayerName(raw)[6..] == LayerName(other)[6..] == IntText(other.layerId.value);
      IntTextInjective(raw.layerId.value, other.layerId.value);
    }
  }

  // ---------------------------------------------------------------------
  // Aggregation
  // ---------------------------------------------------------------------

  /** Silkscreen and solder paste are cosmetic: they do not shape the stackup. */
  predicate Cosmetic(t: LayerType)
  {
    t == Silkscreen || t == Solderpaste
  }

  /** Every board layer converted, in board order. */
  function ConvertedLayers(raws: seq<RawLayer>): (ls: seq<StackupLayer>)
    ensures |ls| == |raws| && forall i :: 0 <= i < |raws| ==> ls[i] == ConvertedLayer(raws[i])
  {
    seq(|raws|, i requires 0 <= i < |raws| => ConvertedLayer(raws[i]))
  }

  /** The layers that are not cosmetic, in their original order. */
  function NonCosmetic(layers: seq<StackupLayer>): (r: seq<StackupLayer>)
    ensures |r| <= |layers|
    decreases |layers|
  {
    if layers == [] then []
    else
      var n := |layers| - 1;
      NonCosmetic(layers[..n]) + (if Cosmetic(layers[n].layerType) then [] else [layers[n]])
  }

  /** The layers the stackup keeps: conversion first, then the filter on the converted type. */
  function KeptLayers(raws: seq<RawLayer>): seq<StackupLayer>
  {
    NonCosmetic(ConvertedLayers(raws))
  }

  function CopperCount(layers: seq<StackupLayer>): nat
    decreases |layers|
  {
    if layers == [] then 0
    else
      var n := |layers| - 1;
      CopperCount(layers[..n]) + (if layers[n].layerType == Copper then 1 else 0)
  }

  /** `board_filename or "Unknown"`; `None` stands for a read that raises. */
  function BoardName(boardFilename: Option<string>): string
  {
    match boardFilename
    case Some(f) => if f != "" then f else "Unknown"
    case None => "Unknown"
  }

  function ExtractedStackup(raws: seq<RawLayer>, boardFilename: Option<string>): StackupData
  {
    var layers := KeptLayers(raws);
    StackupData(layers, Sum(GraphicsLayout.Thicknesses(layers)), CopperCount(layers), BoardName(boardFilename))
  }

  /** Either the extracted stackup, or the error raised when the board has no readable stackup. */
  datatype Extraction = Extracted(data: StackupData) | CannotGetStackup

  /**
   * `stackup` is the board's stackup as a list of board layers, or `None`
   * when fetching it raises.
   */
  method ExtractStackupData(stackup: Option<seq<RawLayer>>, boardFilename: Option<string>)
    returns (result: Extraction)
    ensures stackup.None? <==> result == CannotGetStackup
    ensures stackup.Some? ==> result == Extracted(ExtractedStackup(stackup.value, boardFilename))
  {
    if stackup.None? {
      return CannotGetStackup;
    }
    var raws := stackup.value;
    ghost var converted := ConvertedLayers(raws);
    var layers: seq<StackupLayer> := [];
    var totalThickness := 0.0;
    var copperCount := 0;
    var i := 0;
    while i < |raws|
      invariant 0 <= i <= |raws|
      invariant layers == NonCosmetic(converted[..i])
      invariant totalThickness == Sum(GraphicsLayout.Thicknesses(layers))
      invariant copperCount == CopperCount(layers)
    {
      var layer := ConvertLayer(raws[i]);
      NonCosmeticStep(converted, i);
      if Cosmetic(layer.layerType) {
        i := i + 1;
        continue;
      }
      AggregateStep(layers, layer);
      layers := layers + [layer];
      if layer.layerType == Copper {
        copperCount := copperCount + 1;
      }
      totalThickness := totalThickness + layer.thickness;
      i := i + 1;
    }
    assert converted[..i] == converted;
    var boardName := if boardFilename.Some? && boardFilename.value != "" then boardFilename.value else "Unknown";
    result := Extracted(StackupData(layers, totalThickness, copperCount, boardName));
  }

  /** One more kept layer adds its thickness to the total and, when copper, one to the count. */
  lemma AggregateStep(layers: seq<StackupLayer>, layer: StackupLayer)
    ensures Sum(GraphicsLayout.Thicknesses(layers + [layer])) == Sum(GraphicsLayout.Thicknesses(layers)) + layer.thickness
    ensures CopperCount(layers + [layer]) == CopperCount(layers) + if layer.layerType == Copper then 1 else 0
  {
    assert GraphicsLayout.Thicknesses(layers + [layer]) == GraphicsLayout.Thicknesses(layers) + [layer.thickness];
    SumAppend(GraphicsLayout.Thicknesses(layers), layer.thickness);
    assert (layers + [layer])[..|layers|] == layers;
  }

  /** Extending the prefix by one layer adds that layer to the filtered prefix unless it is cosmetic. */
  lemma NonCosmeticStep(layers: seq<StackupLayer>, i: nat)
    requires i < |layers|
    ensures NonCosmetic(layers[..i + 1]) ==
            NonCosmetic(layers[..i]) + (if Cosmetic(layers[i].layerType) then [] else [layers[i]])
  {
    assert layers[..i + 1][..i] == layers[..i];
  }

  /** Filtering distributes over concatenation, so the kept layers keep their relative order. */
  lemma {:induction false} NonCosmeticAppend(a: seq<StackupLayer>, b: seq<StackupLayer>)
    ensures NonCosmetic(a + b) == NonCosmetic(a) + NonCosmetic(b)
    decreases |b|
  {
    if b == [] {
      assert a + b == a;
    } else {
      var n := |b| - 1;
      var last := if Cosmetic(b[n].layerType) then [] else [b[n]];
      NonCosmeticAppend(a, b[..n]);
      assert (a + b)[..|a + b| - 1] == a + b[..n];
      assert (a + b)[|a + b| - 1] == b[n];
      assert NonCosmetic(a + b) == NonCosmetic(a + b[..n]) + last;
      assert NonCosmetic(b) == NonCosmetic(b[..n]) + last;
    }
  }

  /** A layer survives the filter exactly when it is present and not cosmetic. */
  lemma {:induction false} NonCosmeticMembers(layers: seq<StackupLayer>)
    ensures forall l :: l in NonCosmetic(layers) <==> l in layers && !Cosmetic(l.layerType)
    decreases |layers|
  {
    if layers != [] {
      var n := |layers| - 1;
      NonCosmeticMembers(layers[..n]);
      assert layers == layers[..n] + [layers[n]];
    }
  }

  /**
   * A board layer's conversion is kept exactly when its type is not
   * cosmetic, and nothing else is kept.
   */
  lemma KeptLayersAreNonCosmetic(raws: seq<RawLayer>)
    ensures forall l :: l in KeptLayers(raws) <==>
              exists i :: 0 <= i < |raws| && l == ConvertedLayer(raws[i]) && !Cosmetic(raws[i].layerType)
  {
    NonCosmeticMembers(ConvertedLayers(raws));
    forall l | l in KeptLayers(raws)
      ensures exists i :: 0 <= i < |raws| && l == ConvertedLayer(raws[i]) && !Cosmetic(raws[i].layerType)
    {
      var i :| 0 <= i < |raws| && ConvertedLayers(raws)[i] == l;
    }
  }

  /** Board layers appended to the stackup contribute their own kept layers after the earlier ones. */
  lemma KeptLayersAppend(a: seq<RawLayer>, b: seq<RawLayer>)
    ensures KeptLayers(a + b) == KeptLayers(a) + KeptLayers(b)
  {
    assert ConvertedLayers(a + b) == ConvertedLayers(a) + ConvertedLayers(b);
    NonCosmeticAppend(ConvertedLayers(a), ConvertedLayers(b));
  }

  /** The copper count is the number of copper layers, which is how many rows the minimal table shows. */
  lemma {:induction false} CopperCountIsCopperRows(layers: seq<StackupLayer>)
    ensures CopperCount(layers) == |Layout.CopperOnly(layers)|
    decreases |layers|
  {
    if layers != [] {
      CopperCountIsCopperRows(layers[..|layers| - 1]);
    }
  }

  /**
   * The extracted total is the sum of the kept layers' thicknesses, so
   * scaling heights by it fills the configured maximum height exactly.
   */
  lemma ExtractedScaledHeightsFillMaximum(raws: seq<RawLayer>, boardFilename: Option<string>,
                                          cfg: GraphicsModels.GraphicalConfig)
    requires cfg.thicknessMode == GraphicsModels.Mode(GraphicsModels.Scaled)
    requires ExtractedStackup(raws, boardFilename).totalThickness != 0.0
    ensures Sum(GraphicsLayout.LayerHeights(ExtractedStackup(raws, boardFilename), cfg)) == cfg.maxTotalHeightMm
  {
    GraphicsLayout.ScaledHeightsFillMaximum(ExtractedStackup(raws, boardFilename), cfg);
  }

  /** An extracted stackup holds only non-cosmetic layers, and counts exactly its copper layers. */
  lemma ExtractedStackupShape(raws: seq<RawLayer>, boardFilename: Option<string>)
    ensures var d := ExtractedStackup(raws, boardFilename);
            && (forall l :: l in d.layers ==> !Cosmetic(l.layerType))
            && d.copperLayerCount == |Layout.CopperOnly(d.layers)|
            && (boardFilename.Some? && boardFilename.value != "" ==> d.boardName == boardFilename.value)
            && (boardFilename.None? || boardFilename == Some("") ==> d.boardName == "Unknown")
  {
    NonCosmeticMembers(ConvertedLayers(raws));
    CopperCountIsCopperRows(KeptLayers(raws));
  }
}
