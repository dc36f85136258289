/**
 * The cross-section layout engine: one visual height per layer, a vertical
 * cursor that places a (rectangle, leader, callout) triple per layer, the
 * detection of callouts that sit too close together, and the symmetric
 * repositioning of colliding callouts with straight or elbowed leaders.
 */
module GraphicsLayout {
  import opened Numeric
  import opened Models
  import opened Formatting
  import opened GraphicsModels

  // ---------------------------------------------------------------------
  // Callout text
  // ---------------------------------------------------------------------

  /** Tolerance of a nominal thickness, given as a percentage. */
  function CalculateTolerance(thicknessMm: real, tolerancePercent: real): (t: real)
    ensures t * 100.0 == thicknessMm * tolerancePercent
    ensures 0.0 <= thicknessMm && 0.0 <= tolerancePercent <= 100.0 ==> 0.0 <= t <= thicknessMm
  {
    thicknessMm * (tolerancePercent / 100.0)
  }

  /** "<material> - <thickness> ±<tolerance>", with a 10 % tolerance, both shown to one decimal. */
  function FormatCalloutText(layer: StackupLayer, render: Render): (s: string)
    ensures s == layer.material + " - " + FormatThickness(layer.thickness, 1, "mm", render)
                 + " \U{00B1}" + FormatThickness(layer.thickness / 10.0, 1, "mm", render)
  {
    var tolerance := CalculateTolerance(layer.thickness, 10.0);
    var thicknessStr := FormatThickness(layer.thickness, 1, "mm", render);
    var toleranceStr := FormatThickness(tolerance, 1, "mm", render);
    layer.material + " - " + thicknessStr + " \U{00B1}" + toleranceStr
  }

  // ---------------------------------------------------------------------
  // Layer heights
  // ---------------------------------------------------------------------

  /** Proportional-mode ratio of a layer type; types without a configured ratio get 0.5. */
  function TypeRatio(t: LayerType, cfg: GraphicalConfig): real
  {
    match t
    case Copper => cfg.copperHeightRatio
    case Dielectric => cfg.dielectricHeightRatio
    case Soldermask => cfg.soldermaskHeightRatio
    case _ => 0.5
  }

  /** Visual height of layer `i` under the configured height policy. */
  function LayerHeight(stackup: StackupData, cfg: GraphicalConfig, i: nat): real
    requires i < |stackup.layers|
  {
    match cfg.thicknessMode
    case Mode(Proportional) => cfg.uniformLayerHeightMm * TypeRatio(stackup.layers[i].layerType, cfg)
    case Mode(Scaled) =>
      if stackup.totalThickness == 0.0 then cfg.uniformLayerHeightMm
      else stackup.layers[i].thickness * (cfg.maxTotalHeightMm / stackup.totalThickness)
    case _ => cfg.uniformLayerHeightMm
  }

  /** One height per layer, in layer order. */
  function LayerHeights(stackup: StackupData, cfg: GraphicalConfig): (hs: seq<real>)
    ensures |hs| == |stackup.layers|
  {
    seq(|stackup.layers|, i requires 0 <= i < |stackup.layers| => LayerHeight(stackup, cfg, i))
  }

  method CalculateLayerHeights(stackup: StackupData, cfg: GraphicalConfig) returns (heights: seq<real>)
    ensures heights == LayerHeights(stackup, cfg)
  {
    var n := |stackup.layers|;
    var base := cfg.uniformLayerHeightMm;
    if cfg.thicknessMode == Mode(Uniform) {
      heights := seq(n, _ => base);
    } else if cfg.thicknessMode == Mode(Proportional) {
      heights := [];
      var i := 0;
      while i < n
        invariant i <= n
        invariant heights == LayerHeights(stackup, cfg)[..i]
      {
        var layer := stackup.layers[i];
        assert LayerHeights(stackup, cfg)[i] == base * TypeRatio(layer.layerType, cfg);
        if layer.layerType == Copper {
          heights := heights + [base * cfg.copperHeightRatio];
        } else if layer.layerType == Dielectric {
          heights := heights + [base * cfg.dielectricHeightRatio];
        } else if layer.layerType == Soldermask {
          heights := heights + [base * cfg.soldermaskHeightRatio];
        } else {
          heights := heights + [base * 0.5];
        }
        assert heights[i] == LayerHeights(stackup, cfg)[i];
        assert LayerHeights(stackup, cfg)[..i + 1] == LayerHeights(stackup, cfg)[..i] + [LayerHeights(stackup, cfg)[i]];
        i := i + 1;
      }
      assert LayerHeights(stackup, cfg)[..n] == LayerHeights(stackup, cfg);
    } else if cfg.thicknessMode == Mode(Scaled) {
      if n == 0 || stackup.totalThickness == 0.0 {
        heights := seq(n, _ => base);
      } else {
        var scaleFactor := cfg.maxTotalHeightMm / stackup.totalThickness;
        heights := seq(n, i requires 0 <= i < n => stackup.layers[i].thickness * scaleFactor);
      }
    } else {
      heights := seq(n, _ => base);
    }
    assert forall j :: 0 <= j < n ==> heights[j] == LayerHeights(stackup, cfg)[j];
  }

  /** The three non-scaled policies: uniform (or unrecognised) and proportional by type. */
  lemma HeightsByPolicy(stackup: StackupData, cfg: GraphicalConfig, i: nat)
    requires i < |stackup.layers|
    ensures var h := LayerHeights(stackup, cfg)[i];
            var t := stackup.layers[i].layerType;
            && (cfg.thicknessMode == Mode(Uniform) || cfg.thicknessMode.Unrecognised? ==>
                  h == cfg.uniformLayerHeightMm)
            && (cfg.thicknessMode == Mode(Proportional) ==>
                  && (t == Copper ==> h == cfg.uniformLayerHeightMm * cfg.copperHeightRatio)
                  && (t == Dielectric ==> h == cfg.uniformLayerHeightMm * cfg.dielectricHeightRatio)
                  && (t == Soldermask ==> h == cfg.uniformLayerHeightMm * cfg.soldermaskHeightRatio)
                  && (t == Silkscreen || t == Solderpaste ==> h == cfg.uniformLayerHeightMm * 0.5))
  {
  }

  function Thicknesses(layers: seq<StackupLayer>): (ts: seq<real>)
    ensures |ts| == |layers| && forall i :: 0 <= i < |layers| ==> ts[i] == layers[i].thickness
  {
    seq(|layers|, i requires 0 <= i < |layers| => layers[i].thickness)
  }

  /**
   * Scaled policy: each height is the layer's thickness times the same factor,
   * so when the stackup's total is the sum of its thicknesses the heights add
   * up to the configured maximum.
   */
  lemma {:induction false} ScaledHeightsFillMaximum(stackup: StackupData, cfg: GraphicalConfig)
    requires cfg.thicknessMode == Mode(Scaled)
    requires stackup.totalThickness == Sum(Thicknesses(stackup.layers)) && stackup.totalThickness != 0.0
    ensures Sum(LayerHeights(stackup, cfg)) == cfg.maxTotalHeightMm
  {
    var k := cfg.maxTotalHeightMm / stackup.totalThickness;
    SumScale(Thicknesses(stackup.layers), k, LayerHeights(stackup, cfg));
  }

  /** Scaled policy with nothing to scale by falls back to the uniform height. */
  lemma ScaledFallsBackToUniform(stackup: StackupData, cfg: GraphicalConfig, i: nat)
    requires cfg.thicknessMode == Mode(Scaled) && stackup.totalThickness == 0.0
    requires i < |stackup.layers|
    ensures LayerHeights(stackup, cfg)[i] == cfg.uniformLayerHeightMm
  {
  }

  // ---------------------------------------------------------------------
  // Base layout: the cursor walk
  // ---------------------------------------------------------------------

  /** Gap inserted before and again after a soldermask layer (none for other layers). */
  function GapAround(layer: StackupLayer, cfg: GraphicalConfig): real
  {
    if layer.layerType == Soldermask && cfg.soldermaskGapMm > 0.0 then cfg.soldermaskGapMm else 0.0
  }

  function EffectiveGap(cfg: GraphicalConfig): real
  {
    if cfg.soldermaskGapMm > 0.0 then cfg.soldermaskGapMm else 0.0
  }

  function SoldermaskCount(layers: seq<StackupLayer>): nat
  {
    if layers == [] then 0
    else SoldermaskCount(layers[..|layers| - 1]) + (if layers[|layers| - 1].layerType == Soldermask then 1 else 0)
  }

  /** The cursor after the first `k` layers have been placed. */
  function CursorAt(layers: seq<StackupLayer>, heights: seq<real>, cfg: GraphicalConfig, k: nat): real
    requires k <= |layers| == |heights|
  {
    if k == 0 then cfg.originYMm
    else CursorAt(layers, heights, cfg, k - 1)
         + GapAround(layers[k - 1], cfg) + heights[k - 1] + GapAround(layers[k - 1], cfg)
  }

  /** Top edge of the rectangle of layer `k`. */
  function RectTop(layers: seq<StackupLayer>, heights: seq<real>, cfg: GraphicalConfig, k: nat): real
    requires k < |layers| == |heights|
  {
    CursorAt(layers, heights, cfg, k) + GapAround(layers[k], cfg)
  }

  /** The cursor is the origin plus every earlier height plus two gaps per earlier soldermask layer. */
  lemma {:induction false} CursorIsRunningSum(layers: seq<StackupLayer>, heights: seq<real>, cfg: GraphicalConfig, k: nat)
    requires k <= |layers| == |heights|
    ensures CursorAt(layers, heights, cfg, k)
            == cfg.originYMm + Sum(heights[..k]) + 2.0 * EffectiveGap(cfg) * (SoldermaskCount(layers[..k]) as real)
  {
    if k > 0 {
      CursorIsRunningSum(layers, heights, cfg, k - 1);
      assert heights[..k][..k - 1] == heights[..k - 1];
      assert layers[..k][..k - 1] == layers[..k - 1];
    }
  }

  /** The next rectangle starts right below the previous one, separated only by soldermask gaps. */
  lemma RectanglesStack(layers: seq<StackupLayer>, heights: seq<real>, cfg: GraphicalConfig, k: nat)
    requires k + 1 < |layers| == |heights|
    ensures RectTop(layers, heights, cfg, k + 1)
            == RectTop(layers, heights, cfg, k) + heights[k] + GapAround(layers[k], cfg) + GapAround(layers[k + 1], cfg)
  {
  }

  /** The gap is also inserted before a soldermask layer that comes first. */
  lemma FirstSoldermaskGetsGap(layers: seq<StackupLayer>, heights: seq<real>, cfg: GraphicalConfig)
    requires 0 < |layers| == |heights|
    requires layers[0].layerType == Soldermask && cfg.soldermaskGapMm > 0.0
    ensures RectTop(layers, heights, cfg, 0) == cfg.originYMm + cfg.soldermaskGapMm
  {
  }

  /** A layer's rectangle, its straight leader and its callout. */
  datatype Group = Group(rect: Element, leader: Element, callout: Element)

  /** The `g`-th triple of a flat element list. */
  function GroupAt(elems: seq<Element>, g: nat): Group
    requires 3 * g + 2 < |elems|
  {
    Group(elems[3 * g], elems[3 * g + 1], elems[3 * g + 2])
  }

  /** The element list is made of (rectangle, leader, callout) triples. */
  ghost predicate Tripled(elems: seq<Element>)
  {
    && |elems| % 3 == 0
    && forall g: nat :: 3 * g + 2 < |elems| ==>
         GroupAt(elems, g).rect.Rectangle? && GroupAt(elems, g).leader.Leader? && GroupAt(elems, g).callout.Callout?
  }

  /** The triple placed for one layer of height `h` whose rectangle starts at `top`. */
  function LayerGroup(layer: StackupLayer, h: real, top: real, cfg: GraphicalConfig, render: Render): Group
  {
    var startX := cfg.originXMm + cfg.layerWidthMm;
    var startY := top + h / 2.0;
    var endX := startX + cfg.leaderLineLengthMm;
    Group(
      Rectangle(Point(cfg.originXMm, top), cfg.layerWidthMm, h, layer.name,
                Some(LayerTypeValue(layer.layerType)), false),
      Leader(Point(startX, startY), Point(endX, startY), Straight,
             [Segment(Point(startX, startY), Point(endX, startY))]),
      Callout(Point(endX + CalloutTextPaddingMm, startY), FormatCalloutText(layer, render),
              cfg.textSizeMm, "left", "center"))
  }

  /** The triple placed for layer `g` by the base layout. */
  function InitialGroup(stackup: StackupData, cfg: GraphicalConfig, render: Render, g: nat): Group
    requires g < |stackup.layers|
  {
    var heights := LayerHeights(stackup, cfg);
    LayerGroup(stackup.layers[g], heights[g], RectTop(stackup.layers, heights, cfg, g), cfg, render)
  }

  /** Appending a triple keeps the earlier triples and adds it as the next one. */
  lemma AppendGroup(elems: seq<Element>, k: nat, grp: Group)
    requires |elems| == 3 * k
    ensures var e := elems + [grp.rect, grp.leader, grp.callout];
            && |e| == 3 * (k + 1)
            && GroupAt(e, k) == grp
            && forall g: nat :: 3 * g + 2 < |elems| ==> GroupAt(e, g) == GroupAt(elems, g)
  {
  }

  /** Total width reserved: origin, stack, leader and 50 mm for the text. */
  function LayoutWidth(cfg: GraphicalConfig): real
  {
    cfg.originXMm + cfg.layerWidthMm + cfg.leaderLineLengthMm + 50.0
  }

  /** Total height: how far the cursor moved. */
  function LayoutHeight(stackup: StackupData, cfg: GraphicalConfig): real
  {
    var heights := LayerHeights(stackup, cfg);
    CursorAt(stackup.layers, heights, cfg, |stackup.layers|) - cfg.originYMm
  }

  /** The elements of a base layout are exactly the initial triple of every layer, in layer order. */
  ghost predicate IsInitialLayout(stackup: StackupData, cfg: GraphicalConfig, render: Render, elems: seq<Element>)
  {
    && |elems| == 3 * |stackup.layers|
    && forall g: nat {:trigger GroupAt(elems, g)} :: g < |stackup.layers| ==> GroupAt(elems, g) == InitialGroup(stackup, cfg, render, g)
  }

  /** The first `k` triples of `elems` are those of the first `k` layers, stacked from the origin. */
  ghost predicate PlacedUpTo(layers: seq<StackupLayer>, heights: seq<real>, cfg: GraphicalConfig, render: Render,
                             elems: seq<Element>, k: nat)
    requires k <= |layers| == |heights|
  {
    && |elems| == 3 * k
    && forall g: nat {:trigger GroupAt(elems, g)} :: g < k ==>
         GroupAt(elems, g) == LayerGroup(layers[g], heights[g], RectTop(layers, heights, cfg, g), cfg, render)
  }

  /** Appending the triple of layer `k` at its stacked position extends the placed prefix. */
  lemma PlaceNext(layers: seq<StackupLayer>, heights: seq<real>, cfg: GraphicalConfig, render: Render,
                  elems: seq<Element>, k: nat)
    requires k < |layers| == |heights|
    requires PlacedUpTo(layers, heights, cfg, render, elems, k)
    ensures var grp := LayerGroup(layers[k], heights[k], RectTop(layers, heights, cfg, k), cfg, render);
            PlacedUpTo(layers, heights, cfg, render, elems + [grp.rect, grp.leader, grp.callout], k + 1)
  {
    var grp := LayerGroup(layers[k], heights[k], RectTop(layers, heights, cfg, k), cfg, render);
    var e := elems + [grp.rect, grp.leader, grp.callout];
    forall g: nat | g < k + 1
      ensures GroupAt(e, g) == LayerGroup(layers[g], heights[g], RectTop(layers, heights, cfg, g), cfg, render)
    {
      if g < k {
        assert GroupAt(e, g) == GroupAt(elems, g);
      } else {
        assert GroupAt(e, g) == grp;
      }
    }
  }

  /** Every layer placed with the computed heights is the base layout. */
  lemma PlacedAllIsInitial(stackup: StackupData, cfg: GraphicalConfig, render: Render, elems: seq<Element>)
    requires |LayerHeights(stackup, cfg)| == |stackup.layers|
    requires PlacedUpTo(stackup.layers, LayerHeights(stackup, cfg), cfg, render, elems, |stackup.layers|)
    ensures IsInitialLayout(stackup, cfg, render, elems)
  {
  }

  method CalculateGraphicalLayout(stackup: StackupData, cfg: GraphicalConfig, render: Render)
    returns (viz: Visualization)
    ensures IsInitialLayout(stackup, cfg, render, viz.elements)
    ensures viz == NewVisualization(viz.elements, LayoutWidth(cfg), LayoutHeight(stackup, cfg),
                                    |stackup.layers|, ZeroBounds)
  {
    var elements: seq<Element> := [];
    var yOffset := cfg.originYMm;
    var layerHeights := CalculateLayerHeights(stackup, cfg);
    var n := |stackup.layers|;
    var idx := 0;
    while idx < n
      invariant idx <= n
      invariant PlacedUpTo(stackup.layers, layerHeights, cfg, render, elements, idx)
      invariant yOffset == CursorAt(stackup.layers, layerHeights, cfg, idx)
    {
      var layer := stackup.layers[idx];
      var layerHeight := layerHeights[idx];
      if layer.layerType == Soldermask && cfg.soldermaskGapMm > 0.0 {
        yOffset := yOffset + cfg.soldermaskGapMm;
      }
      assert yOffset == RectTop(stackup.layers, layerHeights, cfg, idx);
      var rect := Rectangle(Point(cfg.originXMm, yOffset), cfg.layerWidthMm, layerHeight, layer.name,
                            Some(LayerTypeValue(layer.layerType)), false);
      var leaderStartX := cfg.originXMm + cfg.layerWidthMm;
      var leaderStartY := yOffset + layerHeight / 2.0;
      var leaderEndX := leaderStartX + cfg.leaderLineLengthMm;
      var leaderEndY := leaderStartY;
      var leader := Leader(Point(leaderStartX, leaderStartY), Point(leaderEndX, leaderEndY), Straight,
                           [Segment(Point(leaderStartX, leaderStartY), Point(leaderEndX, leaderEndY))]);
      var callout := Callout(Point(leaderEndX + CalloutTextPaddingMm, leaderEndY),
                             FormatCalloutText(layer, render), cfg.textSizeMm, "left", "center");
      assert Group(rect, leader, callout) == LayerGroup(layer, layerHeight, yOffset, cfg, render);
      PlaceNext(stackup.layers, layerHeights, cfg, render, elements, idx);
      elements := elements + [rect, leader, callout];
      yOffset := yOffset + layerHeight;
      if layer.layerType == Soldermask && cfg.soldermaskGapMm > 0.0 {
        yOffset := yOffset + cfg.soldermaskGapMm;
      }
      idx := idx + 1;
    }
    var totalWidth := cfg.originXMm + cfg.layerWidthMm + cfg.leaderLineLengthMm + 50.0;
    var totalHeight := yOffset - cfg.originYMm;
    PlacedAllIsInitial(stackup, cfg, render, elements);
    viz := NewVisualization(elements, totalWidth, totalHeight, n, ZeroBounds);
  }

  /** A base layout is made of (rectangle, leader, callout) triples. */
  lemma InitialLayoutIsTripled(stackup: StackupData, cfg: GraphicalConfig, render: Render, elems: seq<Element>)
    requires IsInitialLayout(stackup, cfg, render, elems)
    ensures Tripled(elems)
  {
    forall g: nat | 3 * g + 2 < |elems|
      ensures GroupAt(elems, g).rect.Rectangle? && GroupAt(elems, g).leader.Leader? && GroupAt(elems, g).callout.Callout?
    {
      assert g < |stackup.layers|;
    }
  }

  /**
   * In the base layout each leader leaves its rectangle's mid-right edge as one
   * horizontal segment of the configured length, and the callout sits one
   * padding past its end, at the same height.
   */
  lemma InitialGroupGeometry(stackup: StackupData, cfg: GraphicalConfig, render: Render, g: nat)
    requires g < |stackup.layers|
    ensures var grp := InitialGroup(stackup, cfg, render, g);
            var heights := LayerHeights(stackup, cfg);
            && grp.rect.Rectangle? && grp.leader.Leader? && grp.callout.Callout?
            && grp.rect.position == Point(cfg.originXMm, RectTop(stackup.layers, heights, cfg, g))
            && grp.rect.height == heights[g] && grp.rect.width == cfg.layerWidthMm
            && grp.leader.position
               == Point(grp.rect.position.x + grp.rect.width, grp.rect.position.y + grp.rect.height / 2.0)
            && grp.leader.style == Straight
            && grp.leader.endPosition
               == Point(grp.leader.position.x + cfg.leaderLineLengthMm, grp.leader.position.y)
            && grp.leader.segments == [Segment(grp.leader.position, grp.leader.endPosition)]
            && grp.callout.position
               == Point(grp.leader.endPosition.x + CalloutTextPaddingMm, grp.leader.endPosition.y)
  {
  }

  /** Total height is the sum of the heights plus two gaps per soldermask layer. */
  lemma LayoutHeightFormula(stackup: StackupData, cfg: GraphicalConfig)
    ensures LayoutHeight(stackup, cfg)
            == Sum(LayerHeights(stackup, cfg)) + 2.0 * EffectiveGap(cfg) * (SoldermaskCount(stackup.layers) as real)
  {
    var hs := LayerHeights(stackup, cfg);
    var n := |stackup.layers|;
    CursorIsRunningSum(stackup.layers, hs, cfg, n);
    assert hs[..n] == hs;
    assert stackup.layers[..n] == stackup.layers;
  }

  /** An empty stackup lays out to nothing, with zero height. */
  lemma EmptyStackupLayout(stackup: StackupData, cfg: GraphicalConfig, render: Render, elems: seq<Element>)
    requires stackup.layers == [] && IsInitialLayout(stackup, cfg, render, elems)
    ensures elems == [] && LayoutHeight(stackup, cfg) == 0.0
  {
  }

  // ---------------------------------------------------------------------
  // Collision detection
  // ---------------------------------------------------------------------

  /** Indices of the callouts among the first `k` elements, in list order. */
  function CalloutIndices(elems: seq<Element>, k: nat): (cs: seq<nat>)
    requires k <= |elems|
    ensures forall j :: 0 <= j < |cs| ==> cs[j] < k && elems[cs[j]].Callout?
    ensures forall j, j' :: 0 <= j < j' < |cs| ==> cs[j] < cs[j']
  {
    if k == 0 then []
    else CalloutIndices(elems, k - 1) + (if elems[k - 1].Callout? then [k - 1] else [])
  }

  /** No callout among the first `k` elements is missed. */
  lemma {:induction false} CalloutIndicesComplete(elems: seq<Element>, k: nat, x: nat)
    requires k <= |elems| && x < k && elems[x].Callout?
    ensures x in CalloutIndices(elems, k)
  {
    if x < k - 1 {
      CalloutIndicesComplete(elems, k - 1, x);
    }
  }

  /** Vertical position of each listed element. */
  function PositionsY(elems: seq<Element>, cs: seq<nat>): (ys: seq<real>)
    requires forall j :: 0 <= j < |cs| ==> cs[j] < |elems|
    ensures |ys| == |cs| && forall j :: 0 <= j < |cs| ==> ys[j] == elems[cs[j]].position.y
  {
    seq(|cs|, j requires 0 <= j < |cs| => elems[cs[j]].position.y)
  }

  /** Callouts `k` and `k + 1` are closer than the minimum spacing. */
  predicate Close(ys: seq<real>, k: int)
    requires 0 <= k && k + 1 < |ys|
  {
    Abs(ys[k + 1] - ys[k]) < MinCalloutSpacingMm
  }

  /** Callout `k` is too close to the callout before it or the one after it. */
  predicate Colliding(ys: seq<real>, k: int)
    requires 0 <= k < |ys|
  {
    (k > 0 && Close(ys, k - 1)) || (k + 1 < |ys| && Close(ys, k))
  }

  /** The colliding ones among the first `m` listed callouts, in list order. */
  function CollidingPrefix(cs: seq<nat>, ys: seq<real>, m: nat): (r: seq<nat>)
    requires |ys| == |cs| && m <= |cs|
    ensures |r| <= m
  {
    if m == 0 then []
    else CollidingPrefix(cs, ys, m - 1) + (if Colliding(ys, m - 1) then [cs[m - 1]] else [])
  }

  /** Exactly the colliding callouts among the first `m` are reported. */
  lemma {:induction false} CollidingPrefixMembers(cs: seq<nat>, ys: seq<real>, m: nat)
    requires |ys| == |cs| && m <= |cs|
    ensures forall x :: x in CollidingPrefix(cs, ys, m) ==> exists k :: 0 <= k < m && x == cs[k] && Colliding(ys, k)
    ensures forall k :: 0 <= k < m && Colliding(ys, k) ==> cs[k] in CollidingPrefix(cs, ys, m)
  {
    if m > 0 {
      CollidingPrefixMembers(cs, ys, m - 1);
    }
  }

  /** Every reported index among the first `m` callouts is below a bound that all of them are below. */
  lemma {:induction false} CollidingPrefixBelow(cs: seq<nat>, ys: seq<real>, m: nat, bound: nat)
    requires |ys| == |cs| && m <= |cs|
    requires forall k :: 0 <= k < m ==> cs[k] < bound
    ensures forall x :: x in CollidingPrefix(cs, ys, m) ==> x < bound
    ensures forall j :: 0 <= j < |CollidingPrefix(cs, ys, m)| ==> CollidingPrefix(cs, ys, m)[j] < bound
  {
    if m > 0 {
      CollidingPrefixBelow(cs, ys, m - 1, bound);
    }
  }

  /** Reported indices keep the increasing order of the callout list. */
  lemma {:induction false} CollidingPrefixSorted(cs: seq<nat>, ys: seq<real>, m: nat)
    requires |ys| == |cs| && m <= |cs|
    requires forall j, j' :: 0 <= j < j' < |cs| ==> cs[j] < cs[j']
    ensures forall j, j' :: 0 <= j < j' < |CollidingPrefix(cs, ys, m)| ==>
              CollidingPrefix(cs, ys, m)[j] < CollidingPrefix(cs, ys, m)[j']
  {
    if m > 0 {
      var prev := CollidingPrefix(cs, ys, m - 1);
      CollidingPrefixSorted(cs, ys, m - 1);
      CollidingPrefixBelow(cs, ys, m - 1, cs[m - 1]);
    }
  }

  /** Every reported index is one of the listed callouts' indices. */
  lemma {:induction false} CollidingPrefixCallouts(elems: seq<Element>, cs: seq<nat>, ys: seq<real>, m: nat)
    requires |ys| == |cs| && m <= |cs|
    requires forall j :: 0 <= j < |cs| ==> cs[j] < |elems| && elems[cs[j]].Callout?
    ensures forall j :: 0 <= j < |CollidingPrefix(cs, ys, m)| ==>
              CollidingPrefix(cs, ys, m)[j] < |elems| && elems[CollidingPrefix(cs, ys, m)[j]].Callout?
  {
    if m > 0 {
      CollidingPrefixCallouts(elems, cs, ys, m - 1);
    }
  }

  /** Indices of all callouts that collide with a neighbouring callout. */
  function CollidingCallouts(elems: seq<Element>): (r: seq<nat>)
    ensures forall j :: 0 <= j < |r| ==> r[j] < |elems| && elems[r[j]].Callout?
    ensures forall j, j' :: 0 <= j < j' < |r| ==> r[j] < r[j']
  {
    var cs := CalloutIndices(elems, |elems|);
    var ys := PositionsY(elems, cs);
    CollidingPrefixCallouts(elems, cs, ys, |cs|);
    CollidingPrefixSorted(cs, ys, |cs|);
    CollidingPrefix(cs, ys, |cs|)
  }

  /**
   * Both callouts of every adjacent pair closer than the minimum spacing are
   * reported, and every reported callout belongs to such a pair.
   */
  lemma CollisionsAreClosePairs(elems: seq<Element>)
    ensures var cs := CalloutIndices(elems, |elems|);
            var ys := PositionsY(elems, cs);
            && (forall k :: 0 <= k && k + 1 < |cs| && Close(ys, k) ==>
                  cs[k] in CollidingCallouts(elems) && cs[k + 1] in CollidingCallouts(elems))
            && (forall x :: x in CollidingCallouts(elems) ==>
                  exists k :: 0 <= k < |cs| && x == cs[k] && Colliding(ys, k))
  {
    var cs := CalloutIndices(elems, |elems|);
    var ys := PositionsY(elems, cs);
    CollidingPrefixMembers(cs, ys, |cs|);
    forall k | 0 <= k && k + 1 < |cs| && Close(ys, k)
      ensures cs[k] in CollidingCallouts(elems) && cs[k + 1] in CollidingCallouts(elems)
    {
      assert Colliding(ys, k) && Colliding(ys, k + 1);
    }
  }

  /** No two adjacent callouts are closer than the minimum spacing. */
  predicate WellSpaced(ys: seq<real>)
  {
    forall k :: 0 <= k && k + 1 < |ys| ==> !Close(ys, k)
  }

  /** Callouts that are all at least the minimum spacing apart give no collisions. */
  lemma SpreadCalloutsDoNotCollide(elems: seq<Element>)
    requires WellSpaced(PositionsY(elems, CalloutIndices(elems, |elems|)))
    ensures |CollidingCallouts(elems)| == 0
  {
    var cs := CalloutIndices(elems, |elems|);
    var ys := PositionsY(elems, cs);
    CollidingPrefixNone(cs, ys, |cs|);
  }

  /** With no colliding callout among the first `m`, nothing is reported. */
  lemma {:induction false} CollidingPrefixNone(cs: seq<nat>, ys: seq<real>, m: nat)
    requires |ys| == |cs| && m <= |cs| && WellSpaced(ys)
    ensures CollidingPrefix(cs, ys, m) == []
  {
    if m > 0 {
      CollidingPrefixNone(cs, ys, m - 1);
      var k := m - 1;
      if k > 0 {
        assert !Close(ys, k - 1);
      }
    }
  }

  /** `r` with `x` appended unless it is already there. */
  function AddOnce(r: seq<nat>, x: nat): seq<nat>
  {
    if x in r then r else r + [x]
  }

  /** What the detection loop has reported before it looks at pair (`i`, `i + 1`). */
  function DetectState(cs: seq<nat>, ys: seq<real>, i: nat): seq<nat>
    requires |ys| == |cs| && i < |cs|
  {
    CollidingPrefix(cs, ys, i) + (if i > 0 && Close(ys, i - 1) then [cs[i]] else [])
  }

  /** One pass of the detection loop over the pair (`i`, `i + 1`). */
  lemma DetectStep(cs: seq<nat>, ys: seq<real>, i: nat)
    requires |ys| == |cs| && i + 1 < |cs|
    requires forall j, j' :: 0 <= j < j' < |cs| ==> cs[j] < cs[j']
    ensures Close(ys, i) ==> AddOnce(AddOnce(DetectState(cs, ys, i), cs[i]), cs[i + 1]) == DetectState(cs, ys, i + 1)
    ensures !Close(ys, i) ==> DetectState(cs, ys, i) == DetectState(cs, ys, i + 1)
  {
    CollidingPrefixBelow(cs, ys, i, cs[i]);
    CollidingPrefixBelow(cs, ys, i + 1, cs[i + 1]);
  }

  /** When the loop has looked at every adjacent pair, the pending callout closes the report. */
  lemma DetectEnd(cs: seq<nat>, ys: seq<real>)
    requires |ys| == |cs| && |cs| > 0
    ensures DetectState(cs, ys, |cs| - 1) == CollidingPrefix(cs, ys, |cs|)
  {
  }

  /** Two listed callouts are close exactly when their vertical gap is under the minimum spacing. */
  lemma CloseIsGap(elems: seq<Element>, cs: seq<nat>, i: nat)
    requires forall j :: 0 <= j < |cs| ==> cs[j] < |elems|
    requires i + 1 < |cs|
    ensures Close(PositionsY(elems, cs), i)
            <==> Abs(elems[cs[i + 1]].position.y - elems[cs[i]].position.y) < MinCalloutSpacingMm
  {
  }

  method DetectCalloutCollisions(viz: Visualization) returns (collisionIndices: seq<nat>)
    ensures collisionIndices == CollidingCallouts(viz.elements)
  {
    var elems := viz.elements;
    var callouts := CalloutIndices(elems, |elems|);
    ghost var ys := PositionsY(elems, callouts);
    collisionIndices := [];
    var i := 0;
    while i < |callouts| - 1
      invariant |callouts| == |ys| && (|callouts| == 0 || i < |callouts|)
      invariant |callouts| == 0 ==> collisionIndices == []
      invariant |callouts| > 0 ==> collisionIndices == DetectState(callouts, ys, i)
    {
      DetectStep(callouts, ys, i);
      CloseIsGap(elems, callouts, i);
      var idx1, idx2 := callouts[i], callouts[i + 1];
      var y1 := elems[idx1].position.y;
      var y2 := elems[idx2].position.y;
      var verticalGap := Abs(y2 - y1);
      if verticalGap < MinCalloutSpacingMm {
        if idx1 !in collisionIndices {
          collisionIndices := collisionIndices + [idx1];
        }
        if idx2 !in collisionIndices {
          collisionIndices := collisionIndices + [idx2];
        }
      }
      i := i + 1;
    }
    if |callouts| > 0 {
      DetectEnd(callouts, ys);
    }
  }

  // ---------------------------------------------------------------------
  // Symmetric repositioning
  // ---------------------------------------------------------------------

  /** Vertical centre of the element in a group's rectangle slot. */
  function RectCenterY(e: Element, cfg: GraphicalConfig): real
  {
    var h := if e.Rectangle? then e.height else cfg.uniformLayerHeightMm;
    e.position.y + h / 2.0
  }

  /** Offset of the `i`-th of `n` adjusted callouts: whole units away from the middle one. */
  function Displacement(i: int, n: int, unit: real): real
  {
    var c := n / 2;
    if i == c then 0.0
    else if i < c then -((c - i) as real) * unit
    else ((i - c) as real) * unit
  }

  /** The three cases are one formula: the signed distance from the middle index, in units. */
  lemma DisplacementIsOffsetFromMiddle(i: int, n: int, unit: real)
    ensures Displacement(i, n, unit) == ((i - n / 2) as real) * unit
  {
  }

  /** With an odd count the offsets are mirror images around the middle. */
  lemma DisplacementMirrored(i: int, n: int, unit: real)
    requires n % 2 == 1 && 0 <= i < n
    ensures Displacement(n - 1 - i, n, unit) == -Displacement(i, n, unit)
  {
    DisplacementIsOffsetFromMiddle(i, n, unit);
    DisplacementIsOffsetFromMiddle(n - 1 - i, n, unit);
    assert (n - 1 - i) - n / 2 == -(i - n / 2);
  }

  lemma AtLeastOneUnit(d: int, unit: real)
    requires d >= 1 && unit > 0.0
    ensures (d as real) * unit >= unit
  {
    assert (d as real) * unit == unit + ((d - 1) as real) * unit;
  }

  /** Only the middle group is displaced by less than one unit; every other is at least one unit away. */
  lemma StraightExactlyAtMiddle(i: int, n: int, unit: real)
    requires unit > 0.0
    ensures Abs(Displacement(i, n, unit)) < unit <==> i == n / 2
    ensures i != n / 2 ==> Abs(Displacement(i, n, unit)) >= unit
  {
    var c := n / 2;
    if i < c {
      AtLeastOneUnit(c - i, unit);
    } else if i > c {
      AtLeastOneUnit(i - c, unit);
    }
  }

  /** A list of (rectangle, leader, callout) index triples. */
  datatype GroupIndex = GroupIndex(rectIdx: nat, leaderIdx: nat, calloutIdx: nat)

  method CalculateSymmetricPositions(groups: seq<GroupIndex>, elems: seq<Element>, cfg: GraphicalConfig)
    returns (positions: seq<real>)
    requires forall k :: 0 <= k < |groups| ==> groups[k].rectIdx < |elems|
    ensures |positions| == |groups|
    ensures forall k :: 0 <= k < |groups| ==>
              positions[k] == RectCenterY(elems[groups[k].rectIdx], cfg) + Displacement(k, |groups|, cfg.minElbowHeightMm)
  {
    var totalGroups := |groups|;
    positions := [];
    var centerIdx := totalGroups / 2;
    var spacingUnit := cfg.minElbowHeightMm;
    var i := 0;
    while i < totalGroups
      invariant i <= totalGroups && |positions| == i
      invariant forall k :: 0 <= k < i ==>
                  positions[k] == RectCenterY(elems[groups[k].rectIdx], cfg) + Displacement(k, totalGroups, spacingUnit)
    {
      var rect := elems[groups[i].rectIdx];
      var rectHeight := if rect.Rectangle? then rect.height else cfg.uniformLayerHeightMm;
      var rectCenterY := rect.position.y + rectHeight / 2.0;
      var displacement;
      if i == centerIdx {
        displacement := 0.0;
      } else if i < centerIdx {
        var unitsFromCenter := centerIdx - i;
        displacement := -(unitsFromCenter as real) * spacingUnit;
      } else {
        var unitsFromCenter := i - centerIdx;
        displacement := (unitsFromCenter as real) * spacingUnit;
      }
      positions := positions + [rectCenterY + displacement];
      i := i + 1;
    }
  }

  method CalculateElbowHeights(groups: seq<GroupIndex>, positions: seq<real>, elems: seq<Element>,
                               cfg: GraphicalConfig) returns (elbowHeights: seq<real>)
    requires |groups| <= |positions|
    requires forall k :: 0 <= k < |groups| ==> groups[k].rectIdx < |elems|
    ensures |elbowHeights| == |groups|
    ensures forall k :: 0 <= k < |groups| ==>
              elbowHeights[k] == Abs(positions[k] - RectCenterY(elems[groups[k].rectIdx], cfg))
  {
    elbowHeights := [];
    var i := 0;
    while i < |groups|
      invariant i <= |groups| && |elbowHeights| == i
      invariant forall k :: 0 <= k < i ==>
                  elbowHeights[k] == Abs(positions[k] - RectCenterY(elems[groups[k].rectIdx], cfg))
    {
      var rect := elems[groups[i].rectIdx];
      var rectHeight := if rect.Rectangle? then rect.height else cfg.uniformLayerHeightMm;
      var rectCenterY := rect.position.y + rectHeight / 2.0;
      elbowHeights := elbowHeights + [Abs(positions[i] - rectCenterY)];
      i := i + 1;
    }
  }

  /** An elbow shorter than the minimum is drawn as a straight leader instead. */
  predicate ShouldUseStraightLine(elbowHeight: real, cfg: GraphicalConfig)
  {
    elbowHeight < cfg.minElbowHeightMm
  }

  /** Symmetric positions: the elbow of the `k`-th group is its displacement's size. */
  lemma SymmetricElbowHeights(centre: real, k: int, n: int, unit: real)
    requires unit > 0.0
    ensures var e := Abs(centre + Displacement(k, n, unit) - centre);
            && e == Abs(Displacement(k, n, unit))
            && (e < unit <==> k == n / 2)
  {
    StraightExactlyAtMiddle(k, n, unit);
  }

  /** A callout moved to exactly the minimum elbow, on the side it was already on. */
  function PushedToMinimum(position: real, centre: real, minElbow: real): real
  {
    if position > centre then centre + minElbow else centre - minElbow
  }

  /**
   * After the push every elbow is at least the minimum, and a callout below
   * (above) its layer's centre stays below (above) it.
   */
  lemma PushedElbowMeetsMinimum(position: real, centre: real, minElbow: real)
    requires minElbow >= 0.0
    ensures var a := if Abs(position - centre) < minElbow then PushedToMinimum(position, centre, minElbow) else position;
            && Abs(a - centre) >= minElbow
            && (position > centre ==> a > centre)
            && (position < centre ==> a < centre)
  {
  }

  method AdjustSpacingForMinimumElbows(groups: seq<GroupIndex>, positions: seq<real>, elbowHeights: seq<real>,
                                       elems: seq<Element>, cfg: GraphicalConfig) returns (adjusted: seq<real>)
    requires |groups| <= |positions| && |groups| <= |elbowHeights|
    requires forall k :: 0 <= k < |groups| ==> groups[k].rectIdx < |elems|
    ensures |adjusted| == |positions|
    ensures forall k :: 0 <= k < |groups| ==>
              adjusted[k] == if elbowHeights[k] < cfg.minElbowHeightMm
                             then PushedToMinimum(positions[k], RectCenterY(elems[groups[k].rectIdx], cfg), cfg.minElbowHeightMm)
                             else positions[k]
    ensures forall k :: |groups| <= k < |positions| ==> adjusted[k] == positions[k]
  {
    adjusted := positions;
    var i := 0;
    while i < |groups|
      invariant i <= |groups| && |adjusted| == |positions|
      invariant forall k :: 0 <= k < i ==>
                  adjusted[k] == if elbowHeights[k] < cfg.minElbowHeightMm
                                 then PushedToMinimum(positions[k], RectCenterY(elems[groups[k].rectIdx], cfg), cfg.minElbowHeightMm)
                                 else positions[k]
      invariant forall k :: i <= k < |positions| ==> adjusted[k] == positions[k]
    {
      if elbowHeights[i] < cfg.minElbowHeightMm {
        var rect := elems[groups[i].rectIdx];
        var rectHeight := if rect.Rectangle? then rect.height else cfg.uniformLayerHeightMm;
        var rectCenterY := rect.position.y + rectHeight / 2.0;
        if adjusted[i] > rectCenterY {
          adjusted := adjusted[i := rectCenterY + cfg.minElbowHeightMm];
        } else {
          adjusted := adjusted[i := rectCenterY - cfg.minElbowHeightMm];
        }
      }
      i := i + 1;
    }
  }

  // ---------------------------------------------------------------------
  // Leader re-routing
  // ---------------------------------------------------------------------

  /** Index triples of the first `n` elements' complete groups. */
  function CalloutGroups(n: nat): (gs: seq<GroupIndex>)
    ensures |gs| == n / 3
    ensures forall g :: 0 <= g < |gs| ==> gs[g] == GroupIndex(3 * g, 3 * g + 1, 3 * g + 2) && 3 * g + 2 < n
    ensures forall g: nat :: 3 * g + 2 < n ==> g < |gs|
  {
    seq(n / 3, g requires 0 <= g => GroupIndex(3 * g, 3 * g + 1, 3 * g + 2))
  }

  /** A listed group is a whole triple `(3g, 3g+1, 3g+2)` inside the list. */
  lemma InCalloutGroups(n: nat, gi: GroupIndex)
    requires gi in CalloutGroups(n)
    ensures gi.rectIdx % 3 == 0 && gi.leaderIdx == gi.rectIdx + 1 && gi.calloutIdx == gi.rectIdx + 2
    ensures gi.calloutIdx < n
  {
    var gs := CalloutGroups(n);
    var g :| 0 <= g < |gs| && gs[g] == gi;
  }

  /** Stepping the group scan by three either adds the next whole triple or reaches the end. */
  lemma CalloutGroupsStep(i: nat, n: nat)
    requires i % 3 == 0 && i < n
    ensures CalloutGroups(if i + 3 <= n then i + 3 else n)
            == CalloutGroups(i) + (if i + 2 < n then [GroupIndex(i, i + 1, i + 2)] else [])
  {
    if i + 2 < n {
      assert (i + 3) / 3 == i / 3 + 1;
      assert CalloutGroups(i + 3)[..i / 3] == CalloutGroups(i);
    } else {
      assert n / 3 == i / 3;
    }
  }

  /** The groups whose callout is among the colliding ones, in their original order. */
  function GroupsToAdjust(groups: seq<GroupIndex>, collisions: seq<nat>): (r: seq<GroupIndex>)
    ensures |r| <= |groups|
    decreases |groups|
  {
    if groups == [] then []
    else
      var last := groups[|groups| - 1];
      GroupsToAdjust(groups[..|groups| - 1], collisions) + (if last.calloutIdx in collisions then [last] else [])
  }

  /** Exactly the groups whose callout collides are kept. */
  lemma {:induction false} GroupsToAdjustMembers(groups: seq<GroupIndex>, collisions: seq<nat>)
    ensures forall k :: 0 <= k < |GroupsToAdjust(groups, collisions)| ==>
              GroupsToAdjust(groups, collisions)[k] in groups
              && GroupsToAdjust(groups, collisions)[k].calloutIdx in collisions
    ensures forall gi :: gi in groups && gi.calloutIdx in collisions ==> gi in GroupsToAdjust(groups, collisions)
    decreases |groups|
  {
    if groups != [] {
      var init := groups[..|groups| - 1];
      GroupsToAdjustMembers(init, collisions);
      assert forall gi :: gi in groups ==> gi in init || gi == groups[|groups| - 1];
    }
  }

  /** Kept groups stay in their original order. */
  lemma {:induction false} GroupsToAdjustSorted(groups: seq<GroupIndex>, collisions: seq<nat>)
    requires forall k, k' :: 0 <= k < k' < |groups| ==> groups[k].rectIdx < groups[k'].rectIdx
    ensures forall k, k' :: 0 <= k < k' < |GroupsToAdjust(groups, collisions)| ==>
              GroupsToAdjust(groups, collisions)[k].rectIdx < GroupsToAdjust(groups, collisions)[k'].rectIdx
    decreases |groups|
  {
    if groups != [] {
      var init := groups[..|groups| - 1];
      GroupsToAdjustSorted(init, collisions);
      GroupsToAdjustMembers(init, collisions);
      var prev := GroupsToAdjust(init, collisions);
      forall k | 0 <= k < |prev|
        ensures prev[k].rectIdx < groups[|groups| - 1].rectIdx
      {
        var j :| 0 <= j < |init| && init[j] == prev[k];
      }
    }
  }

  /** With no collisions no group is kept. */
  lemma {:induction false} GroupsToAdjustNone(groups: seq<GroupIndex>)
    ensures GroupsToAdjust(groups, []) == []
    decreases |groups|
  {
    if groups != [] {
      GroupsToAdjustNone(groups[..|groups| - 1]);
    }
  }

  /**
   * Groups that can be re-routed: each is a whole triple `(3g, 3g+1, 3g+2)`
   * inside the list with a callout in its last slot, listed in increasing order.
   */
  ghost predicate AdjustableGroups(elems: seq<Element>, adj: seq<GroupIndex>)
  {
    && (forall k :: 0 <= k < |adj| ==>
          && adj[k].rectIdx % 3 == 0
          && adj[k].leaderIdx == adj[k].rectIdx + 1
          && adj[k].calloutIdx == adj[k].rectIdx + 2
          && adj[k].calloutIdx < |elems|
          && elems[adj[k].calloutIdx].Callout?)
    && (forall k, k' :: 0 <= k < k' < |adj| ==> adj[k].rectIdx < adj[k'].rectIdx)
  }

  /** The groups chosen from a list's colliding callouts can be re-routed. */
  lemma GroupsToAdjustAreAdjustable(elems: seq<Element>)
    ensures AdjustableGroups(elems, GroupsToAdjust(CalloutGroups(|elems|), CollidingCallouts(elems)))
  {
    var gs := CalloutGroups(|elems|);
    var collisions := CollidingCallouts(elems);
    var adj := GroupsToAdjust(gs, collisions);
    GroupsToAdjustMembers(gs, collisions);
    GroupsToAdjustSorted(gs, collisions);
    forall k | 0 <= k < |adj|
      ensures adj[k].rectIdx % 3 == 0 && adj[k].leaderIdx == adj[k].rectIdx + 1
      ensures adj[k].calloutIdx == adj[k].rectIdx + 2 && adj[k].calloutIdx < |elems|
      ensures elems[adj[k].calloutIdx].Callout?
    {
      InCalloutGroups(|elems|, adj[k]);
      var j :| 0 <= j < |collisions| && collisions[j] == adj[k].calloutIdx;
    }
  }

  /** Vertical centre of the `k`-th adjusted group's layer. */
  function GroupCentre(elems: seq<Element>, adj: seq<GroupIndex>, cfg: GraphicalConfig, k: nat): real
    requires AdjustableGroups(elems, adj) && k < |adj|
  {
    RectCenterY(elems[adj[k].rectIdx], cfg)
  }

  /** Symmetric target height of the `k`-th adjusted group's callout. */
  function GroupTarget(elems: seq<Element>, adj: seq<GroupIndex>, cfg: GraphicalConfig, k: nat): real
    requires AdjustableGroups(elems, adj) && k < |adj|
  {
    GroupCentre(elems, adj, cfg, k) + Displacement(k, |adj|, cfg.minElbowHeightMm)
  }

  /** A straight leader from the stack's right edge at height `centre`, one leader length long. */
  function StraightLeader(centre: real, cfg: GraphicalConfig): (e: Element)
    ensures e.Leader?
  {
    var start := Point(cfg.originXMm + cfg.layerWidthMm, centre);
    var end := Point(start.x + cfg.leaderLineLengthMm, centre);
    Leader(start, end, Straight, [Segment(start, end)])
  }

  /**
   * An elbowed leader from height `centre` to height `target`: horizontal for
   * 40 % of the length, a 45-degree run, and the rest horizontal again.
   */
  function ElbowLeader(centre: real, target: real, cfg: GraphicalConfig): (e: Element)
    ensures e.Leader?
  {
    var start := Point(cfg.originXMm + cfg.layerWidthMm, centre);
    var style := if target > centre then AngledDown else AngledUp;
    var horizontalLen := cfg.leaderLineLengthMm * 0.4;
    var angleLen := Abs(target - centre);
    var remaining := cfg.leaderLineLengthMm - horizontalLen - angleLen;
    var mid1 := Point(start.x + horizontalLen, centre);
    var mid2 := Point(mid1.x + angleLen, target);
    var end := Point(mid2.x + remaining, target);
    Leader(start, end, style, [Segment(start, mid1), Segment(mid1, mid2), Segment(mid2, end)])
  }

  /** The leader of a group: straight when the elbow would be under the minimum, elbowed otherwise. */
  function ResolvedLeader(centre: real, target: real, cfg: GraphicalConfig): (e: Element)
    ensures e.Leader?
  {
    if ShouldUseStraightLine(Abs(target - centre), cfg) then StraightLeader(centre, cfg)
    else ElbowLeader(centre, target, cfg)
  }

  /** A callout moved to one padding past a leader's end, keeping its text and style. */
  function CalloutAfter(prior: Element, leader: Element): (e: Element)
    requires prior.Callout? && leader.Leader?
    ensures e.Callout? && e.text == prior.text && e.fontSize == prior.fontSize
    ensures e.horizontalAlign == prior.horizontalAlign && e.verticalAlign == prior.verticalAlign
  {
    Callout(Point(leader.endPosition.x + CalloutTextPaddingMm, leader.endPosition.y),
            prior.text, prior.fontSize, prior.horizontalAlign, prior.verticalAlign)
  }

  /** The callout of a re-routed group. */
  function ResolvedCallout(prior: Element, centre: real, target: real, cfg: GraphicalConfig): (e: Element)
    requires prior.Callout?
    ensures e.Callout?
  {
    CalloutAfter(prior, ResolvedLeader(centre, target, cfg))
  }

  /**
   * Shape of a re-routed leader. It starts at the stack's right edge at the
   * layer's centre and always ends one leader length further right. It is
   * straight exactly when the elbow would be under the minimum. Otherwise its
   * three segments are contiguous: horizontal, then a 45-degree run to the
   * target height (down when the target is lower), then horizontal. The last
   * run points back left exactly when the elbow is longer than 60 % of the
   * leader. The callout sits one padding past the end.
   */
  lemma ResolvedLeaderGeometry(prior: Element, centre: real, target: real, cfg: GraphicalConfig)
    requires prior.Callout?
    ensures var e := ResolvedLeader(centre, target, cfg);
            var c := ResolvedCallout(prior, centre, target, cfg);
            var startX := cfg.originXMm + cfg.layerWidthMm;
            && e.position == Point(startX, centre)
            && e.endPosition.x == startX + cfg.leaderLineLengthMm
            && c.position == Point(e.endPosition.x + CalloutTextPaddingMm, e.endPosition.y)
            && (e.style == Straight <==> Abs(target - centre) < cfg.minElbowHeightMm)
            && (e.style == Straight ==>
                  e.endPosition.y == centre && e.segments == [Segment(e.position, e.endPosition)])
            && (e.style != Straight ==>
                  && e.endPosition.y == target
                  && (e.style == AngledDown <==> target > centre)
                  && |e.segments| == 3
                  && e.segments[0].start == e.position
                  && e.segments[0].end == e.segments[1].start
                  && e.segments[1].end == e.segments[2].start
                  && e.segments[2].end == e.endPosition
                  && e.segments[0].end.y == centre
                  && e.segments[0].end.x - e.segments[0].start.x == cfg.leaderLineLengthMm * 0.4
                  && e.segments[1].end.x - e.segments[1].start.x == Abs(e.segments[1].end.y - e.segments[1].start.y)
                  && e.segments[2].start.y == e.segments[2].end.y
                  && (e.segments[2].end.x < e.segments[2].start.x <==>
                        Abs(target - centre) > cfg.leaderLineLengthMm * 0.6))
  {
  }

  /** The list after re-routing the first `m` adjusted groups, reading layer centres from the original list. */
  ghost function Resolve(elems: seq<Element>, adj: seq<GroupIndex>, cfg: GraphicalConfig, m: nat): (r: seq<Element>)
    requires AdjustableGroups(elems, adj) && m <= |adj|
    ensures |r| == |elems|
  {
    if m == 0 then elems
    else
      var k := m - 1;
      var centre := GroupCentre(elems, adj, cfg, k);
      var target := GroupTarget(elems, adj, cfg, k);
      Resolve(elems, adj, cfg, k)[adj[k].leaderIdx := ResolvedLeader(centre, target, cfg)]
                                 [adj[k].calloutIdx := ResolvedCallout(elems[adj[k].calloutIdx], centre, target, cfg)]
  }

  /** Distinct adjusted groups never share a slot. */
  lemma GroupSlotsDisjoint(elems: seq<Element>, adj: seq<GroupIndex>, k: nat, k': nat)
    requires AdjustableGroups(elems, adj) && k < |adj| && k' < |adj| && k != k'
    ensures adj[k].rectIdx != adj[k'].leaderIdx && adj[k].rectIdx != adj[k'].calloutIdx
    ensures adj[k].leaderIdx != adj[k'].leaderIdx && adj[k].leaderIdx != adj[k'].calloutIdx
    ensures adj[k].calloutIdx != adj[k'].leaderIdx && adj[k].calloutIdx != adj[k'].calloutIdx
  {
  }

  /** Re-routing leaves every slot that is not an adjusted leader or callout as it was. */
  lemma {:induction false} ResolveFrame(elems: seq<Element>, adj: seq<GroupIndex>, cfg: GraphicalConfig, m: nat, j: nat)
    requires AdjustableGroups(elems, adj) && m <= |adj| && j < |elems|
    requires forall k :: 0 <= k < m ==> j != adj[k].leaderIdx && j != adj[k].calloutIdx
    ensures Resolve(elems, adj, cfg, m)[j] == elems[j]
  {
    if m > 0 {
      ResolveFrame(elems, adj, cfg, m - 1, j);
    }
  }

  /** Re-routing one more group overwrites its leader and then its callout. */
  lemma ResolveStep(elems: seq<Element>, adj: seq<GroupIndex>, cfg: GraphicalConfig, k: nat)
    requires AdjustableGroups(elems, adj) && k < |adj|
    ensures Resolve(elems, adj, cfg, k + 1)
            == Resolve(elems, adj, cfg, k)
                 [adj[k].leaderIdx := ResolvedLeader(GroupCentre(elems, adj, cfg, k), GroupTarget(elems, adj, cfg, k), cfg)]
                 [adj[k].calloutIdx := ResolvedCallout(elems[adj[k].calloutIdx], GroupCentre(elems, adj, cfg, k),
                                                       GroupTarget(elems, adj, cfg, k), cfg)]
  {
  }

  /** When group `k` is re-routed, its rectangle and callout slots still hold the original elements. */
  lemma ResolveReadsOriginal(elems: seq<Element>, adj: seq<GroupIndex>, cfg: GraphicalConfig, k: nat)
    requires AdjustableGroups(elems, adj) && k < |adj|
    ensures Resolve(elems, adj, cfg, k)[adj[k].rectIdx] == elems[adj[k].rectIdx]
    ensures Resolve(elems, adj, cfg, k)[adj[k].calloutIdx] == elems[adj[k].calloutIdx]
  {
    forall k' | 0 <= k' < k
      ensures adj[k].rectIdx != adj[k'].leaderIdx && adj[k].rectIdx != adj[k'].calloutIdx
      ensures adj[k].calloutIdx != adj[k'].leaderIdx && adj[k].calloutIdx != adj[k'].calloutIdx
    {
      GroupSlotsDisjoint(elems, adj, k, k');
    }
    ResolveFrame(elems, adj, cfg, k, adj[k].rectIdx);
    ResolveFrame(elems, adj, cfg, k, adj[k].calloutIdx);
  }

  /** After re-routing, the `k`-th adjusted group holds its resolved leader and callout. */
  lemma {:induction false} ResolveAt(elems: seq<Element>, adj: seq<GroupIndex>, cfg: GraphicalConfig, m: nat, k: nat)
    requires AdjustableGroups(elems, adj) && k < m <= |adj|
    ensures var centre := GroupCentre(elems, adj, cfg, k);
            var target := GroupTarget(elems, adj, cfg, k);
            && Resolve(elems, adj, cfg, m)[adj[k].leaderIdx] == ResolvedLeader(centre, target, cfg)
            && Resolve(elems, adj, cfg, m)[adj[k].calloutIdx]
               == ResolvedCallout(elems[adj[k].calloutIdx], centre, target, cfg)
  {
    if k < m - 1 {
      ResolveAt(elems, adj, cfg, m - 1, k);
      GroupSlotsDisjoint(elems, adj, k, m - 1);
    }
  }

  /** The groups of a list whose callout collides with a neighbour, in list order. */
  function AdjustedGroupsOf(elems: seq<Element>): seq<GroupIndex>
  {
    GroupsToAdjust(CalloutGroups(|elems|), CollidingCallouts(elems))
  }

  /** The result of collision avoidance: the input when nothing collides, otherwise the re-routed list. */
  ghost function AdjustedLayout(viz: Visualization, cfg: GraphicalConfig): (r: Visualization)
    ensures |r.elements| == |viz.elements|
    ensures r.totalWidth == viz.totalWidth && r.totalHeight == viz.totalHeight && r.layerCount == viz.layerCount
    ensures viz.bounds != ZeroBounds ==> r.bounds == viz.bounds
  {
    var adj := AdjustedGroupsOf(viz.elements);
    if adj == [] then viz
    else
      GroupsToAdjustAreAdjustable(viz.elements);
      NewVisualization(Resolve(viz.elements, adj, cfg, |adj|), viz.totalWidth, viz.totalHeight,
                       viz.layerCount, viz.bounds)
  }

  /** Re-route every adjusted group: symmetric targets, then a straight or elbowed leader per group. */
  method RerouteGroups(elems: seq<Element>, groupsToAdjust: seq<GroupIndex>, cfg: GraphicalConfig)
    returns (updated: seq<Element>)
    requires AdjustableGroups(elems, groupsToAdjust)
    ensures updated == Resolve(elems, groupsToAdjust, cfg, |groupsToAdjust|)
  {
    updated := elems;
    var newCalloutPositions := CalculateSymmetricPositions(groupsToAdjust, updated, cfg);
    var elbowHeights := CalculateElbowHeights(groupsToAdjust, newCalloutPositions, updated, cfg);
    var k := 0;
    while k < |groupsToAdjust|
      invariant k <= |groupsToAdjust|
      invariant updated == Resolve(elems, groupsToAdjust, cfg, k)
    {
      var g := groupsToAdjust[k];
      ResolveReadsOriginal(elems, groupsToAdjust, cfg, k);
      var rect := updated[g.rectIdx];
      var rectHeight := if rect.Rectangle? then rect.height else cfg.uniformLayerHeightMm;
      var rectCenterY := rect.position.y + rectHeight / 2.0;
      var newCalloutY := newCalloutPositions[k];
      var elbowHeight := elbowHeights[k];
      var callout := updated[g.calloutIdx];
      ghost var centre := GroupCentre(elems, groupsToAdjust, cfg, k);
      ghost var target := GroupTarget(elems, groupsToAdjust, cfg, k);
      assert rectCenterY == centre && newCalloutY == target;
      assert elbowHeight == Abs(target - centre);
      var newLeader;
      if ShouldUseStraightLine(elbowHeight, cfg) {
        newLeader := StraightLeader(rectCenterY, cfg);
      } else {
        newLeader := ElbowLeader(rectCenterY, newCalloutY, cfg);
      }
      var updatedCallout := CalloutAfter(callout, newLeader);
      ResolveStep(elems, groupsToAdjust, cfg, k);
      assert newLeader == ResolvedLeader(centre, target, cfg);
      updated := updated[g.leaderIdx := newLeader][g.calloutIdx := updatedCallout];
      k := k + 1;
    }
  }

  method AdjustLeaderLines(viz: Visualization, cfg: GraphicalConfig) returns (result: Visualization)
    ensures result == AdjustedLayout(viz, cfg)
  {
    var collisionIndices := DetectCalloutCollisions(viz);
    if collisionIndices == [] {
      GroupsToAdjustNone(CalloutGroups(|viz.elements|));
      return viz;
    }
    var elems := viz.elements;
    var n := |elems|;
    var calloutGroups: seq<GroupIndex> := [];
    var i := 0;
    while i < n
      invariant i % 3 == 0 && i <= n + 2
      invariant calloutGroups == CalloutGroups(if i <= n then i else n)
    {
      CalloutGroupsStep(i, n);
      if i + 2 < n {
        calloutGroups := calloutGroups + [GroupIndex(i, i + 1, i + 2)];
      }
      i := i + 3;
    }
    assert calloutGroups == CalloutGroups(n);
    var groupsToAdjust := GroupsToAdjust(calloutGroups, collisionIndices);
    if groupsToAdjust == [] {
      return viz;
    }
    GroupsToAdjustAreAdjustable(elems);
    var updated := RerouteGroups(elems, groupsToAdjust, cfg);
    result := NewVisualization(updated, viz.totalWidth, viz.totalHeight, viz.layerCount, viz.bounds);
  }

  // ---------------------------------------------------------------------
  // What collision avoidance promises
  // ---------------------------------------------------------------------

  /** When no callouts collide the visualization comes back unchanged. */
  lemma AdjustWithoutCollisionsIsIdentity(viz: Visualization, cfg: GraphicalConfig)
    requires |CollidingCallouts(viz.elements)| == 0
    ensures AdjustedLayout(viz, cfg) == viz
  {
    GroupsToAdjustNone(CalloutGroups(|viz.elements|));
  }

  /** The leader and callout slots of the group starting at `r` lie off the multiples of three, in that group. */
  lemma SlotsOfGroup(r: nat, j: nat)
    requires r % 3 == 0
    ensures j == r + 1 || j == r + 2 ==> j % 3 != 0 && 3 * (j / 3) + 2 == r + 2
  {
  }

  /**
   * Collision avoidance keeps every element that is a rectangle slot or
   * belongs to a group whose callout does not collide.
   */
  lemma AdjustKeepsFrame(viz: Visualization, cfg: GraphicalConfig, j: nat)
    requires j < |viz.elements|
    requires j % 3 == 0 || 3 * (j / 3) + 2 !in CollidingCallouts(viz.elements)
    ensures AdjustedLayout(viz, cfg).elements[j] == viz.elements[j]
  {
    var elems := viz.elements;
    var adj := AdjustedGroupsOf(elems);
    AdjustedElements(viz, cfg);
    NotAnAdjustedSlot(elems, j);
    ResolveFrame(elems, adj, cfg, |adj|, j);
  }

  /** A rectangle slot, or a slot of a group whose callout does not collide, is not re-routed. */
  lemma NotAnAdjustedSlot(elems: seq<Element>, j: nat)
    requires j % 3 == 0 || 3 * (j / 3) + 2 !in CollidingCallouts(elems)
    ensures forall k :: 0 <= k < |AdjustedGroupsOf(elems)| ==>
              j != AdjustedGroupsOf(elems)[k].leaderIdx && j != AdjustedGroupsOf(elems)[k].calloutIdx
  {
    var adj := AdjustedGroupsOf(elems);
    GroupsToAdjustAreAdjustable(elems);
    GroupsToAdjustMembers(CalloutGroups(|elems|), CollidingCallouts(elems));
    forall k | 0 <= k < |adj|
      ensures j != adj[k].leaderIdx && j != adj[k].calloutIdx
    {
      assert adj[k].calloutIdx in CollidingCallouts(elems);
      SlotsOfGroup(adj[k].rectIdx, j);
    }
  }

  /** Whether or not anything collides, the adjusted elements are all adjusted groups re-routed in turn. */
  lemma AdjustedElements(viz: Visualization, cfg: GraphicalConfig)
    ensures AdjustableGroups(viz.elements, AdjustedGroupsOf(viz.elements))
    ensures AdjustedLayout(viz, cfg).elements
            == Resolve(viz.elements, AdjustedGroupsOf(viz.elements), cfg, |AdjustedGroupsOf(viz.elements)|)
  {
    GroupsToAdjustAreAdjustable(viz.elements);
  }

  /** After collision avoidance the `k`-th adjusted group holds its resolved leader and callout. */
  lemma AdjustedGroupAt(viz: Visualization, cfg: GraphicalConfig, k: nat)
    requires k < |AdjustedGroupsOf(viz.elements)|
    ensures AdjustableGroups(viz.elements, AdjustedGroupsOf(viz.elements))
    ensures var elems := viz.elements;
            var adj := AdjustedGroupsOf(elems);
            var centre := RectCenterY(elems[adj[k].rectIdx], cfg);
            var target := centre + Displacement(k, |adj|, cfg.minElbowHeightMm);
            && |AdjustedLayout(viz, cfg).elements| == |elems|
            && AdjustedLayout(viz, cfg).elements[adj[k].leaderIdx] == ResolvedLeader(centre, target, cfg)
            && AdjustedLayout(viz, cfg).elements[adj[k].calloutIdx]
               == ResolvedCallout(elems[adj[k].calloutIdx], centre, target, cfg)
  {
    var adj := AdjustedGroupsOf(viz.elements);
    AdjustedElements(viz, cfg);
    ResolveAt(viz.elements, adj, cfg, |adj|, k);
  }

  /**
   * A group whose callout collides gets a leader from its rectangle's
   * mid-right edge that ends one leader length further right, either straight
   * or as an elbow to some target height, and its callout keeps its text and
   * sits one padding past the leader's end.
   */
  lemma CollidingGroupRerouted(viz: Visualization, cfg: GraphicalConfig, g: nat)
    requires 3 * g + 2 < |viz.elements| && 3 * g + 2 in CollidingCallouts(viz.elements)
    ensures var elems := viz.elements;
            var r := AdjustedLayout(viz, cfg).elements;
            var centre := RectCenterY(elems[3 * g], cfg);
            && |r| == |elems|
            && r[3 * g + 1].Leader?
            && r[3 * g + 1].position == Point(cfg.originXMm + cfg.layerWidthMm, centre)
            && r[3 * g + 1].endPosition.x == cfg.originXMm + cfg.layerWidthMm + cfg.leaderLineLengthMm
            && (exists target :: r[3 * g + 1] == ResolvedLeader(centre, target, cfg))
            && elems[3 * g + 2].Callout?
            && r[3 * g + 2] == CalloutAfter(elems[3 * g + 2], r[3 * g + 1])
  {
    var elems := viz.elements;
    var k := AdjustedIndexOf(elems, g);
    AdjustedGroupAt(viz, cfg, k);
    var centre := RectCenterY(elems[3 * g], cfg);
    var target := centre + Displacement(k, |AdjustedGroupsOf(elems)|, cfg.minElbowHeightMm);
    ResolvedLeaderGeometry(elems[3 * g + 2], centre, target, cfg);
    assert AdjustedLayout(viz, cfg).elements[3 * g + 1] == ResolvedLeader(centre, target, cfg);
  }

  /** A group whose callout collides is among the adjusted groups. */
  lemma AdjustedIndexOf(elems: seq<Element>, g: nat) returns (k: nat)
    requires 3 * g + 2 < |elems| && 3 * g + 2 in CollidingCallouts(elems)
    ensures k < |AdjustedGroupsOf(elems)| && AdjustedGroupsOf(elems)[k] == GroupIndex(3 * g, 3 * g + 1, 3 * g + 2)
  {
    var gs := CalloutGroups(|elems|);
    assert gs[g] == GroupIndex(3 * g, 3 * g + 1, 3 * g + 2);
    GroupsToAdjustMembers(gs, CollidingCallouts(elems));
    k :| 0 <= k < |AdjustedGroupsOf(elems)| && AdjustedGroupsOf(elems)[k] == gs[g];
  }

  /** Right end of every leader: origin, stack width and one leader length. */
  function LeaderEndX(cfg: GraphicalConfig): real
  {
    cfg.originXMm + cfg.layerWidthMm + cfg.leaderLineLengthMm
  }

  /**
   * A rectangle whose right edge is the stack's, whose leader leaves that
   * edge at mid-height and ends at the common right end, followed by a
   * callout one padding further right.
   */
  predicate GroupAligned(grp: Group, cfg: GraphicalConfig)
  {
    && grp.rect.Rectangle?
    && grp.rect.position.x + grp.rect.width == cfg.originXMm + cfg.layerWidthMm
    && grp.leader.Leader?
    && grp.leader.position == Point(cfg.originXMm + cfg.layerWidthMm, RectCenterY(grp.rect, cfg))
    && grp.leader.endPosition.x == LeaderEndX(cfg)
    && grp.callout.Callout?
    && grp.callout.position.x == LeaderEndX(cfg) + CalloutTextPaddingMm
  }

  /** Group `g` of the list exists and is aligned. */
  ghost predicate AlignedGroup(elems: seq<Element>, g: nat, cfg: GraphicalConfig)
  {
    3 * g + 2 < |elems| && GroupAligned(GroupAt(elems, g), cfg)
  }

  /** Every group of a base layout is aligned. */
  lemma InitialGroupAligned(stackup: StackupData, cfg: GraphicalConfig, render: Render, elems: seq<Element>, g: nat)
    requires IsInitialLayout(stackup, cfg, render, elems) && g < |stackup.layers|
    ensures AlignedGroup(elems, g, cfg)
  {
    assert GroupAt(elems, g) == InitialGroup(stackup, cfg, render, g);
    InitialGroupGeometry(stackup, cfg, render, g);
  }

  /** Collision avoidance keeps an aligned group aligned, whether or not it re-routes it. */
  lemma AdjustKeepsAlignment(viz: Visualization, cfg: GraphicalConfig, g: nat)
    requires AlignedGroup(viz.elements, g, cfg)
    ensures AlignedGroup(AdjustedLayout(viz, cfg).elements, g, cfg)
  {
    if 3 * g + 2 in CollidingCallouts(viz.elements) {
      ReroutedGroupAligned(viz, cfg, g);
    } else {
      UntouchedGroupAligned(viz, cfg, g);
    }
  }

  /** A re-routed group keeps its rectangle and gets an aligned leader and callout. */
  lemma ReroutedGroupAligned(viz: Visualization, cfg: GraphicalConfig, g: nat)
    requires AlignedGroup(viz.elements, g, cfg) && 3 * g + 2 in CollidingCallouts(viz.elements)
    ensures AlignedGroup(AdjustedLayout(viz, cfg).elements, g, cfg)
  {
    var r := AdjustedLayout(viz, cfg).elements;
    AdjustKeepsFrame(viz, cfg, 3 * g);
    CollidingGroupRerouted(viz, cfg, g);
    assert r[3 * g] == viz.elements[3 * g];
  }

  /** A group whose callout does not collide is left as it was. */
  lemma UntouchedGroupAligned(viz: Visualization, cfg: GraphicalConfig, g: nat)
    requires AlignedGroup(viz.elements, g, cfg) && 3 * g + 2 !in CollidingCallouts(viz.elements)
    ensures AlignedGroup(AdjustedLayout(viz, cfg).elements, g, cfg)
  {
    AdjustKeepsGroup(viz, cfg, g);
  }

  /** Collision avoidance leaves a group whose callout does not collide exactly as it was. */
  lemma AdjustKeepsGroup(viz: Visualization, cfg: GraphicalConfig, g: nat)
    requires 3 * g + 2 < |viz.elements| && 3 * g + 2 !in CollidingCallouts(viz.elements)
    ensures GroupAt(AdjustedLayout(viz, cfg).elements, g) == GroupAt(viz.elements, g)
  {
    SlotsOfGroup(3 * g, 3 * g + 1);
    SlotsOfGroup(3 * g, 3 * g + 2);
    AdjustKeepsFrame(viz, cfg, 3 * g);
    AdjustKeepsFrame(viz, cfg, 3 * g + 1);
    AdjustKeepsFrame(viz, cfg, 3 * g + 2);
  }

  /**
   * After adjusting a base layout every leader still leaves its rectangle's
   * mid-right edge and ends at the same x, so every callout starts at
   * origin + width + leader length + padding.
   */
  lemma CalloutsAlignedAfterAdjusting(stackup: StackupData, cfg: GraphicalConfig, render: Render,
                                      viz: Visualization, g: nat)
    requires IsInitialLayout(stackup, cfg, render, viz.elements) && g < |stackup.layers|
    ensures AlignedGroup(AdjustedLayout(viz, cfg).elements, g, cfg)
  {
    InitialGroupAligned(stackup, cfg, render, viz.elements, g);
    AdjustKeepsAlignment(viz, cfg, g);
  }

  /**
   * With a positive minimum elbow, exactly the middle adjusted group gets a
   * straight leader, and that leader stays at its layer's centre.
   */
  lemma OnlyMiddleGroupStraight(viz: Visualization, cfg: GraphicalConfig, k: nat)
    requires cfg.minElbowHeightMm > 0.0 && k < |AdjustedGroupsOf(viz.elements)|
    ensures AdjustableGroups(viz.elements, AdjustedGroupsOf(viz.elements))
    ensures var adj := AdjustedGroupsOf(viz.elements);
            var leader := AdjustedLayout(viz, cfg).elements[adj[k].leaderIdx];
            && leader.Leader?
            && (leader.style == Straight <==> k == |adj| / 2)
            && (k == |adj| / 2 ==> leader.endPosition.y == RectCenterY(viz.elements[adj[k].rectIdx], cfg))
  {
    var adj := AdjustedGroupsOf(viz.elements);
    AdjustedGroupAt(viz, cfg, k);
    var centre := RectCenterY(viz.elements[adj[k].rectIdx], cfg);
    var target := centre + Displacement(k, |adj|, cfg.minElbowHeightMm);
    SymmetricElbowHeights(centre, k, |adj|, cfg.minElbowHeightMm);
    ResolvedLeaderGeometry(viz.elements[adj[k].calloutIdx], centre, target, cfg);
  }

  /** How far a resolved leader's end sits from its layer's centre: nothing when straight, else the offset. */
  lemma ResolvedOffset(centre: real, target: real, cfg: GraphicalConfig)
    ensures ResolvedLeader(centre, target, cfg).endPosition.y - centre
            == if Abs(target - centre) < cfg.minElbowHeightMm then 0.0 else target - centre
  {
  }

  /**
   * With an odd number of adjusted groups, the leader ends of groups `k` and
   * `n-1-k` are offset from their own layer centres by opposite amounts.
   */
  lemma AdjustedOffsetsMirrored(viz: Visualization, cfg: GraphicalConfig, k: nat)
    requires |AdjustedGroupsOf(viz.elements)| % 2 == 1 && k < |AdjustedGroupsOf(viz.elements)|
    ensures AdjustableGroups(viz.elements, AdjustedGroupsOf(viz.elements))
    ensures AdjustedLayout(viz, cfg).elements[AdjustedGroupsOf(viz.elements)[k].leaderIdx].Leader?
    ensures var k' := |AdjustedGroupsOf(viz.elements)| - 1 - k;
            AdjustedLayout(viz, cfg).elements[AdjustedGroupsOf(viz.elements)[k'].leaderIdx].Leader?
    ensures var elems := viz.elements;
            var adj := AdjustedGroupsOf(elems);
            var r := AdjustedLayout(viz, cfg).elements;
            var k' := |adj| - 1 - k;
            r[adj[k].leaderIdx].endPosition.y - RectCenterY(elems[adj[k].rectIdx], cfg)
            == -(r[adj[k'].leaderIdx].endPosition.y - RectCenterY(elems[adj[k'].rectIdx], cfg))
  {
    var elems := viz.elements;
    var adj := AdjustedGroupsOf(elems);
    var n := |adj|;
    var k' := n - 1 - k;
    var unit := cfg.minElbowHeightMm;
    AdjustedGroupAt(viz, cfg, k);
    AdjustedGroupAt(viz, cfg, k');
    DisplacementMirrored(k, n, unit);
    var c := RectCenterY(elems[adj[k].rectIdx], cfg);
    var c' := RectCenterY(elems[adj[k'].rectIdx], cfg);
    ResolvedOffset(c, c + Displacement(k, n, unit), cfg);
    ResolvedOffset(c', c' + Displacement(k', n, unit), cfg);
  }
}
