/**
 * Spacing diagnostics: the gaps between consecutive callout positions, the
 * gaps under the configured minimum, and the two spacing units (the one the
 * layout uses and the one it was meant to use) side by side.
 */
module Diagnostics {
  import opened Numeric

  /** One pair of consecutive callouts closer than the minimum. */
  datatype Violation = Violation(layer1: int, layer2: int, spacing: real, minAllowed: real)

  datatype SpacingDiagnostic = SpacingDiagnostic(
    scaleMm: real,
    layerCount: int,
    configMinCalloutSpacing: real,
    configMinElbowHeight: real,
    configTextSize: real,
    spacingUnitUsed: real,
    expectedSpacingUnit: real,
    calculatedPositions: seq<real>,
    actualSpacings: seq<real>,
    violations: seq<Violation>,
    collisionIndices: seq<int>)

  predicate HasSpacingViolations(d: SpacingDiagnostic)
  {
    |d.violations| > 0
  }

  /** Distance between each position and the next one. */
  function Spacings(positions: seq<real>): (r: seq<real>)
    ensures |r| == if |positions| == 0 then 0 else |positions| - 1
    ensures forall i :: 0 <= i < |r| ==> r[i] == Abs(positions[i + 1] - positions[i])
  {
    if |positions| == 0 then []
    else seq(|positions| - 1, i requires 0 <= i < |positions| - 1 => Abs(positions[i + 1] - positions[i]))
  }

  /** The violation recorded for the gap after position `i`. */
  function ViolationAt(spacings: seq<real>, i: nat, minSpacing: real): Violation
    requires i < |spacings|
  {
    Violation(i, i + 1, spacings[i], minSpacing)
  }

  /** The gaps under the minimum, in order, each recorded with the two positions it separates. */
  function ViolationsOf(spacings: seq<real>, minSpacing: real): (r: seq<Violation>)
    ensures |r| <= |spacings|
    decreases |spacings|
  {
    if spacings == [] then []
    else
      var n := |spacings| - 1;
      ViolationsOf(spacings[..n], minSpacing)
      + (if spacings[n] < minSpacing then [ViolationAt(spacings, n, minSpacing)] else [])
  }

  /**
   * Every recorded violation names a gap `layer1 -> layer1 + 1` that is under
   * the minimum and carries that gap and the minimum; the gaps appear in
   * increasing order.
   */
  lemma {:induction false} ViolationsAreShortGaps(spacings: seq<real>, minSpacing: real)
    ensures forall k :: 0 <= k < |ViolationsOf(spacings, minSpacing)| ==>
              var v := ViolationsOf(spacings, minSpacing)[k];
              && 0 <= v.layer1 < |spacings| && v.layer2 == v.layer1 + 1
              && v.spacing == spacings[v.layer1] && v.spacing < minSpacing && v.minAllowed == minSpacing
    ensures forall k, k' :: 0 <= k < k' < |ViolationsOf(spacings, minSpacing)| ==>
              ViolationsOf(spacings, minSpacing)[k].layer1 < ViolationsOf(spacings, minSpacing)[k'].layer1
    decreases |spacings|
  {
    if spacings != [] {
      var n := |spacings| - 1;
      var init := spacings[..n];
      ViolationsAreShortGaps(init, minSpacing);
      var prev := ViolationsOf(init, minSpacing);
      assert forall k :: 0 <= k < |prev| ==> prev[k].layer1 < n && spacings[prev[k].layer1] == init[prev[k].layer1];
    }
  }

  /** Every gap under the minimum is recorded. */
  lemma {:induction false} ShortGapsAreViolations(spacings: seq<real>, minSpacing: real, i: nat)
    requires i < |spacings| && spacings[i] < minSpacing
    ensures ViolationAt(spacings, i, minSpacing) in ViolationsOf(spacings, minSpacing)
    decreases |spacings|
  {
    var n := |spacings| - 1;
    if i < n {
      var init := spacings[..n];
      ShortGapsAreViolations(init, minSpacing, i);
      assert ViolationAt(init, i, minSpacing) == ViolationAt(spacings, i, minSpacing);
    }
  }

  /** The diagnostic built from the arguments, as the capture method fills it in. */
  function DiagnosticOf(scaleMm: real, layerCount: int, minCalloutSpacing: real, minElbowHeight: real,
                        textSize: real, positions: seq<real>, collisionIndices: seq<int>): SpacingDiagnostic
  {
    var spacings := Spacings(positions);
    SpacingDiagnostic(scaleMm, layerCount, minCalloutSpacing, minElbowHeight, textSize,
                      minElbowHeight, minCalloutSpacing, positions, spacings,
                      ViolationsOf(spacings, minCalloutSpacing), collisionIndices)
  }

  method CaptureSpacingDiagnostic(scaleMm: real, layerCount: int, configMinCalloutSpacing: real,
                                  configMinElbowHeight: real, configTextSize: real,
                                  calculatedPositions: seq<real>, collisionIndices: seq<int>)
    returns (d: SpacingDiagnostic)
    ensures d == DiagnosticOf(scaleMm, layerCount, configMinCalloutSpacing, configMinElbowHeight,
                              configTextSize, calculatedPositions, collisionIndices)
  {
    var actualSpacings: seq<real> := [];
    var n := if |calculatedPositions| == 0 then 0 else |calculatedPositions| - 1;
    var i := 0;
    while i < n
      invariant i <= n && |actualSpacings| == i
      invariant forall j :: 0 <= j < i ==> actualSpacings[j] == Spacings(calculatedPositions)[j]
    {
      var spacing := Abs(calculatedPositions[i + 1] - calculatedPositions[i]);
      actualSpacings := actualSpacings + [spacing];
      i := i + 1;
    }
    assert actualSpacings == Spacings(calculatedPositions);

    var violations: seq<Violation> := [];
    i := 0;
    while i < |actualSpacings|
      invariant i <= |actualSpacings|
      invariant violations == ViolationsOf(actualSpacings[..i], configMinCalloutSpacing)
    {
      assert actualSpacings[..i + 1][..i] == actualSpacings[..i];
      if actualSpacings[i] < configMinCalloutSpacing {
        violations := violations + [Violation(i, i + 1, actualSpacings[i], configMinCalloutSpacing)];
      }
      i := i + 1;
    }
    assert actualSpacings[..i] == actualSpacings;

    var expectedSpacingUnit := configMinCalloutSpacing;
    var spacingUnitUsed := configMinElbowHeight;
    d := SpacingDiagnostic(scaleMm, layerCount, configMinCalloutSpacing, configMinElbowHeight, configTextSize,
                           spacingUnitUsed, expectedSpacingUnit, calculatedPositions, actualSpacings,
                           violations, collisionIndices);
  }

  /**
   * A captured diagnostic reports violations exactly when two consecutive
   * positions are closer than the configured callout spacing.
   */
  lemma HasViolationsIffCloseNeighbours(scaleMm: real, layerCount: int, minCalloutSpacing: real,
                                        minElbowHeight: real, textSize: real, positions: seq<real>,
                                        collisionIndices: seq<int>)
    ensures var d := DiagnosticOf(scaleMm, layerCount, minCalloutSpacing, minElbowHeight, textSize,
                                  positions, collisionIndices);
            HasSpacingViolations(d)
            <==> exists i :: 0 <= i < |positions| - 1 && Abs(positions[i + 1] - positions[i]) < minCalloutSpacing
  {
    var spacings := Spacings(positions);
    var vs := ViolationsOf(spacings, minCalloutSpacing);
    if |vs| > 0 {
      ViolationsAreShortGaps(spacings, minCalloutSpacing);
      assert vs[0].layer1 < |positions| - 1 && Abs(positions[vs[0].layer1 + 1] - positions[vs[0].layer1]) < minCalloutSpacing;
    }
    if i :| 0 <= i < |positions| - 1 && Abs(positions[i + 1] - positions[i]) < minCalloutSpacing {
      ShortGapsAreViolations(spacings, minCalloutSpacing, i);
    }
  }

  /**
   * The diagnostic reports the layout's spacing unit (the minimum elbow
   * height) beside the intended one (the minimum callout spacing); they
   * differ exactly when those two settings differ. The arguments are carried
   * over unchanged.
   */
  lemma DiagnosticRecordsUnits(scaleMm: real, layerCount: int, minCalloutSpacing: real, minElbowHeight: real,
                               textSize: real, positions: seq<real>, collisionIndices: seq<int>)
    ensures var d := DiagnosticOf(scaleMm, layerCount, minCalloutSpacing, minElbowHeight, textSize,
                                  positions, collisionIndices);
            && d.spacingUnitUsed == minElbowHeight && d.expectedSpacingUnit == minCalloutSpacing
            && (d.spacingUnitUsed != d.expectedSpacingUnit <==> minElbowHeight != minCalloutSpacing)
            && d.scaleMm == scaleMm && d.layerCount == layerCount
            && d.configMinCalloutSpacing == minCalloutSpacing && d.configMinElbowHeight == minElbowHeight
            && d.configTextSize == textSize && d.calculatedPositions == positions
            && d.collisionIndices == collisionIndices
  {
  }
}
