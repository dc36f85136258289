/**
 * Data model of the graphical cross-section: the drawing constants, the
 * element variants, the visualization record and the configuration with
 * its defaults. Lengths are millimetres, modelled as exact reals.
 */
module GraphicsModels {
  import opened Models

  // Proportional-mode ratios relative to the base unit height.
  const CopperHeightRatio: real := 1.0
  const DielectricHeightRatio: real := 1.55
  const SoldermaskHeightRatio: real := 0.5
  const DefaultBaseHeightMm: real := 3.0
  /** Gap between a leader's end and its callout text. */
  const CalloutTextPaddingMm: real := 1.0
  /** Vertical distance below which two adjacent callouts collide. */
  const MinCalloutSpacingMm: real := 2.0
  /** Vertical displacement below which a leader stays straight. */
  const MinElbowHeightMm: real := 0.5

  datatype LeaderLineStyle = Straight | AngledUp | AngledDown

  function LeaderLineStyleValue(s: LeaderLineStyle): string
  {
    match s
    case Straight => "straight"
    case AngledUp => "angled_up"
    case AngledDown => "angled_down"
  }

  function LeaderLineStyleFromValue(v: string): Option<LeaderLineStyle>
  {
    if v == "straight" then Some(Straight)
    else if v == "angled_up" then Some(AngledUp)
    else if v == "angled_down" then Some(AngledDown)
    else None
  }

  datatype ThicknessMode = Uniform | Proportional | Scaled

  function ThicknessModeValue(m: ThicknessMode): string
  {
    match m
    case Uniform => "uniform"
    case Proportional => "proportional"
    case Scaled => "scaled"
  }

  function ThicknessModeFromValue(v: string): Option<ThicknessMode>
  {
    if v == "uniform" then Some(Uniform)
    else if v == "proportional" then Some(Proportional)
    else if v == "scaled" then Some(Scaled)
    else None
  }

  /** Each enum has exactly three members, with distinct values that lookup inverts. */
  lemma EnumValues(s: LeaderLineStyle, m: ThicknessMode, v: string)
    ensures LeaderLineStyleFromValue(LeaderLineStyleValue(s)) == Some(s)
    ensures LeaderLineStyleFromValue(v) == Some(s) ==> LeaderLineStyleValue(s) == v
    ensures LeaderLineStyleFromValue(v).Some? <==> v in {"straight", "angled_up", "angled_down"}
    ensures ThicknessModeFromValue(ThicknessModeValue(m)) == Some(m)
    ensures ThicknessModeFromValue(v) == Some(m) ==> ThicknessModeValue(m) == v
    ensures ThicknessModeFromValue(v).Some? <==> v in {"uniform", "proportional", "scaled"}
  {
  }

  /**
   * The configuration field holding the height policy is not validated, so it
   * may hold something that is none of the three modes.
   */
  datatype ModeSetting = Mode(mode: ThicknessMode) | Unrecognised(raw: string)

  datatype Point = Point(x: real, y: real)

  datatype Segment = Segment(start: Point, end: Point)

  /** The closed family of drawing elements; every variant has an anchor position. */
  datatype Element =
    | Rectangle(position: Point, width: real, height: real, layerName: string,
                layerType: Option<string>, fill: bool)
    | Leader(position: Point, endPosition: Point, style: LeaderLineStyle, segments: seq<Segment>)
    | Callout(position: Point, text: string, fontSize: real,
              horizontalAlign: string, verticalAlign: string)

  /** The constant `element_type` tag each variant carries. */
  function ElementType(e: Element): string
  {
    match e
    case Rectangle(_, _, _, _, _, _) => "rectangle"
    case Leader(_, _, _, _) => "leader_line"
    case Callout(_, _, _, _, _) => "text"
  }

  /** A leader built from its two end points: straight style, no segments yet. */
  function NewLeader(position: Point, endPosition: Point): (e: Element)
    ensures e.Leader? && e.position == position && e.endPosition == endPosition
    ensures e.style == Straight && e.segments == []
  {
    Leader(position, endPosition, Straight, [])
  }

  /** A callout built from its position alone: empty text, 0.5 mm font, left/center aligned. */
  function NewCallout(position: Point): (e: Element)
    ensures e.Callout? && e.position == position
    ensures e.text == "" && e.fontSize == 0.5 && e.horizontalAlign == "left" && e.verticalAlign == "center"
  {
    Callout(position, "", 0.5, "left", "center")
  }

  datatype Bounds = Bounds(x: real, y: real, width: real, height: real)

  const ZeroBounds := Bounds(0.0, 0.0, 0.0, 0.0)

  datatype Visualization = Visualization(
    elements: seq<Element>,
    totalWidth: real,
    totalHeight: real,
    layerCount: int,
    bounds: Bounds)

  /**
   * Construction of a visualization: bounds left at all zeros are replaced by
   * the origin-anchored box of the total size; any other bounds are kept.
   */
  function NewVisualization(elements: seq<Element>, totalWidth: real, totalHeight: real,
                            layerCount: int, bounds: Bounds): (v: Visualization)
    ensures v.elements == elements && v.totalWidth == totalWidth && v.totalHeight == totalHeight
    ensures v.layerCount == layerCount
    ensures bounds == ZeroBounds ==> v.bounds == Bounds(0.0, 0.0, totalWidth, totalHeight)
    ensures bounds != ZeroBounds ==> v.bounds == bounds
  {
    var b := if bounds == ZeroBounds then Bounds(0.0, 0.0, totalWidth, totalHeight) else bounds;
    Visualization(elements, totalWidth, totalHeight, layerCount, b)
  }

  /** Rebuilding a constructed visualization from its own fields gives it back unchanged. */
  lemma NewVisualizationIdempotent(elements: seq<Element>, w: real, h: real, n: int, b: Bounds)
    ensures var v := NewVisualization(elements, w, h, n, b);
            NewVisualization(v.elements, v.totalWidth, v.totalHeight, v.layerCount, v.bounds) == v
  {
  }

  datatype GraphicalConfig = GraphicalConfig(
    scaleMm: Option<real>,
    thicknessMode: ModeSetting,
    uniformLayerHeightMm: real,
    layerWidthMm: real,
    maxTotalHeightMm: real,
    copperHeightRatio: real,
    dielectricHeightRatio: real,
    soldermaskHeightRatio: real,
    soldermaskGapMm: real,
    copperHatchEnabled: bool,
    copperHatchSpacingMm: real,
    copperHatchAngleDeg: real,
    leaderLineLengthMm: real,
    leaderLineWidthMm: real,
    leaderDirection: string,
    calloutFormat: string,
    textSizeMm: real,
    minCalloutSpacingMm: real,
    minElbowHeightMm: real,
    originXMm: real,
    originYMm: real,
    targetLayer: string)

  /** The configuration used when no field is overridden. */
  function DefaultGraphicalConfig(): (c: GraphicalConfig)
    ensures c.scaleMm == None && c.thicknessMode == Mode(Proportional)
    ensures c.uniformLayerHeightMm == 3.0 && c.layerWidthMm == 50.0 && c.maxTotalHeightMm == 100.0
    ensures c.copperHeightRatio == 1.0 && c.dielectricHeightRatio == 1.55 && c.soldermaskHeightRatio == 0.5
    ensures c.soldermaskGapMm == 1.0 && c.leaderLineLengthMm == 20.0 && c.textSizeMm == 1.5
    ensures c.minCalloutSpacingMm == 2.0 && c.minElbowHeightMm == 0.5
    ensures c.originXMm == 50.0 && c.originYMm == 50.0
  {
    GraphicalConfig(
      None, Mode(Proportional), DefaultBaseHeightMm, 50.0, 100.0,
      CopperHeightRatio, DielectricHeightRatio, SoldermaskHeightRatio,
      1.0, true, 1.0, 45.0,
      20.0, 0.15, "auto",
      "{material} - {thickness} \U{00B1}{tolerance}", 1.5,
      MinCalloutSpacingMm, MinElbowHeightMm,
      50.0, 50.0, "Dwgs.User")
  }
}
