/**
 * Plain data records of the stackup: layer kinds, layers, the stackup itself,
 * and the records of the tabular layout (cells, layout, configuration).
 */
module Models {

  datatype Option<+T> = None | Some(value: T)

  /** The five kinds of PCB layer. */
  datatype LayerType = Copper | Dielectric | Soldermask | Silkscreen | Solderpaste

  /** The enum's string value. */
  function LayerTypeValue(t: LayerType): string
  {
    match t
    case Copper => "copper"
    case Dielectric => "dielectric"
    case Soldermask => "soldermask"
    case Silkscreen => "silkscreen"
    case Solderpaste => "solderpaste"
  }

  /** Enum lookup by value (`LayerType(s)`); a value that names no member is an error. */
  function LayerTypeFromValue(s: string): Option<LayerType>
  {
    if s == "copper" then Some(Copper)
    else if s == "dielectric" then Some(Dielectric)
    else if s == "soldermask" then Some(Soldermask)
    else if s == "silkscreen" then Some(Silkscreen)
    else if s == "solderpaste" then Some(Solderpaste)
    else None
  }

  /** There are exactly five members, each with its own value, and lookup inverts the value. */
  lemma LayerTypeValues(t: LayerType, s: string)
    ensures LayerTypeFromValue(LayerTypeValue(t)) == Some(t)
    ensures LayerTypeFromValue(s) == Some(t) ==> LayerTypeValue(t) == s
    ensures LayerTypeFromValue(s).Some? <==>
              s in {"copper", "dielectric", "soldermask", "silkscreen", "solderpaste"}
  {
  }

  datatype StackupLayer = StackupLayer(
    name: string,
    layerType: LayerType,
    thickness: real,            // mm
    material: string,
    color: Option<string>,
    epsilonR: Option<real>,
    lossTangent: Option<real>)

  /** A layer built from the four required fields; the optional properties start absent. */
  function NewStackupLayer(name: string, layerType: LayerType, thickness: real, material: string): (l: StackupLayer)
    ensures l.name == name && l.layerType == layerType && l.thickness == thickness && l.material == material
    ensures l.color == None && l.epsilonR == None && l.lossTangent == None
  {
    StackupLayer(name, layerType, thickness, material, None, None, None)
  }

  datatype StackupData = StackupData(
    layers: seq<StackupLayer>,
    totalThickness: real,
    copperLayerCount: int,
    boardName: string)

  datatype TableCell = TableCell(
    text: string,
    row: int,
    col: int,
    width: real,
    height: real,
    align: string,
    isHeader: bool)

  /** A cell built from its required fields: left aligned, not a header. */
  function NewTableCell(text: string, row: int, col: int, width: real, height: real): (c: TableCell)
    ensures c.text == text && c.row == row && c.col == col && c.width == width && c.height == height
    ensures c.align == "left" && !c.isHeader
  {
    TableCell(text, row, col, width, height, "left", false)
  }

  datatype TableLayout = TableLayout(
    cells: seq<TableCell>,
    totalWidth: real,
    totalHeight: real,
    columns: seq<string>,
    rowHeight: real,
    cellPadding: real)

  /** A layout built from its required fields: no column names, 5 mm rows, 1 mm padding. */
  function NewTableLayout(cells: seq<TableCell>, totalWidth: real, totalHeight: real): (t: TableLayout)
    ensures t.cells == cells && t.totalWidth == totalWidth && t.totalHeight == totalHeight
    ensures t.columns == [] && t.rowHeight == 5.0 && t.cellPadding == 1.0
  {
    TableLayout(cells, totalWidth, totalHeight, [], 5.0, 1.0)
  }

  datatype TableConfig = TableConfig(
    style: string,
    units: string,
    showEpsilon: bool,
    showLossTangent: bool,
    showMaterial: bool,
    showColor: bool,
    fontSize: real,
    lineWidth: real,
    rowHeight: real,
    cellPadding: real)

  /** The configuration used when none is given. */
  function DefaultTableConfig(): (c: TableConfig)
    ensures c.style == "detailed" && c.units == "mm"
    ensures c.showEpsilon && !c.showLossTangent && c.showMaterial && !c.showColor
    ensures c.fontSize == 3.0 && c.lineWidth == 0.15 && c.rowHeight == 5.0 && c.cellPadding == 1.0
  {
    TableConfig("detailed", "mm", true, false, true, false, 3.0, 0.15, 5.0, 1.0)
  }
}
