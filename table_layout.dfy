/**
 * Tabular layout of a stackup: which columns a style shows, one header row
 * and one row of cells per shown layer, column widths fitted to the longest
 * text, and the position of a cell on the page.
 */
module Layout {
  import opened Numeric
  import opened Models
  import opened Formatting

  const EmDash: string := "\U{2014}"
  const EpsilonHeader: string := "\U{03B5}\U{1D63}"
  const TanDeltaHeader: string := "tan \U{03B4}"
  /** Layer names in the table are cut to this many characters. */
  const LayerNameMaxLength: int := 20
  /** Thicknesses in the table carry this many fraction digits. */
  const ThicknessPrecision: nat := 3
  /** No column is narrower than this. */
  const MinColumnWidthMm: real := 10.0

  // ---------------------------------------------------------------------
  // Column widths
  // ---------------------------------------------------------------------

  /** Estimated width of a cell's text plus padding on both sides. */
  function CellTextWidth(c: TableCell, cfg: TableConfig): real
  {
    (|c.text| as real) * (cfg.fontSize * 0.6) + cfg.cellPadding * 2.0
  }

  /** The cells of one column, in their original order. */
  function InColumn(cells: seq<TableCell>, col: int): (r: seq<TableCell>)
    ensures |r| <= |cells|
    decreases |cells|
  {
    if cells == [] then []
    else
      var n := |cells| - 1;
      InColumn(cells[..n], col) + (if cells[n].col == col then [cells[n]] else [])
  }

  /** A column holds exactly the cells whose column index is `col`. */
  lemma {:induction false} InColumnMembers(cells: seq<TableCell>, col: int)
    ensures forall c :: c in InColumn(cells, col) <==> c in cells && c.col == col
    decreases |cells|
  {
    if cells != [] {
      var n := |cells| - 1;
      InColumnMembers(cells[..n], col);
      assert cells == cells[..n] + [cells[n]];
    }
  }

  /** Appending a cell extends its own column and no other. */
  lemma InColumnStep(cells: seq<TableCell>, c: TableCell, col: int)
    ensures InColumn(cells + [c], col) == InColumn(cells, col) + (if c.col == col then [c] else [])
  {
    assert (cells + [c])[..|cells|] == cells;
  }

  /** A column no cell names is empty. */
  lemma NoCellsNoColumn(cells: seq<TableCell>, col: int)
    requires col !in FirstSeen(cells)
    ensures InColumn(cells, col) == []
  {
    InColumnMembers(cells, col);
  }

  /** Running maximum of the cells' text widths, starting from zero. */
  function MaxTextWidth(cs: seq<TableCell>, cfg: TableConfig): real
    decreases |cs|
  {
    if cs == [] then 0.0
    else Max(MaxTextWidth(cs[..|cs| - 1], cfg), CellTextWidth(cs[|cs| - 1], cfg))
  }

  /**
   * The running maximum is non-negative, covers every text, and is either
   * zero or the width of one of the texts.
   */
  lemma {:induction false} MaxTextWidthIsMax(cs: seq<TableCell>, cfg: TableConfig)
    ensures MaxTextWidth(cs, cfg) >= 0.0
    ensures forall c :: c in cs ==> MaxTextWidth(cs, cfg) >= CellTextWidth(c, cfg)
    ensures MaxTextWidth(cs, cfg) == 0.0 || exists c :: c in cs && MaxTextWidth(cs, cfg) == CellTextWidth(c, cfg)
    decreases |cs|
  {
    if cs != [] {
      var n := |cs| - 1;
      MaxTextWidthIsMax(cs[..n], cfg);
      assert forall c :: c in cs ==> c in cs[..n] || c == cs[n];
    }
  }

  /** Width of column `col`: the widest of its texts, but at least the minimum. */
  function ColumnWidth(cells: seq<TableCell>, col: int, cfg: TableConfig): real
  {
    Max(MaxTextWidth(InColumn(cells, col), cfg), MinColumnWidthMm)
  }

  /**
   * A column is at least the minimum width and at least as wide as every one
   * of its texts, and no wider than needed: it equals the minimum or one of
   * those texts' widths.
   */
  lemma ColumnWidthFits(cells: seq<TableCell>, col: int, cfg: TableConfig)
    ensures ColumnWidth(cells, col, cfg) >= MinColumnWidthMm
    ensures forall c :: c in cells && c.col == col ==> ColumnWidth(cells, col, cfg) >= CellTextWidth(c, cfg)
    ensures ColumnWidth(cells, col, cfg) == MinColumnWidthMm
            || exists c :: c in cells && c.col == col && ColumnWidth(cells, col, cfg) == CellTextWidth(c, cfg)
  {
    InColumnMembers(cells, col);
    MaxTextWidthIsMax(InColumn(cells, col), cfg);
  }

  /** Strictly increasing: sorted with no repeats. */
  predicate Increasing(s: seq<int>)
  {
    forall i, j :: 0 <= i < j < |s| ==> s[i] < s[j]
  }

  /** Column keys in the order a dictionary first sees them while scanning the cells. */
  function FirstSeen(cells: seq<TableCell>): (keys: seq<int>)
    ensures forall x :: x in keys <==> exists c :: c in cells && c.col == x
    ensures forall i, j :: 0 <= i < j < |keys| ==> keys[i] != keys[j]
    decreases |cells|
  {
    if cells == [] then []
    else
      var n := |cells| - 1;
      var prev := FirstSeen(cells[..n]);
      assert forall c :: c in cells <==> c in cells[..n] || c == cells[n];
      prev + (if cells[n].col in prev then [] else [cells[n].col])
  }

  /** Insert a key into an increasing list, keeping it increasing. */
  function InsertSorted(s: seq<int>, x: int): (r: seq<int>)
    requires Increasing(s) && x !in s
    ensures Increasing(r) && |r| == |s| + 1
    ensures forall y :: y in r <==> y in s || y == x
    decreases |s|
  {
    if s == [] || x < s[0] then [x] + s
    else
      assert s[0] in s;
      assert s[0] < x;
      var rest := InsertSorted(s[1..], x);
      assert forall y :: y in s[1..] ==> s[0] < y;
      assert forall y :: y in rest ==> s[0] < y;
      assert forall j :: 0 <= j < |rest| ==> rest[j] in rest;
      assert forall j :: 0 <= j < |rest| ==> s[0] < rest[j];
      [s[0]] + rest
  }

  /** Python's `sorted` over distinct integer keys: the same keys, increasing. */
  function SortKeys(keys: seq<int>): (r: seq<int>)
    requires forall i, j :: 0 <= i < j < |keys| ==> keys[i] != keys[j]
    ensures Increasing(r) && |r| == |keys|
    ensures forall y :: y in r <==> y in keys
    decreases |keys|
  {
    if keys == [] then []
    else
      var n := |keys| - 1;
      assert keys[n] !in keys[..n];
      InsertSorted(SortKeys(keys[..n]), keys[n])
  }

  /** Entry `i` of an increasing list whose keys are exactly `0..k-1` is `i`. */
  lemma {:induction false} RangeAt(r: seq<int>, k: nat, i: nat)
    requires Increasing(r) && (forall x :: x in r <==> 0 <= x < k) && i < |r|
    ensures r[i] == i
  {
    if i > 0 {
      RangeAt(r, k, i - 1);
      assert r[i - 1] < r[i];
    } else {
      assert r[0] in r;
    }
    assert r[i] in r;
    assert i in r;
    var j :| 0 <= j < |r| && r[j] == i;
    if j > i {
      assert r[i] < r[j];
    }
  }

  /** An increasing list whose keys are exactly `0..k-1` is `0, 1, ..., k-1`. */
  lemma IncreasingRange(r: seq<int>, k: nat)
    requires Increasing(r) && forall x :: x in r <==> 0 <= x < k
    ensures |r| == k && forall i :: 0 <= i < k ==> r[i] == i
  {
    forall i | 0 <= i < |r|
      ensures r[i] == i
    {
      RangeAt(r, k, i);
    }
    if |r| > 0 {
      assert r[|r| - 1] in r;
    }
    if k > 0 {
      assert k - 1 in r;
    }
  }

  /** Some cell lies in column `col`. */
  ghost predicate HasColumn(cells: seq<TableCell>, col: int)
  {
    exists c :: c in cells && c.col == col
  }

  /** The cells' columns are exactly `0..k-1`. */
  ghost predicate ColumnsAre(cells: seq<TableCell>, k: nat)
  {
    && (forall i :: 0 <= i < |cells| ==> 0 <= cells[i].col < k)
    && (forall col :: 0 <= col < k ==> HasColumn(cells, col))
  }

  /** One width per occurring column, in increasing column order. */
  function OptimalWidths(cells: seq<TableCell>, cfg: TableConfig): (widths: seq<real>)
  {
    var keys := SortKeys(FirstSeen(cells));
    seq(|keys|, i requires 0 <= i < |keys| => ColumnWidth(cells, keys[i], cfg))
  }

  /** When the columns are exactly `0..k-1`, width `c` belongs to column `c`. */
  lemma OptimalWidthsOfGrid(cells: seq<TableCell>, k: nat, cfg: TableConfig)
    requires ColumnsAre(cells, k)
    ensures |OptimalWidths(cells, cfg)| == k
    ensures forall c :: 0 <= c < k ==> OptimalWidths(cells, cfg)[c] == ColumnWidth(cells, c, cfg)
  {
    var keys := SortKeys(FirstSeen(cells));
    forall x
      ensures x in keys <==> 0 <= x < k
    {
      if 0 <= x < k {
        assert HasColumn(cells, x);
      }
    }
    IncreasingRange(keys, k);
  }

  /**
   * The grouping dictionary: each column that occurs maps to its cells in
   * order, and its keys in insertion order are the columns as first seen.
   */
  method GroupByColumn(cells: seq<TableCell>) returns (columns: map<int, seq<TableCell>>, keyOrder: seq<int>)
    ensures keyOrder == FirstSeen(cells)
    ensures forall col :: col in columns <==> col in keyOrder
    ensures forall col :: col in columns ==> columns[col] == InColumn(cells, col)
  {
    columns := map[];
    keyOrder := [];
    var i := 0;
    while i < |cells|
      invariant i <= |cells|
      invariant keyOrder == FirstSeen(cells[..i])
      invariant forall col :: col in columns <==> col in keyOrder
      invariant forall col :: col in columns ==> columns[col] == InColumn(cells[..i], col)
    {
      var cell := cells[i];
      ghost var seen := cells[..i];
      assert cells[..i + 1] == seen + [cell];
      if cell.col !in columns {
        NoCellsNoColumn(seen, cell.col);
        columns := columns[cell.col := []];
        keyOrder := keyOrder + [cell.col];
      }
      columns := columns[cell.col := columns[cell.col] + [cell]];
      i := i + 1;
      forall col | col in columns
        ensures columns[col] == InColumn(cells[..i], col)
      {
        InColumnStep(seen, cell, col);
      }
    }
    assert cells[..i] == cells;
  }

  /** The widest estimated text among one column's cells, or zero for none. */
  method WidestText(colCells: seq<TableCell>, cfg: TableConfig) returns (maxWidth: real)
    ensures maxWidth == MaxTextWidth(colCells, cfg)
  {
    maxWidth := 0.0;
    var j := 0;
    while j < |colCells|
      invariant j <= |colCells|
      invariant maxWidth == MaxTextWidth(colCells[..j], cfg)
    {
      assert colCells[..j + 1][..j] == colCells[..j];
      // Roughly 0.6 of the font size per character.
      var charWidth := cfg.fontSize * 0.6;
      var textWidth := (|colCells[j].text| as real) * charWidth;
      var cellWidth := textWidth + cfg.cellPadding * 2.0;
      maxWidth := Max(maxWidth, cellWidth);
      j := j + 1;
    }
    assert colCells[..j] == colCells;
  }

  /** For each key in turn, the widest text of its group, at least the minimum column width. */
  method WidthsInKeyOrder(columns: map<int, seq<TableCell>>, keys: seq<int>, cells: seq<TableCell>, cfg: TableConfig)
    returns (widths: seq<real>)
    requires forall key :: key in keys ==> key in columns && columns[key] == InColumn(cells, key)
    ensures |widths| == |keys|
    ensures forall j :: 0 <= j < |keys| ==> widths[j] == ColumnWidth(cells, keys[j], cfg)
  {
    widths := [];
    var k := 0;
    while k < |keys|
      invariant k <= |keys| && |widths| == k
      invariant forall j :: 0 <= j < k ==> widths[j] == ColumnWidth(cells, keys[j], cfg)
    {
      var key := keys[k];
      assert key in keys;
      var maxWidth := WidestText(columns[key], cfg);
      maxWidth := Max(maxWidth, MinColumnWidthMm);
      widths := widths + [maxWidth];
      k := k + 1;
    }
  }

  /** Group the cells by column, then take each column's widest text, at least the minimum. */
  method CalculateOptimalWidths(cells: seq<TableCell>, cfg: TableConfig) returns (widths: seq<real>)
    ensures widths == OptimalWidths(cells, cfg)
  {
    // Python's dictionary keeps its keys in insertion order; `keyOrder` is that order.
    var columns, keyOrder := GroupByColumn(cells);
    var keys := SortKeys(keyOrder);
    widths := WidthsInKeyOrder(columns, keys, cells, cfg);
  }

  // ---------------------------------------------------------------------
  // Columns and cells
  // ---------------------------------------------------------------------

  /** The detailed style's columns: three fixed ones, then each optional one whose flag is set. */
  function DetailedColumns(cfg: TableConfig): (cols: seq<string>)
  {
    ["Layer", "Type", "Thickness"]
    + (if cfg.showMaterial then ["Material"] else [])
    + (if cfg.showEpsilon then [EpsilonHeader] else [])
    + (if cfg.showLossTangent then [TanDeltaHeader] else [])
    + (if cfg.showColor then ["Color"] else [])
  }

  const CompactColumns: seq<string> := ["Layer", "Thickness", "Material"]
  const MinimalColumns: seq<string> := ["Layer", "Thickness"]

  /** Every column the detailed style can show, in display order. */
  const AllDetailedColumns: seq<string> :=
    ["Layer", "Type", "Thickness", "Material", EpsilonHeader, TanDeltaHeader, "Color"]

  /** The entries of `xs` whose flag in `keep` is set, in their order. */
  function KeepFlagged<T>(xs: seq<T>, keep: seq<bool>): seq<T>
    requires |keep| == |xs|
    decreases |xs|
  {
    if xs == [] then []
    else
      var n := |xs| - 1;
      KeepFlagged(xs[..n], keep[..n]) + (if keep[n] then [xs[n]] else [])
  }

  /**
   * The detailed columns are the full column list with every switched-off
   * optional column removed: Layer, Type and Thickness always, then
   * Material, epsilon, tan delta and Color each exactly when its flag is set,
   * in that order.
   */
  lemma DetailedColumnsOrder(cfg: TableConfig)
    ensures DetailedColumns(cfg)
            == KeepFlagged(AllDetailedColumns, [true, true, true, cfg.showMaterial, cfg.showEpsilon,
                                                cfg.showLossTangent, cfg.showColor])
  {
    var xs := AllDetailedColumns;
    var ks := [true, true, true, cfg.showMaterial, cfg.showEpsilon, cfg.showLossTangent, cfg.showColor];
    KeepStep(xs, ks, 0);
    KeepStep(xs, ks, 1);
    KeepStep(xs, ks, 2);
    assert KeepFlagged(xs[..3], ks[..3]) == ["Layer", "Type", "Thickness"];
    KeepStep(xs, ks, 3);
    KeepStep(xs, ks, 4);
    KeepStep(xs, ks, 5);
    KeepStep(xs, ks, 6);
    assert xs[..7] == xs && ks[..7] == ks;
  }

  /** The filter over the first `k + 1` entries extends the filter over the first `k`. */
  lemma KeepStep<T>(xs: seq<T>, keep: seq<bool>, k: nat)
    requires |keep| == |xs| && k < |xs|
    ensures KeepFlagged(xs[..k + 1], keep[..k + 1])
            == KeepFlagged(xs[..k], keep[..k]) + (if keep[k] then [xs[k]] else [])
  {
    assert xs[..k + 1][..k] == xs[..k] && keep[..k + 1][..k] == keep[..k];
  }

  /** `str.capitalize` over ASCII letters: first character upper case, the rest lower case. */
  function Capitalize(s: string): (r: string)
    ensures |r| == |s|
  {
    if s == [] then [] else [UpperAscii(s[0])] + seq(|s| - 1, i requires 0 <= i < |s| - 1 => LowerAscii(s[i + 1]))
  }

  /** The text of a layer's Type cell. */
  function TypeLabel(t: LayerType): string
  {
    Capitalize(LayerTypeValue(t))
  }

  /** The Type cell shows the enum value with a capital initial: the board layers. */
  lemma TypeLabels()
    ensures TypeLabel(Copper) == "Copper" && TypeLabel(Dielectric) == "Dielectric"
    ensures TypeLabel(Soldermask) == "Soldermask"
  {
  }

  /** The same for the two assembly layers. */
  lemma AssemblyTypeLabels()
    ensures TypeLabel(Silkscreen) == "Silkscreen" && TypeLabel(Solderpaste) == "Solderpaste"
  {
  }

  /** A missing or zero value shows a dash (Python's falsy test on a float). */
  function EpsilonText(v: Option<real>, render: Render): string
  {
    if v.None? || v.value == 0.0 then EmDash else FormatEpsilon(v.value, render)
  }

  function LossTangentText(v: Option<real>, render: Render): string
  {
    if v.None? || v.value == 0.0 then EmDash else FormatLossTangent(v.value, render)
  }

  /** A missing or empty colour shows a dash. */
  function ColorText(v: Option<string>): string
  {
    if v.None? || v.value == "" then EmDash else v.value
  }

  /**
   * The data cell a column with header `h` holds for `layer`: its text,
   * initial width and alignment depend on the header alone, in every style.
   */
  function CellFor(h: string, layer: StackupLayer, row: int, col: int, cfg: TableConfig, render: Render): (c: TableCell)
    ensures c.row == row && c.col == col && !c.isHeader && c.height == cfg.rowHeight
  {
    var rh := cfg.rowHeight;
    if h == "Layer" then TableCell(FormatLayerName(layer.name, LayerNameMaxLength), row, col, 15.0, rh, "left", false)
    else if h == "Type" then TableCell(TypeLabel(layer.layerType), row, col, 15.0, rh, "center", false)
    else if h == "Thickness" then
      TableCell(FormatThickness(layer.thickness, ThicknessPrecision, cfg.units, render), row, col, 15.0, rh, "right", false)
    else if h == "Material" then TableCell(layer.material, row, col, 15.0, rh, "left", false)
    else if h == EpsilonHeader then TableCell(EpsilonText(layer.epsilonR, render), row, col, 10.0, rh, "center", false)
    else if h == TanDeltaHeader then TableCell(LossTangentText(layer.lossTangent, render), row, col, 10.0, rh, "center", false)
    else TableCell(ColorText(layer.color), row, col, 10.0, rh, "center", false)
  }

  /**
   * The optional property cells: a missing, zero or empty value shows a
   * dash, any other value its formatted text.
   */
  lemma MissingValuesShowDash(layer: StackupLayer, row: int, col: int, cfg: TableConfig, render: Render)
    ensures var e := CellFor(EpsilonHeader, layer, row, col, cfg, render);
            && (layer.epsilonR.None? || layer.epsilonR.value == 0.0 ==> e.text == EmDash)
            && (layer.epsilonR.Some? && layer.epsilonR.value != 0.0 ==> e.text == FormatEpsilon(layer.epsilonR.value, render))
            && e.width == 10.0 && e.align == "center"
    ensures var t := CellFor(TanDeltaHeader, layer, row, col, cfg, render);
            && (layer.lossTangent.None? || layer.lossTangent.value == 0.0 ==> t.text == EmDash)
            && (layer.lossTangent.Some? && layer.lossTangent.value != 0.0 ==>
                  t.text == FormatLossTangent(layer.lossTangent.value, render))
            && t.width == 10.0 && t.align == "center"
    ensures var c := CellFor("Color", layer, row, col, cfg, render);
            && (layer.color.None? || layer.color.value == "" ==> c.text == EmDash)
            && (layer.color.Some? && layer.color.value != "" ==> c.text == layer.color.value)
            && c.width == 10.0 && c.align == "center"
  {
  }

  /** One header cell per column at row 0, centred, marked as a header. */
  function HeaderCells(columns: seq<string>, rowHeight: real): seq<TableCell>
  {
    seq(|columns|, c requires 0 <= c < |columns| => TableCell(columns[c], 0, c, 15.0, rowHeight, "center", true))
  }

  /** The reference row: under each column, the cell its header calls for. */
  function RowCells(columns: seq<string>, layer: StackupLayer, row: int, cfg: TableConfig, render: Render): seq<TableCell>
  {
    seq(|columns|, c requires 0 <= c < |columns| => CellFor(columns[c], layer, row, c, cfg, render))
  }

  /** The reference data rows: layer `i` on row `i + 1`. */
  function RowsOf(layers: seq<StackupLayer>, columns: seq<string>, cfg: TableConfig, render: Render): (r: seq<TableCell>)
    decreases |layers|
  {
    if layers == [] then []
    else
      var n := |layers| - 1;
      RowsOf(layers[..n], columns, cfg, render) + RowCells(columns, layers[n], n + 1, cfg, render)
  }

  /** Append a cell at the next column when the flag is set, as the detailed builder does. */
  function AppendIf(acc: seq<TableCell>, show: bool, text: string, row: int, width: real,
                    rowHeight: real, align: string): seq<TableCell>
  {
    if show then acc + [TableCell(text, row, |acc|, width, rowHeight, align, false)] else acc
  }

  /** The detailed builder's row for one layer, in its order of appends with a running column counter. */
  function DetailedRow(layer: StackupLayer, row: int, cfg: TableConfig, render: Render): seq<TableCell>
  {
    var rh := cfg.rowHeight;
    var fixed := [TableCell(FormatLayerName(layer.name, LayerNameMaxLength), row, 0, 15.0, rh, "left", false),
                  TableCell(TypeLabel(layer.layerType), row, 1, 15.0, rh, "center", false),
                  TableCell(FormatThickness(layer.thickness, ThicknessPrecision, cfg.units, render), row, 2, 15.0, rh, "right", false)];
    var m := AppendIf(fixed, cfg.showMaterial, layer.material, row, 15.0, rh, "left");
    var e := AppendIf(m, cfg.showEpsilon, EpsilonText(layer.epsilonR, render), row, 10.0, rh, "center");
    var t := AppendIf(e, cfg.showLossTangent, LossTangentText(layer.lossTangent, render), row, 10.0, rh, "center");
    AppendIf(t, cfg.showColor, ColorText(layer.color), row, 10.0, rh, "center")
  }

  /** One optional append keeps the row in step with the columns, when the new cell is the one its header calls for. */
  lemma AppendIfMatches(acc: seq<TableCell>, cols: seq<string>, show: bool, h: string, text: string, width: real,
                        align: string, layer: StackupLayer, row: int, cfg: TableConfig, render: Render)
    requires acc == RowCells(cols, layer, row, cfg, render)
    requires CellFor(h, layer, row, |acc|, cfg, render) == TableCell(text, row, |acc|, width, cfg.rowHeight, align, false)
    ensures AppendIf(acc, show, text, row, width, cfg.rowHeight, align)
            == RowCells(cols + (if show then [h] else []), layer, row, cfg, render)
  {
  }

  /**
   * The header list and every data row are built under the same flags, so
   * under every detailed column sits the cell its header calls for.
   */
  lemma DetailedRowMatchesHeaders(layer: StackupLayer, row: int, cfg: TableConfig, render: Render)
    ensures DetailedRow(layer, row, cfg, render) == RowCells(DetailedColumns(cfg), layer, row, cfg, render)
  {
    var rh := cfg.rowHeight;
    var fixedCols := ["Layer", "Type", "Thickness"];
    var fixed := [TableCell(FormatLayerName(layer.name, LayerNameMaxLength), row, 0, 15.0, rh, "left", false),
                  TableCell(TypeLabel(layer.layerType), row, 1, 15.0, rh, "center", false),
                  TableCell(FormatThickness(layer.thickness, ThicknessPrecision, cfg.units, render), row, 2, 15.0, rh, "right", false)];
    assert fixed == RowCells(fixedCols, layer, row, cfg, render);
    var mCols := fixedCols + (if cfg.showMaterial then ["Material"] else []);
    AppendIfMatches(fixed, fixedCols, cfg.showMaterial, "Material", layer.material, 15.0, "left", layer, row, cfg, render);
    var m := AppendIf(fixed, cfg.showMaterial, layer.material, row, 15.0, rh, "left");
    var eCols := mCols + (if cfg.showEpsilon then [EpsilonHeader] else []);
    AppendIfMatches(m, mCols, cfg.showEpsilon, EpsilonHeader, EpsilonText(layer.epsilonR, render), 10.0, "center",
                    layer, row, cfg, render);
    var e := AppendIf(m, cfg.showEpsilon, EpsilonText(layer.epsilonR, render), row, 10.0, rh, "center");
    var tCols := eCols + (if cfg.showLossTangent then [TanDeltaHeader] else []);
    AppendIfMatches(e, eCols, cfg.showLossTangent, TanDeltaHeader, LossTangentText(layer.lossTangent, render), 10.0,
                    "center", layer, row, cfg, render);
    var t := AppendIf(e, cfg.showLossTangent, LossTangentText(layer.lossTangent, render), row, 10.0, rh, "center");
    AppendIfMatches(t, tCols, cfg.showColor, "Color", ColorText(layer.color), 10.0, "center", layer, row, cfg, render);
  }

  /**
   * The detailed builder's cells for one layer, appended with a running
   * column counter: under every column of the detailed header sits the cell
   * that header calls for.
   */
  method DetailedDataRow(layer: StackupLayer, row: int, cfg: TableConfig, render: Render) returns (rowCells: seq<TableCell>)
    ensures rowCells == RowCells(DetailedColumns(cfg), layer, row, cfg, render)
  {
    var rh := cfg.rowHeight;
    var col := 0;
    rowCells := [TableCell(FormatLayerName(layer.name, LayerNameMaxLength), row, col, 15.0, rh, "left", false)];
    col := col + 1;
    rowCells := rowCells + [TableCell(TypeLabel(layer.layerType), row, col, 15.0, rh, "center", false)];
    col := col + 1;
    rowCells := rowCells + [TableCell(FormatThickness(layer.thickness, ThicknessPrecision, cfg.units, render),
                                      row, col, 15.0, rh, "right", false)];
    col := col + 1;
    assert rowCells == [TableCell(FormatLayerName(layer.name, LayerNameMaxLength), row, 0, 15.0, rh, "left", false),
                        TableCell(TypeLabel(layer.layerType), row, 1, 15.0, rh, "center", false),
                        TableCell(FormatThickness(layer.thickness, ThicknessPrecision, cfg.units, render),
                                  row, 2, 15.0, rh, "right", false)];
    ghost var before := rowCells;
    assert col == |before|;
    if cfg.showMaterial {
      rowCells := rowCells + [TableCell(layer.material, row, col, 15.0, rh, "left", false)];
      col := col + 1;
    }
    assert rowCells == AppendIf(before, cfg.showMaterial, layer.material, row, 15.0, rh, "left");
    before := rowCells;
    assert col == |before|;
    if cfg.showEpsilon {
      rowCells := rowCells + [TableCell(EpsilonText(layer.epsilonR, render), row, col, 10.0, rh, "center", false)];
      col := col + 1;
    }
    assert rowCells == AppendIf(before, cfg.showEpsilon, EpsilonText(layer.epsilonR, render), row, 10.0, rh, "center");
    before := rowCells;
    assert col == |before|;
    if cfg.showLossTangent {
      rowCells := rowCells + [TableCell(LossTangentText(layer.lossTangent, render), row, col, 10.0, rh, "center", false)];
      col := col + 1;
    }
    assert rowCells == AppendIf(before, cfg.showLossTangent, LossTangentText(layer.lossTangent, render), row, 10.0, rh, "center");
    before := rowCells;
    assert col == |before|;
    if cfg.showColor {
      rowCells := rowCells + [TableCell(ColorText(layer.color), row, col, 10.0, rh, "center", false)];
      col := col + 1;
    }
    assert rowCells == AppendIf(before, cfg.showColor, ColorText(layer.color), row, 10.0, rh, "center");
    assert rowCells == DetailedRow(layer, row, cfg, render);
    DetailedRowMatchesHeaders(layer, row, cfg, render);
  }

  /** The compact and minimal builders append fixed cells; they are the ones their headers call for. */
  lemma ShortRowsMatchHeaders(layer: StackupLayer, row: int, cfg: TableConfig, render: Render)
    ensures RowCells(CompactColumns, layer, row, cfg, render)
            == [TableCell(FormatLayerName(layer.name, LayerNameMaxLength), row, 0, 15.0, cfg.rowHeight, "left", false),
                TableCell(FormatThickness(layer.thickness, ThicknessPrecision, cfg.units, render),
                          row, 1, 15.0, cfg.rowHeight, "right", false),
                TableCell(layer.material, row, 2, 15.0, cfg.rowHeight, "left", false)]
    ensures RowCells(MinimalColumns, layer, row, cfg, render)
            == [TableCell(FormatLayerName(layer.name, LayerNameMaxLength), row, 0, 15.0, cfg.rowHeight, "left", false),
                TableCell(FormatThickness(layer.thickness, ThicknessPrecision, cfg.units, render),
                          row, 1, 15.0, cfg.rowHeight, "right", false)]
  {
  }

  /** The copper layers, in their original order. */
  function CopperOnly(layers: seq<StackupLayer>): (r: seq<StackupLayer>)
    ensures |r| <= |layers|
    decreases |layers|
  {
    if layers == [] then []
    else
      var n := |layers| - 1;
      CopperOnly(layers[..n]) + (if layers[n].layerType == Copper then [layers[n]] else [])
  }

  /** The filter keeps exactly the copper layers. */
  lemma {:induction false} CopperOnlyMembers(layers: seq<StackupLayer>)
    ensures forall l :: l in CopperOnly(layers) <==> l in layers && l.layerType == Copper
    decreases |layers|
  {
    if layers != [] {
      var n := |layers| - 1;
      CopperOnlyMembers(layers[..n]);
      assert layers == layers[..n] + [layers[n]];
    }
  }

  /** Appending one layer adds its reference row, numbered after the others. */
  lemma RowsOfAppend(layers: seq<StackupLayer>, l: StackupLayer, columns: seq<string>, cfg: TableConfig, render: Render)
    ensures RowsOf(layers + [l], columns, cfg, render)
            == RowsOf(layers, columns, cfg, render) + RowCells(columns, l, |layers| + 1, cfg, render)
  {
    assert (layers + [l])[..|layers|] == layers;
  }

  /** The same step seen from a table under construction: the new layer's row goes at the end. */
  lemma BodyAppend(header: seq<TableCell>, layers: seq<StackupLayer>, l: StackupLayer, columns: seq<string>,
                   cfg: TableConfig, render: Render)
    ensures header + RowsOf(layers + [l], columns, cfg, render)
            == header + RowsOf(layers, columns, cfg, render) + RowCells(columns, l, |layers| + 1, cfg, render)
  {
    RowsOfAppend(layers, l, columns, cfg, render);
  }

  /** Appending one layer to the stack extends the copper filter by that layer when it is copper. */
  lemma CopperOnlyAppend(layers: seq<StackupLayer>, l: StackupLayer)
    ensures CopperOnly(layers + [l]) == CopperOnly(layers) + (if l.layerType == Copper then [l] else [])
  {
    assert (layers + [l])[..|layers|] == layers;
  }

  /**
   * Where row `i` of a row-major grid `k` cells wide starts: `i` rows of `k`
   * cells. Written as repeated addition so that index reasoning stays linear;
   * `RowOffsetIsProduct` ties it to `k * i`.
   */
  function RowOffset(k: nat, i: nat): nat
  {
    if i == 0 then 0 else RowOffset(k, i - 1) + k
  }

  lemma {:induction false} RowOffsetIsProduct(k: nat, i: nat)
    ensures RowOffset(k, i) == k * i
  {
    if i > 0 {
      RowOffsetIsProduct(k, i - 1);
    }
  }

  /** An earlier row ends no later than a later one starts. */
  lemma {:induction false} RowOffsetGrows(k: nat, i: nat, n: nat)
    requires i < n
    ensures RowOffset(k, i) + k <= RowOffset(k, n)
    decreases n
  {
    if i < n - 1 {
      RowOffsetGrows(k, i, n - 1);
    }
  }

  /** The reference rows hold `k` cells per layer. */
  lemma {:induction false} RowsOfLength(layers: seq<StackupLayer>, columns: seq<string>, cfg: TableConfig, render: Render)
    ensures |RowsOf(layers, columns, cfg, render)| == RowOffset(|columns|, |layers|)
    decreases |layers|
  {
    if layers != [] {
      RowsOfLength(layers[..|layers| - 1], columns, cfg, render);
    }
  }

  /** The reference cell of layer `i` at column `c` sits at index `RowOffset(k, i) + c`, on row `i + 1`. */
  lemma {:induction false} RowsOfAt(layers: seq<StackupLayer>, columns: seq<string>, cfg: TableConfig, render: Render,
                                    i: nat, c: nat)
    requires i < |layers| && c < |columns|
    ensures RowOffset(|columns|, i) + c < |RowsOf(layers, columns, cfg, render)|
    ensures RowsOf(layers, columns, cfg, render)[RowOffset(|columns|, i) + c]
            == CellFor(columns[c], layers[i], i + 1, c, cfg, render)
    decreases |layers|
  {
    var n := |layers| - 1;
    var prev := RowsOf(layers[..n], columns, cfg, render);
    var last := RowCells(columns, layers[n], n + 1, cfg, render);
    assert RowsOf(layers, columns, cfg, render) == prev + last;
    RowsOfLength(layers[..n], columns, cfg, render);
    if i < n {
      RowsOfAt(layers[..n], columns, cfg, render, i, c);
      RowOffsetGrows(|columns|, i, n);
      assert layers[..n][i] == layers[i];
    } else {
      assert (prev + last)[|prev| + c] == last[c];
    }
  }

  /** Every reference data cell lies in one of the `k` columns. */
  lemma {:induction false} RowsOfColumns(layers: seq<StackupLayer>, columns: seq<string>, cfg: TableConfig, render: Render)
    ensures forall j :: 0 <= j < |RowsOf(layers, columns, cfg, render)| ==>
              0 <= RowsOf(layers, columns, cfg, render)[j].col < |columns|
    decreases |layers|
  {
    if layers != [] {
      RowsOfColumns(layers[..|layers| - 1], columns, cfg, render);
    }
  }

  /** A table body has exactly the columns `0..k-1`: the header row names each one, and no cell lies outside. */
  lemma GridColumns(columns: seq<string>, layers: seq<StackupLayer>, cfg: TableConfig, render: Render)
    ensures ColumnsAre(Body(columns, layers, cfg, render), |columns|)
  {
    var header := HeaderCells(columns, cfg.rowHeight);
    var cells := header + RowsOf(layers, columns, cfg, render);
    RowsOfColumns(layers, columns, cfg, render);
    forall col | 0 <= col < |columns|
      ensures HasColumn(cells, col)
    {
      assert cells[col] in cells && cells[col].col == col;
    }
  }

  // ---------------------------------------------------------------------
  // Finished tables
  // ---------------------------------------------------------------------

  /** `cell.width = column_widths[cell.col]` for every cell. */
  function WithWidths(cells: seq<TableCell>, widths: seq<real>): seq<TableCell>
    requires forall i :: 0 <= i < |cells| ==> 0 <= cells[i].col < |widths|
  {
    seq(|cells|, i requires 0 <= i < |cells| => cells[i].(width := widths[cells[i].col]))
  }

  /**
   * Height of `rows` rows of height `rowHeight`, as a sum of one row height
   * per row; `RowsHeightIsProduct` shows it is `rows * rowHeight`.
   */
  function RowsHeight(rows: nat, rowHeight: real): real
  {
    if rows == 0 then 0.0 else RowsHeight(rows - 1, rowHeight) + rowHeight
  }

  lemma {:induction false} RowsHeightIsProduct(rows: nat, rowHeight: real)
    ensures RowsHeight(rows, rowHeight) == rows as real * rowHeight
  {
    if rows > 0 {
      RowsHeightIsProduct(rows - 1, rowHeight);
    }
  }

  /** The finished table: fitted widths on every cell, total width their sum, total height `rows` rows. */
  function Finish(cells: seq<TableCell>, columns: seq<string>, rows: nat, cfg: TableConfig): TableLayout
    requires ColumnsAre(cells, |columns|)
  {
    var widths := OptimalWidths(cells, cfg);
    OptimalWidthsOfGrid(cells, |columns|, cfg);
    TableLayout(WithWidths(cells, widths), Sum(widths), RowsHeight(rows, cfg.rowHeight), columns,
                cfg.rowHeight, cfg.cellPadding)
  }

  /** The header row followed by one reference row per layer, before widths are fitted. */
  function Body(columns: seq<string>, layers: seq<StackupLayer>, cfg: TableConfig, render: Render): seq<TableCell>
  {
    HeaderCells(columns, cfg.rowHeight) + RowsOf(layers, columns, cfg, render)
  }

  /** The finished table of a body; `row` ends one past the last layer. */
  function TableOf(columns: seq<string>, layers: seq<StackupLayer>, cfg: TableConfig, render: Render): TableLayout
  {
    GridColumns(columns, layers, cfg, render);
    Finish(Body(columns, layers, cfg, render), columns, |layers| + 1, cfg)
  }

  function DetailedTable(stackup: StackupData, cfg: TableConfig, render: Render): TableLayout
  {
    TableOf(DetailedColumns(cfg), stackup.layers, cfg, render)
  }

  function CompactTable(stackup: StackupData, cfg: TableConfig, render: Render): TableLayout
  {
    TableOf(CompactColumns, stackup.layers, cfg, render)
  }

  /** The minimal style lists the copper layers only. */
  function MinimalTable(stackup: StackupData, cfg: TableConfig, render: Render): TableLayout
  {
    TableOf(MinimalColumns, CopperOnly(stackup.layers), cfg, render)
  }

  /** Finishing keeps every cell in place and gives it the fitted width of its column. */
  lemma FinishAt(cells: seq<TableCell>, columns: seq<string>, rows: nat, cfg: TableConfig, j: nat)
    requires ColumnsAre(cells, |columns|) && j < |cells|
    ensures |Finish(cells, columns, rows, cfg).cells| == |cells|
    ensures Finish(cells, columns, rows, cfg).cells[j] == cells[j].(width := ColumnWidth(cells, cells[j].col, cfg))
  {
    OptimalWidthsOfGrid(cells, |columns|, cfg);
  }

  /** Finishing sums the fitted widths, one per column, and keeps the columns, row height and padding. */
  lemma FinishTotals(cells: seq<TableCell>, columns: seq<string>, rows: nat, cfg: TableConfig)
    requires ColumnsAre(cells, |columns|)
    ensures |Finish(cells, columns, rows, cfg).cells| == |cells|
    ensures |OptimalWidths(cells, cfg)| == |columns|
    ensures Finish(cells, columns, rows, cfg).totalWidth == Sum(OptimalWidths(cells, cfg))
    ensures Finish(cells, columns, rows, cfg).columns == columns
    ensures Finish(cells, columns, rows, cfg).rowHeight == cfg.rowHeight
    ensures Finish(cells, columns, rows, cfg).cellPadding == cfg.cellPadding
  {
    OptimalWidthsOfGrid(cells, |columns|, cfg);
  }

  /**
   * A finished table has one header row and one row per listed layer; it
   * keeps the columns, row height and padding; its total width is the sum
   * of the fitted widths, one per column, and its total height one row
   * height per row.
   */
  lemma TableTotals(columns: seq<string>, layers: seq<StackupLayer>, cfg: TableConfig, render: Render)
    ensures |TableOf(columns, layers, cfg, render).cells| == RowOffset(|columns|, |layers| + 1)
    ensures |OptimalWidths(Body(columns, layers, cfg, render), cfg)| == |columns|
    ensures TableOf(columns, layers, cfg, render).totalWidth == Sum(OptimalWidths(Body(columns, layers, cfg, render), cfg))
    ensures TableOf(columns, layers, cfg, render).columns == columns
    ensures TableOf(columns, layers, cfg, render).rowHeight == cfg.rowHeight
    ensures TableOf(columns, layers, cfg, render).cellPadding == cfg.cellPadding
  {
    GridColumns(columns, layers, cfg, render);
    FinishTotals(Body(columns, layers, cfg, render), columns, |layers| + 1, cfg);
    RowsOfLength(layers, columns, cfg, render);
  }

  /** The table is one row height tall per row: the header row and one row per listed layer. */
  lemma TableHeight(columns: seq<string>, layers: seq<StackupLayer>, cfg: TableConfig, render: Render)
    ensures TableOf(columns, layers, cfg, render).totalHeight == RowsHeight(|layers| + 1, cfg.rowHeight)
    ensures TableOf(columns, layers, cfg, render).totalHeight == RowsHeight(|layers|, cfg.rowHeight) + cfg.rowHeight
  {
    GridColumns(columns, layers, cfg, render);
    assert TableOf(columns, layers, cfg, render) == Finish(Body(columns, layers, cfg, render), columns, |layers| + 1, cfg);
  }

  /** Header cell `c` names column `c` at row 0, centred, with the column's fitted width. */
  lemma TableHeaderAt(columns: seq<string>, layers: seq<StackupLayer>, cfg: TableConfig, render: Render, c: nat)
    requires c < |columns|
    ensures c < |TableOf(columns, layers, cfg, render).cells|
    ensures TableOf(columns, layers, cfg, render).cells[c]
            == TableCell(columns[c], 0, c, ColumnWidth(Body(columns, layers, cfg, render), c, cfg), cfg.rowHeight, "center", true)
  {
    GridColumns(columns, layers, cfg, render);
    FinishAt(Body(columns, layers, cfg, render), columns, |layers| + 1, cfg, c);
  }

  /**
   * Under column `c` in row `i + 1` sits the cell its header calls for, for
   * layer `i`, with the column's fitted width.
   */
  lemma TableCellAt(columns: seq<string>, layers: seq<StackupLayer>, cfg: TableConfig, render: Render, i: nat, c: nat)
    requires i < |layers| && c < |columns|
    ensures RowOffset(|columns|, i + 1) + c < |TableOf(columns, layers, cfg, render).cells|
    ensures TableOf(columns, layers, cfg, render).cells[RowOffset(|columns|, i + 1) + c]
            == CellFor(columns[c], layers[i], i + 1, c, cfg, render).(width := ColumnWidth(Body(columns, layers, cfg, render), c, cfg))
  {
    var body := Body(columns, layers, cfg, render);
    var j := RowOffset(|columns|, i + 1) + c;
    RowsOfAt(layers, columns, cfg, render, i, c);
    assert body[j] == RowsOf(layers, columns, cfg, render)[RowOffset(|columns|, i) + c];
    GridColumns(columns, layers, cfg, render);
    FinishAt(body, columns, |layers| + 1, cfg, j);
  }

  // ---------------------------------------------------------------------
  // The builders
  // ---------------------------------------------------------------------

  /** The header row: one centred header cell per column, in column order. */
  method HeaderRow(columns: seq<string>, rowHeight: real) returns (cells: seq<TableCell>)
    ensures cells == HeaderCells(columns, rowHeight)
  {
    cells := [];
    var col := 0;
    while col < |columns|
      invariant col <= |columns| && |cells| == col
      invariant forall c :: 0 <= c < col ==> cells[c] == TableCell(columns[c], 0, c, 15.0, rowHeight, "center", true)
    {
      cells := cells + [TableCell(columns[col], 0, col, 15.0, rowHeight, "center", true)];
      col := col + 1;
    }
  }

  /** Give every cell the width of its column; nothing else about any cell changes. */
  method AssignColumnWidths(cells: seq<TableCell>, widths: seq<real>) returns (updated: seq<TableCell>)
    requires forall i :: 0 <= i < |cells| ==> 0 <= cells[i].col < |widths|
    ensures updated == WithWidths(cells, widths)
  {
    updated := cells;
    var i := 0;
    while i < |updated|
      invariant i <= |updated| == |cells|
      invariant forall j :: 0 <= j < i ==> updated[j] == cells[j].(width := widths[cells[j].col])
      invariant forall j :: i <= j < |updated| ==> updated[j] == cells[j]
    {
      updated := updated[i := updated[i].(width := widths[updated[i].col])];
      i := i + 1;
    }
  }

  /** `rows` rows of height `rowHeight`, multiplied out. */
  method TotalHeight(rows: nat, rowHeight: real) returns (h: real)
    ensures h == RowsHeight(rows, rowHeight)
  {
    h := rows as real * rowHeight;
    RowsHeightIsProduct(rows, rowHeight);
  }

  /** Fit the column widths, write them into the cells, and total the table; `rows` counts the rows built. */
  method FinishTable(cells: seq<TableCell>, columns: seq<string>, rows: nat, cfg: TableConfig) returns (t: TableLayout)
    requires ColumnsAre(cells, |columns|)
    ensures t == Finish(cells, columns, rows, cfg)
  {
    var columnWidths := CalculateOptimalWidths(cells, cfg);
    OptimalWidthsOfGrid(cells, |columns|, cfg);
    var updated := AssignColumnWidths(cells, columnWidths);
    var totalWidth := Sum(columnWidths);
    var totalHeight := TotalHeight(rows, cfg.rowHeight);
    t := TableLayout(updated, totalWidth, totalHeight, columns, cfg.rowHeight, cfg.cellPadding);
  }

  /** The detailed column list: three fixed columns, then each optional one whose flag is set. */
  method DetailedColumnList(cfg: TableConfig) returns (columns: seq<string>)
    ensures columns == DetailedColumns(cfg)
  {
    columns := ["Layer", "Type", "Thickness"];
    if cfg.showMaterial {
      columns := columns + ["Material"];
    }
    if cfg.showEpsilon {
      columns := columns + [EpsilonHeader];
    }
    if cfg.showLossTangent {
      columns := columns + [TanDeltaHeader];
    }
    if cfg.showColor {
      columns := columns + ["Color"];
    }
  }

  /** The detailed table: the flagged columns, one row per layer. */
  method DetailedLayout(stackup: StackupData, cfg: TableConfig, render: Render) returns (t: TableLayout)
    ensures t == DetailedTable(stackup, cfg, render)
  {
    var columns := DetailedColumnList(cfg);
    var cells := HeaderRow(columns, cfg.rowHeight);
    var layers := stackup.layers;
    var row := 1;
    var i := 0;
    while i < |layers|
      invariant i <= |layers| && row == i + 1
      invariant cells == HeaderCells(columns, cfg.rowHeight) + RowsOf(layers[..i], columns, cfg, render)
    {
      var rowCells := DetailedDataRow(layers[i], row, cfg, render);
      BodyAppend(HeaderCells(columns, cfg.rowHeight), layers[..i], layers[i], columns, cfg, render);
      assert layers[..i + 1] == layers[..i] + [layers[i]];
      cells := cells + rowCells;
      row := row + 1;
      i := i + 1;
    }
    assert layers[..i] == layers;
    GridColumns(columns, layers, cfg, render);
    t := FinishTable(cells, columns, row, cfg);
  }

  /** The compact table: name, thickness and material, one row per layer. */
  method CompactLayout(stackup: StackupData, cfg: TableConfig, render: Render) returns (t: TableLayout)
    ensures t == CompactTable(stackup, cfg, render)
  {
    var columns := ["Layer", "Thickness", "Material"];
    var rh := cfg.rowHeight;
    var cells := HeaderRow(columns, rh);
    var layers := stackup.layers;
    var row := 1;
    var i := 0;
    while i < |layers|
      invariant i <= |layers| && row == i + 1
      invariant cells == HeaderCells(columns, rh) + RowsOf(layers[..i], columns, cfg, render)
    {
      var layer := layers[i];
      ghost var before := cells;
      cells := cells + [TableCell(FormatLayerName(layer.name, LayerNameMaxLength), row, 0, 15.0, rh, "left", false)];
      cells := cells + [TableCell(FormatThickness(layer.thickness, ThicknessPrecision, cfg.units, render),
                                  row, 1, 15.0, rh, "right", false)];
      cells := cells + [TableCell(layer.material, row, 2, 15.0, rh, "left", false)];
      ShortRowsMatchHeaders(layer, row, cfg, render);
      assert cells == before + RowCells(columns, layer, row, cfg, render);
      BodyAppend(HeaderCells(columns, rh), layers[..i], layer, columns, cfg, render);
      assert layers[..i + 1] == layers[..i] + [layer];
      row := row + 1;
      i := i + 1;
    }
    assert layers[..i] == layers;
    GridColumns(columns, layers, cfg, render);
    t := FinishTable(cells, columns, row, cfg);
  }

  /** The minimal table: name and thickness, one row per copper layer. */
  method MinimalLayout(stackup: StackupData, cfg: TableConfig, render: Render) returns (t: TableLayout)
    ensures t == MinimalTable(stackup, cfg, render)
  {
    var columns := ["Layer", "Thickness"];
    var rh := cfg.rowHeight;
    var cells := HeaderRow(columns, rh);
    var layers := stackup.layers;
    var row := 1;
    var i := 0;
    while i < |layers|
      invariant i <= |layers| && row == |CopperOnly(layers[..i])| + 1
      invariant cells == HeaderCells(columns, rh) + RowsOf(CopperOnly(layers[..i]), columns, cfg, render)
    {
      var layer := layers[i];
      CopperOnlyAppend(layers[..i], layer);
      assert layers[..i + 1] == layers[..i] + [layer];
      if layer.layerType == Copper {
        ghost var before := cells;
        cells := cells + [TableCell(FormatLayerName(layer.name, LayerNameMaxLength), row, 0, 15.0, rh, "left", false)];
        cells := cells + [TableCell(FormatThickness(layer.thickness, ThicknessPrecision, cfg.units, render),
                                    row, 1, 15.0, rh, "right", false)];
        ShortRowsMatchHeaders(layer, row, cfg, render);
        assert cells == before + RowCells(columns, layer, row, cfg, render);
        BodyAppend(HeaderCells(columns, rh), CopperOnly(layers[..i]), layer, columns, cfg, render);
        row := row + 1;
      } else {
        assert CopperOnly(layers[..i + 1]) == CopperOnly(layers[..i]);
      }
      i := i + 1;
    }
    assert layers[..i] == layers;
    GridColumns(columns, CopperOnly(layers), cfg, render);
    t := FinishTable(cells, columns, row, cfg);
  }

  /** The table of the configured style; a style that is neither "detailed" nor "compact" means minimal. */
  function LayoutFor(stackup: StackupData, cfg: TableConfig, render: Render): TableLayout
  {
    if cfg.style == "detailed" then DetailedTable(stackup, cfg, render)
    else if cfg.style == "compact" then CompactTable(stackup, cfg, render)
    else MinimalTable(stackup, cfg, render)
  }

  /**
   * The style decides the columns and which layers get a row: "detailed"
   * shows the flagged columns and "compact" three fixed ones, both for
   * every layer; any other style shows name and thickness for the copper
   * layers only. There is one header row and one row per listed layer.
   */
  lemma LayoutForShape(stackup: StackupData, cfg: TableConfig, render: Render)
    ensures var t := LayoutFor(stackup, cfg, render);
            && t.columns == (if cfg.style == "detailed" then DetailedColumns(cfg)
                             else if cfg.style == "compact" then CompactColumns
                             else MinimalColumns)
            && |t.cells| == RowOffset(|t.columns|, 1 + if cfg.style in {"detailed", "compact"} then |stackup.layers|
                                                       else |CopperOnly(stackup.layers)|)
  {
    if cfg.style == "detailed" {
      TableTotals(DetailedColumns(cfg), stackup.layers, cfg, render);
    } else if cfg.style == "compact" {
      TableTotals(CompactColumns, stackup.layers, cfg, render);
    } else {
      TableTotals(MinimalColumns, CopperOnly(stackup.layers), cfg, render);
    }
  }

  /** With no configuration the defaults apply; then the style picks the builder. */
  method CalculateTableLayout(stackup: StackupData, config: Option<TableConfig>, render: Render) returns (t: TableLayout)
    ensures config.None? ==> t == LayoutFor(stackup, DefaultTableConfig(), render)
    ensures config.Some? ==> t == LayoutFor(stackup, config.value, render)
  {
    var cfg := if config.None? then DefaultTableConfig() else config.value;
    if cfg.style == "detailed" {
      t := DetailedLayout(stackup, cfg, render);
    } else if cfg.style == "compact" {
      t := CompactLayout(stackup, cfg, render);
    } else {
      t := MinimalLayout(stackup, cfg, render);
    }
  }

  // ---------------------------------------------------------------------
  // Cell positions
  // ---------------------------------------------------------------------

  /** The width of the first cell in column `col`, scanning in order; zero when no cell lies there. */
  function FirstWidth(cells: seq<TableCell>, col: int): real
    decreases |cells|
  {
    if cells == [] then 0.0
    else if cells[0].col == col then cells[0].width
    else FirstWidth(cells[1..], col)
  }

  lemma {:induction false} FirstWidthAt(cells: seq<TableCell>, col: int, j: nat)
    requires j < |cells| && cells[j].col == col
    requires forall i :: 0 <= i < j ==> cells[i].col != col
    ensures FirstWidth(cells, col) == cells[j].width
    decreases j
  {
    if j > 0 {
      FirstWidthAt(cells[1..], col, j - 1);
    }
  }

  lemma {:induction false} FirstWidthNone(cells: seq<TableCell>, col: int)
    requires forall i :: 0 <= i < |cells| ==> cells[i].col != col
    ensures FirstWidth(cells, col) == 0.0
    decreases |cells|
  {
    if cells != [] {
      FirstWidthNone(cells[1..], col);
    }
  }

  /** Left edge of column `col` relative to the table: the first-found widths of the columns before it. */
  function XOffset(cells: seq<TableCell>, col: int): real
    decreases col
  {
    if col <= 0 then 0.0 else XOffset(cells, col - 1) + FirstWidth(cells, col - 1)
  }

  /**
   * A cell's position: `x` adds, for each column left of the cell's, the
   * width of the first cell found in that column; `y` steps down one row
   * height per row.
   */
  method CalculateCellPosition(cell: TableCell, layout: TableLayout, originX: real, originY: real)
    returns (x: real, y: real)
    ensures x == originX + XOffset(layout.cells, cell.col)
    ensures y == originY + cell.row as real * layout.rowHeight
  {
    x := originX;
    var colIdx := 0;
    while colIdx < cell.col
      invariant colIdx == 0 || colIdx <= cell.col
      invariant x == originX + XOffset(layout.cells, colIdx)
    {
      ghost var found := false;
      var j := 0;
      while j < |layout.cells|
        invariant j <= |layout.cells| && !found
        invariant forall i :: 0 <= i < j ==> layout.cells[i].col != colIdx
        invariant x == originX + XOffset(layout.cells, colIdx)
      {
        if layout.cells[j].col == colIdx {
          FirstWidthAt(layout.cells, colIdx, j);
          x := x + layout.cells[j].width;
          found := true;
          break;
        }
        j := j + 1;
      }
      if !found {
        FirstWidthNone(layout.cells, colIdx);
      }
      colIdx := colIdx + 1;
    }
    y := originY + cell.row as real * layout.rowHeight;
  }

  /** In a finished table the first cell found in column `c` is its header, which carries the fitted width. */
  lemma FirstWidthIsFitted(columns: seq<string>, layers: seq<StackupLayer>, cfg: TableConfig, render: Render, c: nat)
    requires c < |columns|
    ensures |OptimalWidths(Body(columns, layers, cfg, render), cfg)| == |columns|
    ensures FirstWidth(TableOf(columns, layers, cfg, render).cells, c) == ColumnWidth(Body(columns, layers, cfg, render), c, cfg)
    ensures FirstWidth(TableOf(columns, layers, cfg, render).cells, c) == OptimalWidths(Body(columns, layers, cfg, render), cfg)[c]
  {
    var t := TableOf(columns, layers, cfg, render);
    GridColumns(columns, layers, cfg, render);
    OptimalWidthsOfGrid(Body(columns, layers, cfg, render), |columns|, cfg);
    forall i | 0 <= i <= c
      ensures i < |t.cells| && t.cells[i].col == i
    {
      TableHeaderAt(columns, layers, cfg, render, i);
    }
    TableHeaderAt(columns, layers, cfg, render, c);
    FirstWidthAt(t.cells, c, c);
  }

  /** When the first-found width of every column is its entry in `w`, the offsets are prefix sums of `w`. */
  lemma {:induction false} OffsetsArePrefixSums(cells: seq<TableCell>, w: seq<real>, col: nat)
    requires col <= |w|
    requires forall c :: 0 <= c < |w| ==> FirstWidth(cells, c) == w[c]
    ensures XOffset(cells, col) == Sum(w[..col])
    decreases col
  {
    if col > 0 {
      var c := col - 1;
      OffsetsArePrefixSums(cells, w, c);
      assert w[..col][..c] == w[..c];
    }
  }

  /**
   * In a finished table the left edge of column `col` is the sum of the
   * fitted widths of the columns before it.
   */
  lemma ColumnOffsets(columns: seq<string>, layers: seq<StackupLayer>, cfg: TableConfig, render: Render, col: nat)
    requires col <= |columns|
    ensures |OptimalWidths(Body(columns, layers, cfg, render), cfg)| == |columns|
            && XOffset(TableOf(columns, layers, cfg, render).cells, col)
               == Sum(OptimalWidths(Body(columns, layers, cfg, render), cfg)[..col])
  {
    var cells := TableOf(columns, layers, cfg, render).cells;
    var w := OptimalWidths(Body(columns, layers, cfg, render), cfg);
    TableTotals(columns, layers, cfg, render);
    forall c | 0 <= c < |w|
      ensures FirstWidth(cells, c) == w[c]
    {
      FirstWidthIsFitted(columns, layers, cfg, render, c);
    }
    OffsetsArePrefixSums(cells, w, col);
  }

  /** The right edge of the last column is the table's total width. */
  lemma LastColumnEndsTable(columns: seq<string>, layers: seq<StackupLayer>, cfg: TableConfig, render: Render)
    ensures XOffset(TableOf(columns, layers, cfg, render).cells, |columns|) == TableOf(columns, layers, cfg, render).totalWidth
  {
    var w := OptimalWidths(Body(columns, layers, cfg, render), cfg);
    ColumnOffsets(columns, layers, cfg, render, |columns|);
    TableTotals(columns, layers, cfg, render);
    assert w[..|columns|] == w;
  }
}
