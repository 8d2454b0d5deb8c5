/** `make_stars_speck_from_dataframe`: broadcast the star columns onto the point
    table, then write a fixed header and one line of sixteen values per point. */
module Speck {
  import opened Values
  import opened Text
  import opened OutputNames

  /** The header every speck file starts with: thirteen `datavar` bindings and the texture. */
  const Header: seq<string> := [
    "datavar 0 colorb_v",
    "datavar 1 lum",
    "datavar 2 absmag",
    "datavar 3 appmag",
    "datavar 4 texnum",
    "datavar 5 distly",
    "datavar 6 dcalc",
    "datavar 7 plx",
    "datavar 8 plxerr",
    "datavar 9 vx",
    "datavar 10 vy",
    "datavar 11 vz",
    "datavar 12 speed",
    "texturevar 4",
    "texture -M 1 halo.sgi"
  ]

  const FloatZero: Cell := Number(Float(0.0))
  const IntZero: Cell := Number(Int(0))

  /** The columns a data line reads: the position and the thirteen star columns. */
  const DataColumns: set<string> := {
    "x", "y", "z",
    "colorb_v", "lum", "absmag", "appmag", "texnum", "distly",
    "dcalc", "plx", "plxerr", "vx", "vy", "vz", "speed" }

  /** A row holding every column a data line reads. */
  predicate Complete(r: Row)
  {
    DataColumns <= r.Keys
  }

  /** A row with the thirteen star columns set: three from the dataset row, the rest zero. */
  function WithStarColumns(r: Row, lum: Cell, absmag: Cell, colorbV: Cell): Row
  {
    r["colorb_v" := colorbV]["lum" := lum]["absmag" := absmag]
     ["appmag" := FloatZero]["texnum" := IntZero]["distly" := FloatZero]["dcalc" := IntZero]
     ["plx" := FloatZero]["plxerr" := FloatZero]
     ["vx" := IntZero]["vy" := IntZero]["vz" := IntZero]["speed" := IntZero]
  }

  /** `table[name] = value` on a table of rows: every row gets the same cell. */
  function SetAll(rows: seq<Row>, name: string, value: Cell): (r: seq<Row>)
    ensures |r| == |rows|
  {
    seq(|rows|, i requires 0 <= i < |rows| => rows[i][name := value])
  }

  /** The table after the thirteen column assignments, in the order they are made. */
  function Broadcast(rows: seq<Row>, lum: Cell, absmag: Cell, colorbV: Cell): seq<Row>
  {
    var t1 := SetAll(SetAll(SetAll(rows, "colorb_v", colorbV), "lum", lum), "absmag", absmag);
    var t2 := SetAll(SetAll(SetAll(t1, "appmag", FloatZero), "texnum", IntZero), "distly", FloatZero);
    var t3 := SetAll(SetAll(SetAll(t2, "dcalc", IntZero), "plx", FloatZero), "plxerr", FloatZero);
    SetAll(SetAll(SetAll(SetAll(t3, "vx", IntZero), "vy", IntZero), "vz", IntZero), "speed", IntZero)
  }

  /** Row by row, the column assignments set the star columns and nothing else. */
  lemma BroadcastRows(rows: seq<Row>, lum: Cell, absmag: Cell, colorbV: Cell)
    ensures |Broadcast(rows, lum, absmag, colorbV)| == |rows|
    ensures forall i | 0 <= i < |rows| ::
      Broadcast(rows, lum, absmag, colorbV)[i] == WithStarColumns(rows[i], lum, absmag, colorbV)
  {
  }

  /** The sixteen rendered values of a row: the position, then the thirteen `datavar`s
      in header order. */
  function Fields(r: Row, str: Num -> string): seq<string>
    requires Complete(r)
  {
    [ Show(str, r["x"]), Show(str, r["y"]), Show(str, r["z"]),
      Show(str, r["colorb_v"]), Show(str, r["lum"]), Show(str, r["absmag"]),
      Show(str, r["appmag"]), Show(str, r["texnum"]), Show(str, r["distly"]),
      Show(str, r["dcalc"]), Show(str, r["plx"]), Show(str, r["plxerr"]),
      Show(str, r["vx"]), Show(str, r["vy"]), Show(str, r["vz"]), Show(str, r["speed"]) ]
  }

  /** The data line of one row. */
  function DataLine(r: Row, str: Num -> string): string
    requires Complete(r)
  {
    Join(Fields(r, str))
  }

  /** The whole speck file of a table whose star columns are set. */
  function SpeckFile(rows: seq<Row>, str: Num -> string): seq<string>
    requires forall i | 0 <= i < |rows| :: Complete(rows[i])
  {
    Header + DataLines(rows, str)
  }

  /** One data line per row, in row order, each of the row as `iterrows` yields it. */
  function DataLines(rows: seq<Row>, str: Num -> string): (lines: seq<string>)
    requires forall i | 0 <= i < |rows| :: Complete(rows[i])
    ensures |lines| == |rows|
  {
    seq(|rows|, i requires 0 <= i < |rows| => IteratedComplete(rows, i); DataLine(IterRow(rows, i), str))
  }

  /** The pandas table the speck serialiser writes columns into. */
  class PointTable {
    var rows: seq<Row>

    constructor (rows: seq<Row>)
      ensures this.rows == rows
    {
      this.rows := rows;
    }

    /** `table[name] = value`: the same value in every row, replacing any earlier column of that name. */
    method SetColumn(name: string, value: Cell)
      modifies this
      ensures rows == SetAll(old(rows), name, value)
    {
      rows := SetAll(rows, name, value);
    }
  }

  /** The star columns make a row with a position complete. */
  lemma BroadcastComplete(rows: seq<Row>, lum: Cell, absmag: Cell, colorbV: Cell)
    requires forall i | 0 <= i < |rows| :: HasPosition(rows[i])
    ensures forall i | 0 <= i < |Broadcast(rows, lum, absmag, colorbV)| ::
      Complete(Broadcast(rows, lum, absmag, colorbV)[i])
  {
    BroadcastRows(rows, lum, absmag, colorbV);
  }

  /** The sixteen `datavars.append(str(row[...]))` of one row, joined by spaces. */
  method RenderRow(row: Row, str: Num -> string) returns (line: string)
    requires Complete(row)
    ensures line == DataLine(row, str)
  {
    var datavars: seq<string> := [];
    datavars := datavars + [Show(str, row["x"])];
    datavars := datavars + [Show(str, row["y"])];
    datavars := datavars + [Show(str, row["z"])];
    assert datavars == Fields(row, str)[..3];
    datavars := datavars + [Show(str, row["colorb_v"])];
    datavars := datavars + [Show(str, row["lum"])];
    datavars := datavars + [Show(str, row["absmag"])];
    datavars := datavars + [Show(str, row["appmag"])];
    datavars := datavars + [Show(str, row["texnum"])];
    datavars := datavars + [Show(str, row["distly"])];
    assert datavars == Fields(row, str)[..9];
    datavars := datavars + [Show(str, row["dcalc"])];
    datavars := datavars + [Show(str, row["plx"])];
    datavars := datavars + [Show(str, row["plxerr"])];
    datavars := datavars + [Show(str, row["vx"])];
    datavars := datavars + [Show(str, row["vy"])];
    datavars := datavars + [Show(str, row["vz"])];
    datavars := datavars + [Show(str, row["speed"])];
    assert datavars == Fields(row, str);
    line := Join(datavars);
  }

  /** The thirteen column assignments that give every point the star columns. */
  method AddStarColumns(table: PointTable, lum: Cell, absmag: Cell, colorbV: Cell)
    modifies table
    ensures table.rows == Broadcast(old(table.rows), lum, absmag, colorbV)
  {
    table.SetColumn("colorb_v", colorbV);
    table.SetColumn("lum", lum);
    table.SetColumn("absmag", absmag);
    table.SetColumn("appmag", FloatZero);
    table.SetColumn("texnum", IntZero);
    table.SetColumn("distly", FloatZero);
    table.SetColumn("dcalc", IntZero);
    table.SetColumn("plx", FloatZero);
    table.SetColumn("plxerr", FloatZero);
    table.SetColumn("vx", IntZero);
    table.SetColumn("vy", IntZero);
    table.SetColumn("vz", IntZero);
    table.SetColumn("speed", IntZero);
  }

  /** `for index, row in df.iterrows()`: the data lines, one per row in order. */
  method WriteDataLines(rows: seq<Row>, str: Num -> string) returns (lines: seq<string>)
    requires forall i | 0 <= i < |rows| :: Complete(rows[i])
    ensures lines == DataLines(rows, str)
  {
    lines := [];
    var i := 0;
    while i < |rows|
      invariant 0 <= i <= |rows|
      invariant lines == DataLines(rows, str)[..i]
    {
      var line := RenderRow(IterRow(rows, i), str);
      lines := lines + [line];
      i := i + 1;
    }
  }

  /** Writes `base.speck` from `table` (whose rows already hold the recentred
      position) and returns the lines written and the list of files created. */
  method MakeStarsSpeck(table: PointTable, base: string, lum: Cell, absmag: Cell, colorbV: Cell,
                        str: Num -> string)
    returns (file: seq<string>, created: seq<string>)
    requires forall i | 0 <= i < |table.rows| :: HasPosition(table.rows[i])
    modifies table
    ensures table.rows == Broadcast(old(table.rows), lum, absmag, colorbV)
    ensures forall i | 0 <= i < |table.rows| :: Complete(table.rows[i])
    ensures file == SpeckFile(table.rows, str)
    ensures created == [SpeckFileName(base)]
  {
    ghost var before := table.rows;
    var name := SpeckFileName(base);
    file := Header;

    AddStarColumns(table, lum, absmag, colorbV);
    BroadcastComplete(before, lum, absmag, colorbV);

    var lines := WriteDataLines(table.rows, str);
    file := file + lines;
    created := [name];
  }

  // ----- What a speck file holds -----

  /** The header, then exactly one data line per row in row order: `15 + n` lines. */
  lemma SpeckShape(rows: seq<Row>, str: Num -> string)
    requires forall i | 0 <= i < |rows| :: Complete(rows[i])
    ensures |SpeckFile(rows, str)| == 15 + |rows|
    ensures SpeckFile(rows, str)[..15] == Header
    ensures forall i | 0 <= i < |rows| :: SpeckFile(rows, str)[15 + i] == DataLine(IterRow(rows, i), str)
  {
  }

  /** Iterating keeps the columns, so a complete row stays complete. */
  lemma IteratedComplete(rows: seq<Row>, i: int)
    requires 0 <= i < |rows| && Complete(rows[i])
    ensures Complete(IterRow(rows, i))
  {
  }

  /** The rendered values of an iterated row are those of its cells as iterated. */
  lemma IteratedFields(rows: seq<Row>, i: int, str: Num -> string)
    requires 0 <= i < |rows| && Complete(rows[i])
    ensures Complete(IterRow(rows, i))
    ensures var r := rows[i];
      Fields(IterRow(rows, i), str) ==
        [ Show(str, AsIterated(rows, r["x"])), Show(str, AsIterated(rows, r["y"])), Show(str, AsIterated(rows, r["z"])),
          Show(str, AsIterated(rows, r["colorb_v"])), Show(str, AsIterated(rows, r["lum"])),
          Show(str, AsIterated(rows, r["absmag"])), Show(str, AsIterated(rows, r["appmag"])),
          Show(str, AsIterated(rows, r["texnum"])), Show(str, AsIterated(rows, r["distly"])),
          Show(str, AsIterated(rows, r["dcalc"])), Show(str, AsIterated(rows, r["plx"])),
          Show(str, AsIterated(rows, r["plxerr"])), Show(str, AsIterated(rows, r["vx"])),
          Show(str, AsIterated(rows, r["vy"])), Show(str, AsIterated(rows, r["vz"])),
          Show(str, AsIterated(rows, r["speed"])) ]
  {
  }

  /** The broadcast adds the float column `appmag`, so the broadcast table upcasts
      exactly when it has no string cell. */
  lemma BroadcastUpcast(rows: seq<Row>, i: int, lum: Cell, absmag: Cell, colorbV: Cell)
    requires 0 <= i < |rows|
    ensures var b := Broadcast(rows, lum, absmag, colorbV);
      Upcast(b) == !HasText(b)
  {
    var b: seq<Row> := Broadcast(rows, lum, absmag, colorbV);
    BroadcastRows(rows, lum, absmag, colorbV);
    StarColumnsSet(rows[i], lum, absmag, colorbV);
    assert "appmag" in b[i] && b[i]["appmag"].Number? && !b[i]["appmag"].n.Int?;
  }

  /** The values on the data line of point `i` after the broadcast: its position, the
      three broadcast values, then the ten zeros. When no cell of the table is a string,
      every value comes back as a float and the integer zeros print as `0.0`. */
  lemma StarFields(rows: seq<Row>, i: int, lum: Cell, absmag: Cell, colorbV: Cell, str: Num -> string)
    requires 0 <= i < |rows| && HasPosition(rows[i])
    ensures var b := Broadcast(rows, lum, absmag, colorbV);
      var zero := if HasText(b) then str(Int(0)) else str(Float(0.0));
      && Upcast(b) == !HasText(b)
      && Complete(IterRow(b, i))
      && Fields(IterRow(b, i), str) ==
        [ Show(str, AsIterated(b, rows[i]["x"])), Show(str, AsIterated(b, rows[i]["y"])),
          Show(str, AsIterated(b, rows[i]["z"])),
          Show(str, AsIterated(b, colorbV)), Show(str, AsIterated(b, lum)), Show(str, AsIterated(b, absmag)),
          str(Float(0.0)), zero, str(Float(0.0)), zero, str(Float(0.0)), str(Float(0.0)),
          zero, zero, zero, zero ]
  {
    var b: seq<Row> := Broadcast(rows, lum, absmag, colorbV);
    BroadcastRows(rows, lum, absmag, colorbV);
    BroadcastUpcast(rows, i, lum, absmag, colorbV);
    StarRowFields(b, i, rows[i], lum, absmag, colorbV, str);
  }

  /** The same, for any table whose row `i` is `r` with the star columns set. */
  lemma StarRowFields(b: seq<Row>, i: int, r: Row, lum: Cell, absmag: Cell, colorbV: Cell, str: Num -> string)
    requires 0 <= i < |b| && HasPosition(r) && b[i] == WithStarColumns(r, lum, absmag, colorbV)
    requires Upcast(b) == !HasText(b)
    ensures Complete(IterRow(b, i))
    ensures var zero := if HasText(b) then str(Int(0)) else str(Float(0.0));
      Fields(IterRow(b, i), str) ==
        [ Show(str, AsIterated(b, r["x"])), Show(str, AsIterated(b, r["y"])), Show(str, AsIterated(b, r["z"])),
          Show(str, AsIterated(b, colorbV)), Show(str, AsIterated(b, lum)), Show(str, AsIterated(b, absmag)),
          str(Float(0.0)), zero, str(Float(0.0)), zero, str(Float(0.0)), str(Float(0.0)),
          zero, zero, zero, zero ]
  {
    PositionKept(r, lum, absmag, colorbV);
    StarColumnsSet(r, lum, absmag, colorbV);
    IteratedFields(b, i, str);
    assert Show(str, AsIterated(b, FloatZero)) == str(Float(0.0));
    assert Show(str, AsIterated(b, IntZero)) == if HasText(b) then str(Int(0)) else str(Float(0.0));
  }

  /** The star columns leave the position alone. */
  lemma PositionKept(r: Row, lum: Cell, absmag: Cell, colorbV: Cell)
    requires HasPosition(r)
    ensures var w := WithStarColumns(r, lum, absmag, colorbV);
      && HasPosition(w) && w["x"] == r["x"] && w["y"] == r["y"] && w["z"] == r["z"]
  {
  }

  /** The thirteen columns hold the broadcast values and the zeros. */
  lemma StarColumnsSet(r: Row, lum: Cell, absmag: Cell, colorbV: Cell)
    ensures var w := WithStarColumns(r, lum, absmag, colorbV);
      && DataColumns - {"x", "y", "z"} <= w.Keys
      && w["colorb_v"] == colorbV && w["lum"] == lum && w["absmag"] == absmag
      && w["appmag"] == FloatZero && w["texnum"] == IntZero && w["distly"] == FloatZero
      && w["dcalc"] == IntZero && w["plx"] == FloatZero && w["plxerr"] == FloatZero
      && w["vx"] == IntZero && w["vy"] == IntZero && w["vz"] == IntZero && w["speed"] == IntZero
  {
  }

  /** A data line splits on single spaces back into its sixteen values, when no
      rendered value holds a space. */
  lemma DataLineSplits(r: Row, str: Num -> string)
    requires Complete(r)
    requires forall k | 0 <= k < 16 :: NoSpace(Fields(r, str)[k])
    ensures Split(DataLine(r, str)) == Fields(r, str)
    ensures |Split(DataLine(r, str))| == 16
  {
    SplitJoin(Fields(r, str));
  }
}
