/** Values as pandas hands them to the script, and the rendering of them into text. */
module Values {

  datatype Option<+T> = None | Some(value: T)

  datatype Result<+T> = Ok(value: T) | Err(error: Error)

  /** The exceptions of the modelled code that abort the run. */
  datatype Error =
    | KeyError(column: string)   // `row[column]` on a column the table does not have
    | TypeError(field: string)   // string concatenation with a value that is not a string

  /** A numeric cell: a Python int, a float, or the NaN that pandas uses for an empty cell. */
  datatype Num = Int(i: int) | Float(r: real) | NaN

  /** A cell of a table: a number or a string. */
  datatype Cell = Number(n: Num) | Text(s: string)

  /** Python's `str()` (and f-string formatting) of a number is not modelled; every
      serialiser takes it as the parameter `str`. A string renders as itself. */
  function Show(str: Num -> string, c: Cell): string
  {
    match c
    case Number(n) => str(n)
    case Text(s) => s
  }

  /** A row of a point table: column name to cell. */
  type Row = map<string, Cell>

  /** A row with the three coordinate columns. */
  predicate HasPosition(r: Row)
  {
    "x" in r && "y" in r && "z" in r
  }

  /** True when some cell of the table is a string, so that its column, and every row
      `iterrows` yields, has the `object` dtype. */
  predicate HasText(rows: seq<Row>)
  {
    exists i, k | 0 <= i < |rows| && k in rows[i] :: rows[i][k].Text?
  }

  /** True when some cell of the table is a float or NaN, so that its column is `float64`. */
  predicate HasFloat(rows: seq<Row>)
  {
    exists i, k | 0 <= i < |rows| && k in rows[i] :: rows[i][k].Number? && !rows[i][k].n.Int?
  }

  /** True when `iterrows` upcasts: every column is numeric and one is `float64`, so each
      row comes back as one `float64` series. */
  predicate Upcast(rows: seq<Row>)
  {
    !HasText(rows) && HasFloat(rows)
  }

  /** An integer cell as a `float64` holds it; every other cell is unchanged. */
  function Widen(c: Cell): (r: Cell)
    ensures r.Number? == c.Number?
    ensures c.Text? || !c.n.Int? ==> r == c
    ensures c.Number? && c.n.Int? ==> r == Number(Float(c.n.i as real))
  {
    if c.Number? && c.n.Int? then Number(Float(c.n.i as real)) else c
  }

  /** A cell of `rows` as `iterrows` hands it out: widened when the table upcasts. */
  function AsIterated(rows: seq<Row>, c: Cell): Cell
  {
    if Upcast(rows) then Widen(c) else c
  }

  /** Row `i` as `iterrows` yields it: the same columns, each cell as iterated. */
  function IterRow(rows: seq<Row>, i: int): (r: Row)
    requires 0 <= i < |rows|
    ensures r.Keys == rows[i].Keys
    ensures forall k :: k in r <==> k in rows[i]
    ensures HasPosition(rows[i]) ==> HasPosition(r)
  {
    map k | k in rows[i] :: AsIterated(rows, rows[i][k])
  }

  /** `iterrows` keeps strings and floats as they are, and changes an integer only when
      the table upcasts, into the float of the same value; a table with a string cell
      comes back exactly as stored. */
  lemma IterRowCells(rows: seq<Row>, i: int)
    requires 0 <= i < |rows|
    ensures forall k | k in rows[i] && (rows[i][k].Text? || !rows[i][k].n.Int?) :: IterRow(rows, i)[k] == rows[i][k]
    ensures forall k | k in rows[i] && rows[i][k].Number? && rows[i][k].n.Int? ::
      IterRow(rows, i)[k] == if Upcast(rows) then Number(Float(rows[i][k].n.i as real)) else rows[i][k]
    ensures HasText(rows) ==> IterRow(rows, i) == rows[i]
  {
  }

  /** A centroid: the three coordinate means, as opaque numbers. */
  datatype Triple = Triple(x: Num, y: Num, z: Num)

  /** A file the script writes: its name and its lines. */
  datatype OutputFile = OutputFile(name: string, lines: seq<string>)

  /** The names of written files, in order: what the serialisers return. */
  function Names(files: seq<OutputFile>): (r: seq<string>)
    ensures |r| == |files|
  {
    seq(|files|, i requires 0 <= i < |files| => files[i].name)
  }

  lemma NamesAppend(a: seq<OutputFile>, b: seq<OutputFile>)
    ensures Names(a + b) == Names(a) + Names(b)
  {
  }

  /** The names of one or two files. */
  lemma NamesOfTwo(a: OutputFile, b: OutputFile)
    ensures Names([a]) == [a.name]
    ensures Names([a, b]) == [a.name, b.name]
  {
  }
}
