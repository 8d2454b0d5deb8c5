/** `make_labels_from_dataframe`: a label file with one line per point, and the
    asset script that shows it as a `RenderablePointCloud` at the centroid. */
module Labels {
  import opened Values
  import opened Text
  import opened AssetScript
  import opened OutputNames

  /** The line of the point at `index`, from the row as `iterrows` yields it: its
      position, its id, then the label text. */
  function LabelLine(r: Row, index: nat, column: string, str: Num -> string): string
    requires HasPosition(r) && column in r
  {
    Show(str, r["x"]) + " " + Show(str, r["y"]) + " " + Show(str, r["z"])
      + " id " + str(Int(index)) + " text " + Show(str, r[column])
  }

  /** True when every point has the label column. */
  predicate Labelled(rows: seq<Row>, column: string)
  {
    forall i | 0 <= i < |rows| :: column in rows[i]
  }

  /** The label file: one line per point in row order, or the `KeyError` of
      `row[label_column]` when a point has no such column. Every point has the table's
      columns, so that is the first point, and the file is left empty. */
  function LabelFile(rows: seq<Row>, column: string, str: Num -> string): (r: Result<seq<string>>)
    requires forall i | 0 <= i < |rows| :: HasPosition(rows[i])
    ensures r.Ok? <==> Labelled(rows, column)
    ensures r.Ok? ==> |r.value| == |rows|
  {
    if Labelled(rows, column)
    then Ok(seq(|rows|, i requires 0 <= i < |rows| => LabelLine(IterRow(rows, i), i, column, str)))
    else Err(KeyError(column))
  }

  /** The `for index, row in input_points_df.iterrows()` loop. */
  method WriteLabelFile(rows: seq<Row>, column: string, str: Num -> string) returns (r: Result<seq<string>>)
    requires forall i | 0 <= i < |rows| :: HasPosition(rows[i])
    ensures r == LabelFile(rows, column, str)
  {
    var lines: seq<string> := [];
    var index := 0;
    while index < |rows|
      invariant 0 <= index <= |rows|
      invariant forall i | 0 <= i < index :: column in rows[i]
      invariant lines == seq(index, i requires 0 <= i < index => LabelLine(IterRow(rows, i), i, column, str))
    {
      var row := IterRow(rows, index);
      if column !in row {
        return Err(KeyError(column));
      }
      lines := lines + [LabelLine(row, index, column, str)];
      index := index + 1;
    }
    return Ok(lines);
  }

  /** The node's declaration, placed at the centroid as it is. */
  function Placement(v: string, c: Triple, str: Num -> string): seq<string>
  {
    [ "local " + v + " = {",
      "    Identifier = \"" + v + "\",",
      "  Transform = {",
      "    Translation = {",
      "      Type = \"StaticTranslation\",",
      "      Position = {",
      "        " + str(c.x) + ",",
      "        " + str(c.y) + ",",
      "        " + str(c.z) + ",",
      "      }",
      "     },",
      "    }," ]
  }

  /** The point cloud's labels, read from the label file, and the GUI entry. */
  function Renderable(v: string, labelFile: string, size: Cell, minSize: Cell, maxSize: Cell,
                      enabled: string, str: Num -> string): seq<string>
  {
    [ "    Renderable = {",
      "        Type = " + "\"RenderablePointCloud\",",
      "        Labels = {",
      "            File = asset.resource(\"" + labelFile + "\"),",
      "            Enabled = " + enabled + ",",
      "            Unit = \"pc\",",
      "            Size = " + Show(str, size) + ",",
      "            MinMaxSize = { " + Show(str, minSize) + "," + Show(str, maxSize) + " }",
      "        }",
      "    },",
      "    GUI = {",
      "        Name = \"" + v + "\",",
      "        Path = \"/Labels\"",
      "    }",
      "}" ]
  }

  /** The hooks: the node added and removed, with four spaces and a `;`. */
  function Hooks(v: string): seq<string>
  {
    Trailer([CallLine("    ", AddCallee, v, true)], [CallLine("    ", RemoveCallee, v, true)], v)
  }

  /** The asset script `base_column.asset`. */
  function Asset(base: string, column: string, c: Triple, size: Cell, minSize: Cell, maxSize: Cell,
                 enabled: string, str: Num -> string): seq<string>
  {
    var v := LabelVariable(base, column);
    Placement(v, c, str) + Renderable(v, LabelFileName(base, column), size, minSize, maxSize, enabled, str)
      + Hooks(v)
  }

  /** Read back, the script adds the node `base_column_labels` when loaded, removes it
      when unloaded, and exports it. */
  lemma AssetLifecycle(base: string, column: string, c: Triple, size: Cell, minSize: Cell, maxSize: Cell,
                       enabled: string, str: Num -> string)
    ensures Parse(Asset(base, column, c, size, minSize, maxSize, enabled, str))
         == Some(SingleNode(LabelVariable(base, column)))
  {
    var v := LabelVariable(base, column);
    var body := Placement(v, c, str) + Renderable(v, LabelFileName(base, column), size, minSize, maxSize, enabled, str);
    BodyIsPlain(v, LabelFileName(base, column), c, size, minSize, maxSize, enabled, str);
    AssetParses(v, body);
  }

  lemma BodyIsPlain(v: string, labelFile: string, c: Triple, size: Cell, minSize: Cell, maxSize: Cell,
                    enabled: string, str: Num -> string)
    ensures Plain(Placement(v, c, str) + Renderable(v, labelFile, size, minSize, maxSize, enabled, str))
  {
    PlainByHeads(Placement(v, c, str));
    PlainByHeads(Renderable(v, labelFile, size, minSize, maxSize, enabled, str));
    PlainAppend(Placement(v, c, str), Renderable(v, labelFile, size, minSize, maxSize, enabled, str));
  }

  lemma AssetParses(v: string, body: seq<string>)
    requires Plain(body)
    ensures Parse(body + Hooks(v)) == Some(SingleNode(v))
  {
    var init := [CallLine("    ", AddCallee, v, true)];
    var deinit := [CallLine("    ", RemoveCallee, v, true)];
    ParseAddLine("    ", v, true);
    ParseRemoveLine("    ", v, true);
    ParseCallsOf(init, [AddNode(v)]);
    ParseCallsOf(deinit, [RemoveNode(v)]);
    ParseScript(body, init, deinit, [AddNode(v)], [RemoveNode(v)], v);
  }

  /** What `make_labels_from_dataframe` returns: the names of the label file and of
      the asset. It raises a `TypeError` when `label_column` is not a string (it is
      concatenated into the file name before anything is written) and the `KeyError`
      of `row[label_column]` when a point lacks the column. */
  function MakeLabels(rows: seq<Row>, base: string, column: Cell): Result<seq<string>>
  {
    match column
    case Number(_) => Err(TypeError("label_column"))
    case Text(col) =>
      if Labelled(rows, col) then Ok([LabelFileName(base, col), LabelAssetFileName(base, col)])
      else Err(KeyError(col))
  }

  /** The files it writes when it succeeds: the label file, then the asset. */
  function Written(rows: seq<Row>, c: Triple, base: string, column: string,
                   size: Cell, minSize: Cell, maxSize: Cell, enabled: string,
                   str: Num -> string): seq<OutputFile>
    requires forall i | 0 <= i < |rows| :: HasPosition(rows[i])
    requires Labelled(rows, column)
  {
    [OutputFile(LabelFileName(base, column), LabelFile(rows, column, str).value),
     OutputFile(LabelAssetFileName(base, column), Asset(base, column, c, size, minSize, maxSize, enabled, str))]
  }

  // ----- What the serialiser promises -----

  /** It fails exactly when the label column is not a string or some point lacks it,
      and then with that error; otherwise it returns the names of the files it writes,
      the label file's then the asset's, and the label file has the line of each point
      in row order. */
  lemma MakeLabelsOutcome(rows: seq<Row>, c: Triple, base: string, column: Cell,
                          size: Cell, minSize: Cell, maxSize: Cell, enabled: string, str: Num -> string)
    requires forall i | 0 <= i < |rows| :: HasPosition(rows[i])
    ensures var r := MakeLabels(rows, base, column);
      && (column.Number? ==> r == Err(TypeError("label_column")))
      && (column.Text? && (exists i | 0 <= i < |rows| :: column.s !in rows[i]) ==> r == Err(KeyError(column.s)))
      && (column.Text? && (forall i | 0 <= i < |rows| :: column.s in rows[i]) ==>
            var w := Written(rows, c, base, column.s, size, minSize, maxSize, enabled, str);
            && r == Ok(Names(w))
            && Names(w) == [LabelFileName(base, column.s), LabelAssetFileName(base, column.s)]
            && |w[0].lines| == |rows|
            && (forall i | 0 <= i < |rows| :: w[0].lines[i] == LabelLine(IterRow(rows, i), i, column.s, str))
            && w[1].lines == Asset(base, column.s, c, size, minSize, maxSize, enabled, str))
  {
    if column.Text? && Labelled(rows, column.s) {
      var w := Written(rows, c, base, column.s, size, minSize, maxSize, enabled, str);
      NamesOfTwo(w[0], w[1]);
      assert w == [w[0], w[1]];
    }
  }

  /** A label line reads back as the position, `id`, the index, `text`, then the
      label, when the rendered position and index hold no space. */
  lemma LabelLineSplits(r: Row, index: nat, column: string, str: Num -> string)
    requires HasPosition(r) && column in r
    requires NoSpace(Show(str, r["x"])) && NoSpace(Show(str, r["y"])) && NoSpace(Show(str, r["z"]))
    requires NoSpace(str(Int(index)))
    ensures Split(LabelLine(r, index, column, str)) ==
      [Show(str, r["x"]), Show(str, r["y"]), Show(str, r["z"]), "id", str(Int(index)), "text"]
        + Split(Show(str, r[column]))
    ensures Join(Split(LabelLine(r, index, column, str))[6..]) == Show(str, r[column])
  {
    var x, y, z := Show(str, r["x"]), Show(str, r["y"]), Show(str, r["z"]);
    var id, text := str(Int(index)), Show(str, r[column]);
    var tail := "id" + " " + id + " " + "text" + " " + text;
    assert LabelLine(r, index, column, str) == x + " " + y + " " + z + " " + tail;
    SplitThree(x, y, z, tail);
    SplitThree("id", id, "text", text);
    assert ([x, y, z] + (["id", id, "text"] + Split(text)))[6..] == Split(text);
    JoinSplit(text);
  }

  /** The asset loads the label file the serialiser wrote and shows or hides the
      labels as `enabled` says. */
  lemma AssetLoadsLabels(base: string, column: string, c: Triple, size: Cell, minSize: Cell, maxSize: Cell,
                         enabled: string, str: Num -> string)
    ensures var lines := Asset(base, column, c, size, minSize, maxSize, enabled, str);
      && "            File = asset.resource(\"" + LabelFileName(base, column) + "\")," in lines
      && "            Enabled = " + enabled + "," in lines
  {
    var v := LabelVariable(base, column);
    var place := Placement(v, c, str);
    var rend := Renderable(v, LabelFileName(base, column), size, minSize, maxSize, enabled, str);
    var lines := place + rend + Hooks(v);
    assert lines[|place| + 3] == rend[3];
    assert lines[|place| + 4] == rend[4];
  }

  /** The node is placed at the centroid as it is, with no unit conversion. */
  lemma AssetPosition(base: string, column: string, c: Triple, size: Cell, minSize: Cell, maxSize: Cell,
                      enabled: string, str: Num -> string)
    ensures var lines := Asset(base, column, c, size, minSize, maxSize, enabled, str);
      lines[6..9] == ["        " + str(c.x) + ",", "        " + str(c.y) + ",", "        " + str(c.z) + ","]
  {
    var v := LabelVariable(base, column);
    var place := Placement(v, c, str);
    var lines := place + Renderable(v, LabelFileName(base, column), size, minSize, maxSize, enabled, str) + Hooks(v);
    assert lines[..12] == place;
  }
}
