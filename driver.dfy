/** `main`: for each row of the dataset table, in order, the serialisers its `type`
    calls for, and the list `files_created` of every file they write. */
module Driver {
  import opened Values
  import opened Text
  import opened OutputNames
  import Speck
  import StarsAsset
  import Labels
  import AnchorAsset
  import AssetScript

  // ----- The normalisers -----

  /** `csv_file.replace(".csv", "")`: every occurrence of `.csv` is removed, not only a
      trailing one. */
  function BaseName(csvFile: string): string
  {
    RemoveAll(csvFile, ".csv")
  }

  /** Two occurrences of `.csv` cannot overlap. */
  lemma CsvUnbordered()
    ensures Unbordered(".csv")
  {
    assert ".csv"[1..][0] == 'c' && ".csv"[..3][0] == '.';
    assert ".csv"[2..][0] == 's' && ".csv"[..2][0] == '.';
    assert ".csv"[3..][0] == 'v' && ".csv"[..1][0] == '.';
  }

  /** A name ending in `.csv` loses that extension whatever precedes it, and a stem
      without `.csv` is its own base. */
  lemma BaseNameDropsExtension(stem: string)
    ensures BaseName(stem + ".csv") == BaseName(stem)
    ensures !Occurs(stem, ".csv") ==> BaseName(stem + ".csv") == stem
  {
    CsvUnbordered();
    RemoveAround(stem, ".csv", "");
    assert stem + ".csv" + "" == stem + ".csv";
    if !Occurs(stem, ".csv") {
      RemoveAbsent(stem, ".csv");
    }
  }

  /** Every occurrence is removed, not only the extension: a `.csv` inside the name
      goes too, and the text on either side is treated apart. */
  lemma BaseNameInner(a: string, b: string)
    ensures BaseName(a + ".csv" + b) == BaseName(a) + BaseName(b)
  {
    CsvUnbordered();
    RemoveAround(a, ".csv", b);
  }

  /** One step of the pass over a character that does not start the pattern. */
  lemma RemoveKeeps(ch: char, s: string, p: string)
    requires |p| > 0 && (ch != p[0] || !StartsWith([ch] + s, p))
    ensures RemoveAll([ch] + s, p) == [ch] + RemoveAll(s, p)
  {
    if ch != p[0] {
      DifferentHeads([ch] + s, p);
    }
    assert ([ch] + s)[1..] == s;
  }

  /** One step of the pass over an occurrence of the pattern. */
  lemma RemoveDrops(s: string, p: string)
    requires |p| > 0
    ensures RemoveAll(p + s, p) == RemoveAll(s, p)
  {
    PrefixOfConcat(p, s, "");
    assert p + s + "" == p + s;
    assert (p + s)[|p|..] == s;
  }

  /** `.c` is kept, since `.c.c` is not `.csv`, and the `.csv` after it is removed. */
  lemma RemoveAfterDotC(s: string)
    ensures RemoveAll(['.', 'c'] + (".csv" + s), ".csv") == ".c" + RemoveAll(s, ".csv")
  {
    var t := ['.'] + (['c'] + (".csv" + s));
    assert ['.', 'c'] + (".csv" + s) == t;
    RemoveDrops(s, ".csv");
    RemoveKeeps('c', ".csv" + s, ".csv");
    assert t[..4][2] == '.' && ".csv"[2] == 's';
    RemoveKeeps('.', ['c'] + (".csv" + s), ".csv");
  }

  /** The pass can leave a new `.csv` behind, so it is not idempotent: see also
      `BaseNameOfLeftover`. */
  lemma BaseNameLeavesCsv()
    ensures BaseName("x.c.csvsv") == "x.csv"
  {
    var sv := ['s'] + (['v'] + "");
    RemoveKeeps('v', "", ".csv");
    RemoveKeeps('s', ['v'] + "", ".csv");
    RemoveAfterDotC(sv);
    assert "x.c.csvsv" == ['x'] + (['.', 'c'] + (".csv" + sv));
    RemoveKeeps('x', ['.', 'c'] + (".csv" + sv), ".csv");
    assert ['x'] + (".c" + "sv") == "x.csv";
  }

  lemma BaseNameOfLeftover()
    ensures BaseName("x.csv") == "x"
  {
    assert "x.csv" == ['x'] + (".csv" + "");
    RemoveDrops("", ".csv");
    RemoveKeeps('x', ".csv" + "", ".csv");
  }

  /** The value of a numeric cell, as Python's `==` compares numbers. */
  function NumericValue(c: Cell): Option<real>
  {
    match c
    case Number(Int(i)) => Some(i as real)
    case Number(Float(r)) => Some(r)
    case Number(NaN) => None
    case Text(_) => None
  }

  /** `row["enabled"]`, 1 or 0 in the table, becomes the Lua literal `true` exactly when
      it equals 1, and `false` for every other value. */
  function EnabledLiteral(enabled: Cell): (r: string)
    ensures r == "true" || r == "false"
    ensures r == "true" <==> NumericValue(enabled) == Some(1.0)
  {
    if enabled == Number(Int(1)) || enabled == Number(Float(1.0)) then "true" else "false"
  }

  /** The fade-target probe: `math.isnan` of an empty cell (NaN) gives `None`, of any
      other number leaves `""`, and on a string raises the `TypeError` that keeps the
      string. */
  function FadeProbe(fadeTarget: Cell): (r: Option<string>)
    ensures r == None <==> fadeTarget == Number(NaN)
    ensures fadeTarget.Text? ==> r == Some(fadeTarget.s)
    ensures AnchorAsset.Truthy(r) <==> fadeTarget.Text? && fadeTarget.s != ""
  {
    match fadeTarget
    case Number(NaN) => None
    case Number(_) => Some("")
    case Text(s) => Some(s)
  }

  // ----- A dataset and what it produces -----

  /** The columns of a row of the dataset table that the serialisers read. */
  datatype DatasetRow = DatasetRow(
    csvFile: string, kind: Cell, fadeTarget: Cell,
    enabled: Cell, labelColumn: Cell, labelSize: Cell, labelMinSize: Cell, labelMaxSize: Cell,
    lum: Cell, absmag: Cell, colorbV: Cell, stars: StarsAsset.StarsParams)

  /** A dataset row with its point table as read from `csv_file`: its columns, its
      points already moved so that their centroid is the origin, and that centroid. */
  datatype Dataset = Dataset(row: DatasetRow, columns: set<string>, points: seq<Row>, centroid: Triple)

  /** Every point has exactly the table's columns. */
  predicate WellFormed(d: Dataset)
  {
    forall i | 0 <= i < |d.points| :: d.points[i].Keys == d.columns
  }

  /** The `KeyError` of taking the mean of `x`, `y`, then `z`, if one is missing. */
  function MissingPosition(columns: set<string>): (r: Option<Error>)
    ensures r == None <==> "x" in columns && "y" in columns && "z" in columns
    ensures r.Some? ==> r.value.KeyError? && r.value.column !in columns
  {
    if "x" !in columns then Some(KeyError("x"))
    else if "y" !in columns then Some(KeyError("y"))
    else if "z" !in columns then Some(KeyError("z"))
    else None
  }

  /** A well-formed table with the position columns has a position in every point. */
  lemma PointsHavePosition(d: Dataset)
    requires WellFormed(d) && MissingPosition(d.columns) == None
    ensures forall i | 0 <= i < |d.points| :: HasPosition(d.points[i])
  {
  }

  /** The names a row adds to `files_created` when it succeeds, by its `type`. */
  function KindNames(base: string, row: DatasetRow): seq<string>
  {
    if row.kind == Text("anchor") then [AnchorAssetFileName(base)]
    else if row.kind == Text("labels") && row.labelColumn.Text? then
      [LabelFileName(base, row.labelColumn.s), LabelAssetFileName(base, row.labelColumn.s)]
    else if row.kind == Text("stars") then [SpeckFileName(base), StarsAssetFileName(base)]
    else []
  }

  /** What one dataset row adds to `files_created`: the names the serialiser its
      `type` calls returns, or the exception that stops the run. */
  function RowCreated(d: Dataset): Result<seq<string>>
  {
    match MissingPosition(d.columns)
    case Some(e) => Err(e)
    case None =>
      var base := BaseName(d.row.csvFile);
      if d.row.kind == Text("anchor") then Ok([AnchorAssetFileName(base)])
      else if d.row.kind == Text("labels") then Labels.MakeLabels(d.points, base, d.row.labelColumn)
      else if d.row.kind == Text("stars") then Ok([SpeckFileName(base), StarsAssetFileName(base)])
      else Ok([])
  }

  /** The outcomes of the rows combined in order: all their names, or the first
      exception, which stops the run. */
  function Collect(results: seq<Result<seq<string>>>): Result<seq<string>>
  {
    if |results| == 0 then Ok([])
    else
      match Collect(results[..|results| - 1])
      case Err(e) => Err(e)
      case Ok(before) =>
        match results[|results| - 1]
        case Err(e) => Err(e)
        case Ok(names) => Ok(before + names)
  }

  /** The outcome of each row. */
  function RowResults(ds: seq<Dataset>): seq<Result<seq<string>>>
  {
    seq(|ds|, i requires 0 <= i < |ds| => RowCreated(ds[i]))
  }

  /** `files_created` after the whole run, or the exception that stops it. */
  function FilesCreated(ds: seq<Dataset>): Result<seq<string>>
  {
    Collect(RowResults(ds))
  }

  // ----- The run -----

  /** The loop of `main`: each row's serialisers in order, `files_created` extended by
      what each returns. On an exception the run stops with it. `written` is every
      file the serialisers wrote, in order; `files_created` names exactly those. */
  method Run(datasets: seq<Dataset>, str: Num -> string)
    returns (result: Result<seq<string>>, written: seq<OutputFile>)
    requires forall i | 0 <= i < |datasets| :: WellFormed(datasets[i])
    ensures result == FilesCreated(datasets)
    ensures result.Ok? ==> Names(written) == result.value
  {
    ghost var results := RowResults(datasets);
    var filesCreated: seq<string> := [];
    written := [];
    var i := 0;
    while i < |datasets|
      invariant 0 <= i <= |datasets|
      invariant Collect(results[..i]) == Ok(filesCreated)
      invariant Names(written) == filesCreated
    {
      var files, created, failure := RunRow(datasets[i], str);
      assert results[..i + 1][..i] == results[..i];
      if failure.Some? {
        CollectPersists(results, i + 1);
        return Err(failure.value), written;
      }
      NamesAppend(written, files);
      written := written + files;
      filesCreated := filesCreated + created;
      i := i + 1;
    }
    assert results[..i] == results;
    result := Ok(filesCreated);
  }

  /** One iteration of the loop: the files the row's serialisers write and the names
      they return, or the exception the row raises. The position columns are read
      first (the anchor's own centroid and the mean in `main` read them alike); the
      three kinds are exclusive, so at most one serialiser branch runs. */
  method RunRow(d: Dataset, str: Num -> string)
    returns (files: seq<OutputFile>, created: seq<string>, failure: Option<Error>)
    requires WellFormed(d)
    ensures failure.None? <==> RowCreated(d).Ok?
    ensures failure.None? ==> created == RowCreated(d).value && Names(files) == created
    ensures failure.Some? ==> failure.value == RowCreated(d).error
  {
    var missing := MissingPosition(d.columns);
    if missing.Some? {
      return [], [], missing;
    }
    PointsHavePosition(d);
    files, created, failure := [], [], None;
    if d.row.kind == Text("anchor") {
      files, created := RunAnchor(d, str);
    } else if d.row.kind == Text("labels") {
      var result;
      files, result := RunLabels(d, str);
      if result.Err? {
        return [], [], Some(result.error);
      }
      created := result.value;
    } else if d.row.kind == Text("stars") {
      files, created := RunStars(d, str);
    }
  }

  /** An `anchor` row writes the anchor asset. */
  method RunAnchor(d: Dataset, str: Num -> string) returns (files: seq<OutputFile>, created: seq<string>)
    ensures created == [AnchorAssetFileName(BaseName(d.row.csvFile))]
    ensures Names(files) == created
  {
    var anchor := WriteAnchor(d, str);
    NamesOfTwo(anchor, anchor);
    files, created := [anchor], [anchor.name];
  }

  /** A `stars` row writes the speck file, then the asset that loads it. */
  method RunStars(d: Dataset, str: Num -> string) returns (files: seq<OutputFile>, created: seq<string>)
    requires forall i | 0 <= i < |d.points| :: HasPosition(d.points[i])
    ensures created == [SpeckFileName(BaseName(d.row.csvFile)), StarsAssetFileName(BaseName(d.row.csvFile))]
    ensures Names(files) == created
  {
    var speck := WriteSpeck(d, str);
    var asset := WriteStarsAsset(d, str);
    NamesOfTwo(speck, asset);
    files, created := [speck, asset], [speck.name, asset.name];
  }

  /** `make_anchor_asset_from_dataframe`: the anchor asset `base_anchor.asset` with the
      probed fade target. Read back, it manages the node `base_anchor` and, exactly for a
      non-empty string target, the fade action bound to the four camera events. */
  method WriteAnchor(d: Dataset, str: Num -> string) returns (file: OutputFile)
    ensures var base := BaseName(d.row.csvFile);
      && file.name == AnchorAssetFileName(base)
      && file.lines == AnchorAsset.Asset(base, d.centroid, FadeProbe(d.row.fadeTarget), str)
      && AssetScript.Parse(file.lines) == Some(AnchorAsset.AnchorLifecycle(base, FadeProbe(d.row.fadeTarget)))
    ensures var base := BaseName(d.row.csvFile);
      AnchorAsset.EventBindings(file.lines) ==
        if d.row.fadeTarget.Text? && d.row.fadeTarget.s != ""
        then AnchorAsset.Bindings(FadeVariable(base, d.row.fadeTarget.s)) else []
  {
    var base := BaseName(d.row.csvFile);
    var fade := FadeProbe(d.row.fadeTarget);
    file := OutputFile(AnchorAssetFileName(base), AnchorAsset.Asset(base, d.centroid, fade, str));
    AnchorAsset.AssetParses(base, d.centroid, fade, str);
    AnchorAsset.AssetBindings(base, d.centroid, fade, str);
  }

  /** A `labels` row writes the label file and its asset, or raises the serialiser's
      exception. */
  method RunLabels(d: Dataset, str: Num -> string) returns (files: seq<OutputFile>, result: Result<seq<string>>)
    requires forall i | 0 <= i < |d.points| :: HasPosition(d.points[i])
    ensures result == Labels.MakeLabels(d.points, BaseName(d.row.csvFile), d.row.labelColumn)
    ensures result.Ok? ==> Names(files) == result.value
  {
    if d.row.labelColumn.Number? {
      return [], Err(TypeError("label_column"));
    }
    files, result := WriteLabels(d, d.row.labelColumn.s, str);
  }

  /** `make_labels_from_dataframe` with a string label column and the enabled flag
      normalised: the label file then its asset, or the `KeyError` of a point without
      the column. */
  method WriteLabels(d: Dataset, column: string, str: Num -> string)
    returns (files: seq<OutputFile>, result: Result<seq<string>>)
    requires forall i | 0 <= i < |d.points| :: HasPosition(d.points[i])
    ensures result == Labels.MakeLabels(d.points, BaseName(d.row.csvFile), Text(column))
    ensures result.Ok? ==> Names(files) == result.value
    ensures result.Ok? ==> Labels.Labelled(d.points, column)
    ensures result.Ok? && Labels.Labelled(d.points, column) ==>
      files == Labels.Written(d.points, d.centroid, BaseName(d.row.csvFile), column,
                                 d.row.labelSize, d.row.labelMinSize, d.row.labelMaxSize,
                                 EnabledLiteral(d.row.enabled), str)
  {
    var row := d.row;
    var base := BaseName(row.csvFile);
    var enabled := EnabledLiteral(row.enabled);
    var labelFile := Labels.WriteLabelFile(d.points, column, str);
    if labelFile.Err? {
      return [], Err(labelFile.error);
    }
    var asset := Labels.Asset(base, column, d.centroid, row.labelSize, row.labelMinSize,
                              row.labelMaxSize, enabled, str);
    files := [OutputFile(LabelFileName(base, column), labelFile.value),
              OutputFile(LabelAssetFileName(base, column), asset)];
    result := Ok([LabelFileName(base, column), LabelAssetFileName(base, column)]);
    assert Names(files) == result.value;
  }

  /** `make_stars_asset_from_dataframe`: the asset `base.asset` placed at the centroid with
      the row's parameters. Read back, it manages the one node `base`, and it loads the
      speck file of the same base. */
  method WriteStarsAsset(d: Dataset, str: Num -> string) returns (file: OutputFile)
    ensures var base := BaseName(d.row.csvFile);
      && file.name == StarsAssetFileName(base)
      && file.lines == StarsAsset.Asset(base, d.centroid, d.row.stars, str)
      && AssetScript.Parse(file.lines) == Some(AssetScript.SingleNode(base))
    ensures var base := BaseName(d.row.csvFile);
      StarsAsset.SpeckResource(base) in file.lines && "    File = " + base + "_speck," in file.lines
  {
    var base := BaseName(d.row.csvFile);
    file := OutputFile(StarsAssetFileName(base), StarsAsset.Asset(base, d.centroid, d.row.stars, str));
    StarsAsset.AssetParses(base, d.centroid, d.row.stars, str);
    StarsAsset.AssetLoadsSpeck(base, d.centroid, d.row.stars, str);
  }

  /** `make_stars_speck_from_dataframe` on a fresh point table: the speck file of the
      points with the star columns broadcast. */
  method WriteSpeck(d: Dataset, str: Num -> string) returns (file: OutputFile)
    requires forall i | 0 <= i < |d.points| :: HasPosition(d.points[i])
    ensures var rows := Speck.Broadcast(d.points, d.row.lum, d.row.absmag, d.row.colorbV);
      && (forall i | 0 <= i < |rows| :: Speck.Complete(rows[i]))
      && file == OutputFile(SpeckFileName(BaseName(d.row.csvFile)), Speck.SpeckFile(rows, str))
  {
    var row := d.row;
    Speck.BroadcastComplete(d.points, row.lum, row.absmag, row.colorbV);
    var base := BaseName(row.csvFile);
    var table := new Speck.PointTable(d.points);
    var speck, created := Speck.MakeStarsSpeck(table, base, row.lum, row.absmag, row.colorbV, str);
    file := OutputFile(SpeckFileName(base), speck);
  }

  /** Once a prefix of the rows fails, every longer prefix fails with the same exception. */
  lemma {:induction false} CollectPersists(results: seq<Result<seq<string>>>, k: nat)
    requires k <= |results| && Collect(results[..k]).Err?
    ensures Collect(results) == Collect(results[..k])
    decreases |results| - k
  {
    if k < |results| {
      assert results[..k + 1][..k] == results[..k];
      CollectPersists(results, k + 1);
    } else {
      assert results[..k] == results;
    }
  }

  // ----- What the run promises -----

  /** Combining succeeds exactly when every outcome does. */
  lemma {:induction false} CollectSucceeds(results: seq<Result<seq<string>>>)
    ensures Collect(results).Ok? <==> forall i | 0 <= i < |results| :: results[i].Ok?
  {
    if |results| > 0 {
      var front := results[..|results| - 1];
      CollectSucceeds(front);
      assert forall i | 0 <= i < |front| :: front[i] == results[i];
    }
  }

  /** A failed combination fails with the exception of the first failing outcome. */
  lemma {:induction false} CollectFirstError(results: seq<Result<seq<string>>>)
    requires Collect(results).Err?
    ensures exists k | 0 <= k < |results| ::
      (forall i | 0 <= i < k :: results[i].Ok?) && results[k] == Err(Collect(results).error)
  {
    var front := results[..|results| - 1];
    assert forall i | 0 <= i < |front| :: front[i] == results[i];
    if Collect(front).Err? {
      CollectFirstError(front);
      var k :| 0 <= k < |front| && (forall i | 0 <= i < k :: front[i].Ok?)
        && front[k] == Err(Collect(front).error);
      assert results[k] == front[k];
    } else {
      CollectSucceeds(front);
    }
  }

  /** A successful combination holds the names of each outcome after those of the
      outcomes before it. */
  lemma CollectAppends(results: seq<Result<seq<string>>>, k: nat)
    requires k < |results| && Collect(results[..k + 1]).Ok?
    ensures Collect(results[..k]).Ok? && results[k].Ok?
    ensures Collect(results[..k + 1]).value == Collect(results[..k]).value + results[k].value
  {
    assert results[..k + 1][..k] == results[..k];
  }

  /** The run succeeds exactly when every row does; otherwise it fails with the
      exception of the first row that fails. */
  lemma FilesCreatedOutcome(ds: seq<Dataset>)
    ensures FilesCreated(ds).Ok? <==> forall i | 0 <= i < |ds| :: RowCreated(ds[i]).Ok?
    ensures FilesCreated(ds).Err? ==> exists k | 0 <= k < |ds| ::
      && (forall i | 0 <= i < k :: RowCreated(ds[i]).Ok?)
      && RowCreated(ds[k]) == Err(FilesCreated(ds).error)
  {
    var results := RowResults(ds);
    assert forall i | 0 <= i < |ds| :: results[i] == RowCreated(ds[i]);
    CollectSucceeds(results);
    if Collect(results).Err? {
      CollectFirstError(results);
      var k :| 0 <= k < |results| && (forall i | 0 <= i < k :: results[i].Ok?)
        && results[k] == Err(Collect(results).error);
      assert RowCreated(ds[k]) == Err(FilesCreated(ds).error);
    }
  }

  /** Every name a row adds is the dataset's base plus a suffix. */
  lemma KindNamesStartWithBase(base: string, row: DatasetRow)
    ensures forall n | n in KindNames(base, row) :: StartsWith(n, base)
  {
    PrefixOfConcat(base, "_anchor.asset", "");
    PrefixOfConcat(base, ".speck", "");
    PrefixOfConcat(base, ".asset", "");
    assert base + "_anchor.asset" + "" == AnchorAssetFileName(base);
    assert base + ".speck" + "" == SpeckFileName(base);
    assert base + ".asset" + "" == StarsAssetFileName(base);
    if row.labelColumn.Text? {
      var col := row.labelColumn.s;
      PrefixOfConcat(base, "_" + col, ".label");
      PrefixOfConcat(base, "_" + col, ".asset");
      assert LabelFileName(base, col) == base + ("_" + col) + ".label";
      assert LabelAssetFileName(base, col) == base + ("_" + col) + ".asset";
    }
  }

  /** A successful row adds the names its `type` calls for: `anchor` the anchor asset,
      `labels` the label file then its asset, `stars` the speck file then its asset,
      any other type nothing; each is the base plus a suffix. */
  lemma RowNames(d: Dataset)
    requires RowCreated(d).Ok?
    ensures RowCreated(d).value == KindNames(BaseName(d.row.csvFile), d.row)
    ensures forall n | n in RowCreated(d).value :: StartsWith(n, BaseName(d.row.csvFile))
  {
    KindNamesStartWithBase(BaseName(d.row.csvFile), d.row);
  }

  /** A row fails exactly when its table lacks a position column, or it is a `labels`
      row whose label column is not a string or is missing from some point. */
  lemma RowFails(d: Dataset)
    ensures RowCreated(d).Err? <==>
      || MissingPosition(d.columns).Some?
      || (d.row.kind == Text("labels") &&
            (d.row.labelColumn.Number? ||
             exists i | 0 <= i < |d.points| :: d.row.labelColumn.s !in d.points[i]))
  {
  }
}
