# csv_to_openspace: serialisers and run, modelled in Dafny

`csv_to_openspace.py` turns a table of datasets (one row per CSV point file) into
files for OpenSpace. What the row's `type` asks for determines the output:

- a `.speck` file of points with thirteen star columns, plus a stars asset that loads it;
- a `.label` file, plus a labels asset;
- an anchor asset.

Along the way `main` keeps the list `files_created` of every file written.
This project models the text these serialisers write, line for line, and the
loop in `main` that dispatches on `type` and accumulates `files_created`.

Modules:

- `Values`: cells as pandas hands them over (`Int`, `Float`, `NaN`, or a string), point rows as maps, the centroid, written files, and the two exceptions the modelled code raises (`KeyError`, and `TypeError` from concatenating a non-string).
- `Text`: prefixes, `" ".join`, `str.split(" ")`, and `str.replace(p, "")`.
- `OutputNames`: every output file name and Lua variable name, as the base name plus a fixed suffix.
- `AssetScript`: the shape every generated asset script shares: plain declarations, an `asset.onInitialize` hook, an `asset.onDeinitialize` hook, then `asset.export`. `Parse` reads the hooks' calls back from the printed lines, and `Perform` gives their effect on a registry of scene-graph nodes and actions.
- `Speck`: `make_stars_speck_from_dataframe`, including the in-place column assignments on a `PointTable` class and the row loop.
- `StarsAsset`, `Labels`, `AnchorAsset`: the three asset emitters, and in `Labels` also the label file and its loop.
- `Driver`: the normalisers of `main` (the base name, the `enabled` flag, the fade-target probe), one dataset row, and the whole run.

Python's `str()` of a number is not modelled. Every serialiser takes it as a
parameter `str: Num -> string`, and string cells render as themselves.
The centroid and the recentred points are inputs. Their arithmetic is not modelled.

The serialisers read their points through `iterrows()` (csv_to_openspace.py:86, 299).
It hands out each row as one pandas series with the table's common dtype.
`Values.IterRow` models that: when no cell of the table is a string and some column holds floats,
every integer cell comes back as the float of the same value; otherwise the row is as stored.

Facts about the code that the model keeps as written:

- the speck header is 15 lines: thirteen `datavar` lines, then `texturevar 4` and `texture -M 1 halo.sgi` (csv_to_openspace.py:54-68);
- each data line has 16 values: the position and thirteen star columns (csv_to_openspace.py:90-105);
- the stars asset is one `RenderableStars` node with no separate position node, and it prints the centroid unscaled (csv_to_openspace.py:231-239);
- only the anchor asset multiplies the centroid by `meters_to_pc` (csv_to_openspace.py:152-154);
- the anchor's unloading hook unregisters the fade action first, then removes the node (csv_to_openspace.py:185-189);
- the fade action sets the target's fade to 0.0, hiding it, when the camera approaches, and back to 1.0 when the camera exits (csv_to_openspace.py:137-140).

## Model

| member | source | states |
|---|---|---|
| Speck.MakeStarsSpeck | csv_to_openspace.py:47-111 | the table gains the thirteen star columns in place, every row becomes complete, the lines written are the speck file of the updated rows, and the function returns `[base.speck]` |
| Speck.AddStarColumns | csv_to_openspace.py:71-83 | the thirteen column assignments leave the table equal to the broadcast of the three dataset values and the ten zeros over the old rows |
| Speck.PointTable.SetColumn | csv_to_openspace.py:71-83 | one `df[name] = value` assignment gives every row that cell and keeps everything else |
| Speck.BroadcastRows | csv_to_openspace.py:71-83 | row by row, the assignments set exactly the star columns and keep the row's own cells, with the row count unchanged |
| Speck.BroadcastComplete | csv_to_openspace.py:71-83 | after the assignments, every point with a position has every column a data line reads |
| Speck.RenderRow | csv_to_openspace.py:88-108 | the sixteen appends, joined by spaces, give the row's data line |
| Speck.WriteDataLines | csv_to_openspace.py:86-108 | the loop writes exactly one data line per row, in row order |
| Speck.SpeckShape | csv_to_openspace.py:54-68 | a speck file is the 15 fixed header lines followed by the data line of row `i`, as `iterrows` yields it, at line `15 + i`, for `15 + n` lines in all |
| Speck.StarFields | csv_to_openspace.py:71-105 | point `i`'s data line holds its x, y, z, then `colorb_v`, `lum` and `absmag` as broadcast, then the ten zeros. When the table has a string cell, each value keeps its type and the integer zeros print as `0`. Otherwise the broadcast's float column makes `iterrows` turn every integer into a float, and the integer zeros print as `0.0` |
| Speck.BroadcastUpcast | csv_to_openspace.py:74-86 | the broadcast adds the float column `appmag`, so the table `iterrows` reads upcasts exactly when it has no string cell |
| Values.IterRowCells | csv_to_openspace.py:86-86 | a row as `iterrows` yields it keeps its strings and floats. Its integers become floats of the same value exactly when the table upcasts, and a table with a string cell comes back as stored |
| Speck.PositionKept | csv_to_openspace.py:71-83 | the star columns leave x, y and z as they were |
| Speck.StarColumnsSet | csv_to_openspace.py:71-83 | all thirteen star columns are present and hold the broadcast values or zero |
| Speck.DataLineSplits | csv_to_openspace.py:108 | when no rendered value holds a space, a data line splits on spaces back into exactly its sixteen values |
| Labels.LabelFile | csv_to_openspace.py:297-300 | the label output is `Ok` exactly when every point has the label column, and then it has one line per point |
| Labels.WriteLabelFile | csv_to_openspace.py:298-300 | the `iterrows` loop writes the line of each point in row order, or stops with the `KeyError` of the first point lacking the column |
| Labels.MakeLabelsOutcome | csv_to_openspace.py:291-346 | a non-string column raises `TypeError` and a missing column raises `KeyError`. Otherwise the function returns the names of the files it writes, `[base_col.label, base_col.asset]` in that order; line `i` of the label file is the line of point `i` as `iterrows` yields it, and the second file is the labels asset |
| Labels.LabelLineSplits | csv_to_openspace.py:300 | a label line reads back as x y z, `id`, the row index, `text`, then the label text, which joins back whole |
| Labels.AssetLifecycle | csv_to_openspace.py:306-342 | read back, the labels asset adds `base_col_labels` when loaded, removes it when unloaded, and exports it |
| Labels.AssetParses | csv_to_openspace.py:336-342 | any plain declarations followed by the labels hooks read back as adding, removing and exporting the one node |
| Labels.BodyIsPlain | csv_to_openspace.py:309-335 | the labels asset's declarations contain no hook or export statement |
| Labels.AssetLoadsLabels | csv_to_openspace.py:297-325 | the asset loads the label file of the same base and column, and carries the normalised `enabled` literal |
| Labels.AssetPosition | csv_to_openspace.py:315-317 | the labels node is placed at the raw centroid, with no unit conversion |
| StarsAsset.AssetParses | csv_to_openspace.py:206-286 | read back, the stars asset adds the node `base` when loaded, removes it when unloaded, and exports it |
| StarsAsset.NodeIsPlain | csv_to_openspace.py:231-279 | the node declaration contains no hook or export statement |
| StarsAsset.AssetLoadsSpeck | csv_to_openspace.py:229-246 | the asset declares the resource `base.speck`, the file the speck serialiser writes for the same base, and the renderable reads it |
| StarsAsset.AssetPosition | csv_to_openspace.py:236-239 | the stars node is placed at the raw centroid, with no unit conversion |
| AnchorAsset.AssetParses | csv_to_openspace.py:113-190 | read back, the anchor asset registers the fade action (when there is one) and then adds `base_anchor` when loaded; when unloaded it unregisters the action and then removes the node; it exports `base_anchor` |
| AnchorAsset.AnchorBalanced | csv_to_openspace.py:180-190 | unloading undoes loading call by call. Loading adds only the node `base_anchor`, and registers only `base_fade_target`, which it does exactly when the fade target is truthy |
| AnchorAsset.AssetBindings | csv_to_openspace.py:127-178 | the four `OnApproach`, `OnReach`, `OnRecede`, `OnExit` bindings to `base_fade_target` appear exactly when the fade target is truthy, and otherwise no event binding appears |
| AnchorAsset.FadingBindings | csv_to_openspace.py:169-173 | with a fade target, the declarations bind the four events, in that order, to `base_fade_target` |
| AnchorAsset.StillBindings | csv_to_openspace.py:127-173 | with no truthy fade target, the declarations bind no event |
| AnchorAsset.AssetFadeAction | csv_to_openspace.py:127-144 | with a fade target, the fade action block `base_fade_target` follows the prelude. It sets the target's fade to 0.0, hiding it, on approaching, and back to 1.0 on exiting |
| AnchorAsset.AssetCommands | csv_to_openspace.py:127-144 | the script declares the fade action's command exactly when the fade target is truthy, so without one there is no action block |
| AnchorAsset.AssetPosition | csv_to_openspace.py:124-154 | the first line declares `meters_to_pc = 3.0856775814913673e+16`, and the anchor is translated by each centroid coordinate times `meters_to_pc` |
| AnchorAsset.InitParses | csv_to_openspace.py:180-184 | the loading hook's lines read back as registering the action (if any) and then adding the node |
| AnchorAsset.DeinitParses | csv_to_openspace.py:185-189 | the unloading hook's lines read back as unregistering the action (if any) and then removing the node |
| AssetScript.SingleNodeBalanced | csv_to_openspace.py:280-285 | a one-node script adds only its node, and unloading removes exactly it |
| AssetScript.Restores | csv_to_openspace.py:180-189 | performing a loading hook of additions and then its inverse gives back the registry, when nothing added was there before |
| AssetScript.PerformAdditions | csv_to_openspace.py:180-184 | a hook of additions adds exactly the nodes and actions it names |
| AssetScript.PerformRemovals | csv_to_openspace.py:185-189 | the inverse hook removes exactly those nodes and actions |
| AssetScript.ExportedOnce | csv_to_openspace.py:280-286 | every script of the generated shape contains exactly one `asset.export` line |
| AssetScript.ExportedLast | csv_to_openspace.py:280-286 | that export is the last line, and it exports the variable the hooks manage |
| Driver.BaseNameDropsExtension | csv_to_openspace.py:412 | a trailing `.csv` is removed whatever precedes it, and a stem without `.csv` is its own base |
| Driver.BaseNameInner | csv_to_openspace.py:412 | every occurrence is removed, not only the extension: the base of `a.csv` followed by `b` is the base of `a` followed by the base of `b`, for any `a` and `b` |
| Driver.BaseNameLeavesCsv | csv_to_openspace.py:412 | the single pass can leave a new `.csv` behind: `x.c.csvsv` gives `x.csv` |
| Driver.BaseNameOfLeftover | csv_to_openspace.py:412 | the base name is not idempotent: a second pass over `x.csv` gives `x` |
| Driver.EnabledLiteral | csv_to_openspace.py:473-476 | the flag becomes `true` exactly when it equals 1, and `false` for every other value, including strings and NaN |
| Driver.FadeProbe | csv_to_openspace.py:431-436 | NaN, and only NaN, gives `None`; a string is kept as it is; any other number gives `""`. So the target is truthy exactly for a non-empty string |
| Driver.MissingPosition | csv_to_openspace.py:456-459 | taking the means fails exactly when x, y or z is missing, with the `KeyError` of a missing one |
| Driver.PointsHavePosition | csv_to_openspace.py:457-459 | when the table has x, y and z, every point has a position |
| Driver.Run | csv_to_openspace.py:398-510 | the loop computes `files_created` of the whole run, or the exception that stops it, and `files_created` names exactly the files written, in order |
| Driver.RunRow | csv_to_openspace.py:412-510 | one row fails exactly when its outcome is an exception, and then with that exception; otherwise it adds the names its type calls for, naming exactly the files it writes |
| Driver.RunAnchor | csv_to_openspace.py:424-440 | an anchor row adds `[base_anchor.asset]`, the name of the one file it writes |
| Driver.RunStars | csv_to_openspace.py:487-510 | a stars row adds `[base.speck, base.asset]`, the names of the two files it writes in that order |
| Driver.RunLabels | csv_to_openspace.py:466-485 | a labels row's outcome is the labels serialiser's, including its `TypeError` for a non-string column |
| Driver.WriteAnchor | csv_to_openspace.py:424-440 | the anchor asset is written under `base_anchor.asset` with the probed fade target. Read back, it manages the node `base_anchor` and the fade action exactly as the lifecycle of that target says. It binds the four camera events to `base_fade_target` exactly when the fade target is a non-empty string, and binds no event otherwise |
| Driver.WriteLabels | csv_to_openspace.py:466-485 | a labels row writes the label file and then its asset with the normalised `enabled` literal, or fails with the `KeyError` of a point lacking the column |
| Driver.WriteStarsAsset | csv_to_openspace.py:500-510 | the stars asset is written under `base.asset`. Read back, it adds, removes and exports the one node `base`, and it declares and reads the speck file `base.speck` of the same base |
| Driver.WriteSpeck | csv_to_openspace.py:492-497 | the speck file is written under `base.speck` from the points with the row's `lum`, `absmag` and `colorb_v` broadcast |
| Driver.FilesCreatedOutcome | csv_to_openspace.py:398-510 | the run succeeds exactly when every row does; otherwise it fails with the exception of the first failing row, all rows before it having succeeded |
| Driver.CollectSucceeds | csv_to_openspace.py:401-510 | combining row outcomes succeeds exactly when each of them does |
| Driver.CollectFirstError | csv_to_openspace.py:401-510 | a failed combination fails with the first failing outcome |
| Driver.CollectAppends | csv_to_openspace.py:437-500 | a successful combination is the names before a row followed by that row's names |
| Driver.CollectPersists | csv_to_openspace.py:401-510 | once a prefix of the rows fails, the run fails with that exception |
| Driver.KindNamesStartWithBase | csv_to_openspace.py:50-306 | every name a row can add is the base plus a fixed suffix |
| Driver.RowNames | csv_to_openspace.py:424-510 | a successful row adds `[base_anchor.asset]` for `anchor`, then the label file and its asset for `labels`, then `[base.speck, base.asset]` for `stars`, and nothing for any other type; each name starts with the base |
| Driver.RowFails | csv_to_openspace.py:456-485 | a row fails exactly when its table lacks a position column, or it is a `labels` row whose label column is not a string or is missing from some point |
| Text.RemoveAbsent | csv_to_openspace.py:412 | removing a pattern that does not occur changes nothing |
| Text.RemoveAround | csv_to_openspace.py:412 | removing a pattern that cannot overlap itself from `a`, the pattern, then `b` removes that occurrence whole and the rest from `a` and `b` apart |

## Left out

- Argument parsing, reading the dataset table and the point files with pandas, and the rename of the first column (csv_to_openspace.py:38-45, 389-408). A dataset arrives as its row, its column set, its points and its centroid.
- The means and the recentring (csv_to_openspace.py:117-119, 456-464). These are floating-point arithmetic. The centroid is an opaque triple and the points arrive already shifted. The anchor recomputes the same means from the same columns as `main`, so one centroid serves both.
- Python's `str()` and f-string formatting of numbers. They are the parameter `str`.
- Opening and writing the files themselves. A written file is its name and its lines.
- The progress and verbose `print` calls.
- The cache purge with its swallowed exceptions, the `mkdir`, and the copy to the asset directory (csv_to_openspace.py:512-532).
- The unreachable docstring after `return` (csv_to_openspace.py:348-385).
- Boolean cells, a non-string `csv_file`, and a `type`, `enabled` or other dataset column missing from the table. All of these are pandas-level conditions; a dataset row here always has every column.
- Driver.WriteLabels: every point has the table's columns, so a missing label column raises the `KeyError` at the first point. By then Python has already created the label file, empty. The model writes nothing for that row, since the run ends with the exception anyway.
- Driver.Run: ties the files written to `files_created` by name only. Their contents are stated once per file by `Driver.WriteAnchor`, `Driver.WriteLabels`, `Driver.WriteStarsAsset` and `Driver.WriteSpeck`. This keeps the proof of the run small.
- Driver.WriteLabels: does not model the overwrite of `row["enabled"]` on the pandas row. The normalised literal is computed by `Driver.EnabledLiteral` and passed on.
- Values.Widen: an integer becomes the float of exactly the same value. The rounding `float64` applies to integers beyond 2^53 is not modelled.
- Values.IterRow: which dtype `iterrows` uses is decided from the cells (a string cell means `object`, a float or NaN cell means `float64`). Boolean columns and other dtypes are not modelled.
- Driver.EnabledLiteral: compares numerically with 1 as Python's `==` would. A string `"1"` therefore gives `false`.
