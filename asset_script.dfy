/** The shape every generated OpenSpace asset script shares: plain Lua
    declarations, then an `asset.onInitialize` hook, an `asset.onDeinitialize`
    hook and a single `asset.export`. `Parse` reads that shape back from the
    printed lines, and `Perform` gives the hooks' effect on the scene. */
module AssetScript {
  import opened Values
  import opened Text

  /** One call a lifecycle hook makes into OpenSpace; the argument is a Lua variable. */
  datatype Call =
    | AddNode(node: string)
    | RemoveNode(node: string)
    | RegisterAction(action: string)
    | UnregisterAction(action: string)

  /** What a script does when loaded and unloaded, and the variable it exports. */
  datatype Lifecycle = Lifecycle(onInitialize: seq<Call>, onDeinitialize: seq<Call>, exported: string)

  const InitHeader: string := "asset.onInitialize(function()"
  const DeinitHeader: string := "asset.onDeinitialize(function()"
  const HookEnd: string := "end)"

  const AddCallee: string := "openspace." + "addSceneGraphNode"
  const RemoveCallee: string := "openspace." + "removeSceneGraphNode"
  const RegisterCallee: string := "openspace." + "action." + "registerAction"
  const UnregisterCallee: string := "openspace." + "action." + "unregisterAction"
  const ExportCallee: string := "asset.export"

  /** A top-level statement on the `asset` object (a hook or the export). */
  predicate IsStatement(line: string)
  {
    StartsWith(line, "asset.")
  }

  /** A line that exports a value from the script. */
  predicate IsExport(line: string)
  {
    StartsWith(line, ExportCallee)
  }

  /** Declarations only: no line is an `asset.` statement. */
  predicate Plain(lines: seq<string>)
  {
    forall i | 0 <= i < |lines| :: !IsStatement(lines[i])
  }

  /** The index of the first `asset.` statement, or `|lines|` when there is none. */
  function FirstStatement(lines: seq<string>): (k: nat)
    ensures k <= |lines|
    ensures forall i | 0 <= i < k :: !IsStatement(lines[i])
    ensures k < |lines| ==> IsStatement(lines[k])
  {
    if |lines| == 0 then 0
    else if IsStatement(lines[0]) then 0
    else
      var k := FirstStatement(lines[1..]);
      assert forall i | 1 <= i < k + 1 :: lines[i] == lines[1..][i - 1];
      1 + k
  }

  /** The number of lines before the first `end)`, or `|lines|` when there is none. */
  function HookLength(lines: seq<string>): (k: nat)
    ensures k <= |lines|
    ensures forall i | 0 <= i < k :: lines[i] != HookEnd
    ensures k < |lines| ==> lines[k] == HookEnd
  {
    if |lines| == 0 then 0
    else if lines[0] == HookEnd then 0
    else
      var k := HookLength(lines[1..]);
      assert forall i | 1 <= i < k + 1 :: lines[i] == lines[1..][i - 1];
      1 + k
  }

  /** The leading spaces of a line removed. */
  function TrimSpaces(s: string): string
  {
    if |s| > 0 && s[0] == ' ' then TrimSpaces(s[1..]) else s
  }

  /** A trailing `;` removed. */
  function DropSemicolon(s: string): string
  {
    if |s| > 0 && s[|s| - 1] == ';' then s[..|s| - 1] else s
  }

  /** The argument text of `callee(argument)`, when `s` has that form. */
  function Argument(s: string, callee: string): Option<string>
  {
    var open := callee + "(";
    if |s| >= |open| + 1 && StartsWith(s, open) && s[|s| - 1] == ')'
    then Some(s[|open|..|s| - 1])
    else None
  }

  /** A hook line: indentation, one of the four OpenSpace calls, an optional `;`. */
  function ParseCall(line: string): Option<Call>
  {
    var s := DropSemicolon(TrimSpaces(line));
    match Argument(s, AddCallee)
    case Some(v) => Some(AddNode(v))
    case None =>
      match Argument(s, RemoveCallee)
      case Some(v) => Some(RemoveNode(v))
      case None =>
        match Argument(s, RegisterCallee)
        case Some(v) => Some(RegisterAction(v))
        case None =>
          match Argument(s, UnregisterCallee)
          case Some(v) => Some(UnregisterAction(v))
          case None => None
  }

  /** The body of a hook: every line must be a call. */
  function ParseCalls(lines: seq<string>): (r: Option<seq<Call>>)
    ensures r.Some? ==> |r.value| == |lines|
  {
    if |lines| == 0 then Some([])
    else
      match (ParseCall(lines[0]), ParseCalls(lines[1..]))
      case (Some(c), Some(cs)) => Some([c] + cs)
      case _ => None
  }

  /** A hook opened by `header`: the lines up to its `end)`, and the lines after it. */
  function Hook(t: seq<string>, header: string): Option<(seq<string>, seq<string>)>
  {
    if |t| == 0 || t[0] != header then None
    else
      var k := HookLength(t[1..]);
      if k == |t| - 1 then None else Some((t[1..k + 1], t[k + 2..]))
  }

  /** The statements after the declarations: the two hooks, then one export as the last line. */
  function ParseHooks(t: seq<string>): Option<Lifecycle>
  {
    match Hook(t, InitHeader)
    case None => None
    case Some((init, rest)) =>
      match Hook(rest, DeinitHeader)
      case None => None
      case Some((deinit, tail)) =>
        if |tail| != 1 then None
        else
          match (ParseCalls(init), ParseCalls(deinit), Argument(tail[0], ExportCallee))
          case (Some(i), Some(d), Some(v)) => Some(Lifecycle(i, d, v))
          case _ => None
  }

  /** The lifecycle of a whole script, when it has the shape above. */
  function Parse(lines: seq<string>): Option<Lifecycle>
  {
    ParseHooks(lines[FirstStatement(lines)..])
  }

  /** The number of export lines. */
  function ExportCount(lines: seq<string>): nat
  {
    if |lines| == 0 then 0
    else (if IsExport(lines[0]) then 1 else 0) + ExportCount(lines[1..])
  }

  // ----- The state the hooks act on -----

  /** The scene graph's node variables and the registered actions. */
  datatype Registry = Registry(nodes: set<string>, actions: set<string>)

  function Apply(r: Registry, c: Call): Registry
  {
    match c
    case AddNode(n) => r.(nodes := r.nodes + {n})
    case RemoveNode(n) => r.(nodes := r.nodes - {n})
    case RegisterAction(a) => r.(actions := r.actions + {a})
    case UnregisterAction(a) => r.(actions := r.actions - {a})
  }

  /** The calls of a hook, in order. */
  function Perform(r: Registry, calls: seq<Call>): Registry
    decreases |calls|
  {
    if |calls| == 0 then r else Perform(Apply(r, calls[0]), calls[1..])
  }

  /** The call that undoes `c`. */
  function Undo(c: Call): Call
  {
    match c
    case AddNode(n) => RemoveNode(n)
    case RemoveNode(n) => AddNode(n)
    case RegisterAction(a) => UnregisterAction(a)
    case UnregisterAction(a) => RegisterAction(a)
  }

  /** Each call undone, in the same order. */
  function Inverse(calls: seq<Call>): (r: seq<Call>)
    ensures |r| == |calls|
  {
    seq(|calls|, i requires 0 <= i < |calls| => Undo(calls[i]))
  }

  predicate IsAddition(c: Call)
  {
    c.AddNode? || c.RegisterAction?
  }

  /** The nodes and actions a sequence of additions introduces. */
  function AddedNodes(calls: seq<Call>): set<string>
  {
    set i | 0 <= i < |calls| && calls[i].AddNode? :: calls[i].node
  }

  function AddedActions(calls: seq<Call>): set<string>
  {
    set i | 0 <= i < |calls| && calls[i].RegisterAction? :: calls[i].action
  }

  /** Additions add exactly their names. */
  lemma {:induction false} PerformAdditions(r: Registry, calls: seq<Call>)
    requires forall i | 0 <= i < |calls| :: IsAddition(calls[i])
    ensures Perform(r, calls) == Registry(r.nodes + AddedNodes(calls), r.actions + AddedActions(calls))
    decreases |calls|
  {
    if |calls| > 0 {
      PerformAdditions(Apply(r, calls[0]), calls[1..]);
      AddedSplit(calls);
    }
  }

  /** Their inverses remove exactly those names. */
  lemma {:induction false} PerformRemovals(r: Registry, calls: seq<Call>)
    requires forall i | 0 <= i < |calls| :: IsAddition(calls[i])
    ensures Perform(r, Inverse(calls)) == Registry(r.nodes - AddedNodes(calls), r.actions - AddedActions(calls))
    decreases |calls|
  {
    if |calls| > 0 {
      assert Inverse(calls)[1..] == Inverse(calls[1..]);
      PerformRemovals(Apply(r, Undo(calls[0])), calls[1..]);
      AddedSplit(calls);
    }
  }

  lemma AddedSplit(calls: seq<Call>)
    requires |calls| > 0
    ensures AddedNodes(calls) == AddedNodes(calls[..1]) + AddedNodes(calls[1..])
    ensures AddedActions(calls) == AddedActions(calls[..1]) + AddedActions(calls[1..])
  {
    assert forall i | 1 <= i < |calls| :: calls[i] == calls[1..][i - 1];
    assert forall i | 0 <= i < |calls| - 1 :: calls[1..][i] == calls[i + 1];
  }

  /** A script whose unloading hook undoes, call by call, what its loading hook adds. */
  predicate Balanced(lc: Lifecycle)
  {
    && (forall i | 0 <= i < |lc.onInitialize| :: IsAddition(lc.onInitialize[i]))
    && lc.onDeinitialize == Inverse(lc.onInitialize)
  }

  /** The lifecycle of a script that manages the one node `v`. */
  function SingleNode(v: string): Lifecycle
  {
    Lifecycle([AddNode(v)], [RemoveNode(v)], v)
  }

  /** Such a script adds only `v`, and unloading removes it again. */
  lemma SingleNodeBalanced(v: string)
    ensures Balanced(SingleNode(v))
    ensures AddedNodes(SingleNode(v).onInitialize) == {v} && AddedActions(SingleNode(v).onInitialize) == {}
  {
    var calls := [AddNode(v)];
    assert Inverse(calls) == [RemoveNode(v)];
    assert AddedNodes(calls) == {v} by { assert calls[0].node == v; }
  }

  /** Unloading undoes loading: performing additions and then their inverses gives
      back a registry that held none of the added names. */
  lemma Restores(r: Registry, calls: seq<Call>)
    requires forall i | 0 <= i < |calls| :: IsAddition(calls[i])
    requires AddedNodes(calls) !! r.nodes && AddedActions(calls) !! r.actions
    ensures Perform(Perform(r, calls), Inverse(calls)) == r
  {
    PerformAdditions(r, calls);
    PerformRemovals(Perform(r, calls), calls);
  }

  // ----- Reading the shape back -----

  /** Two strings that differ at index `i` do not share a prefix that long. */
  lemma DiffersAt(s: string, p: string, i: nat)
    requires i < |s| && i < |p| && s[i] != p[i]
    ensures !StartsWith(s, p)
  {
    assert |p| <= |s| ==> s[..|p|][i] == s[i];
  }

  /** Lines none of which begins with `a` hold no `asset.` statement. */
  lemma PlainByHeads(lines: seq<string>)
    requires forall i | 0 <= i < |lines| :: |lines[i]| == 0 || lines[i][0] != 'a'
    ensures Plain(lines)
  {
    forall i | 0 <= i < |lines| ensures !IsStatement(lines[i]) {
      if |lines[i]| > 0 { DifferentHeads(lines[i], "asset."); }
    }
  }

  lemma PlainAppend(a: seq<string>, b: seq<string>)
    requires Plain(a) && Plain(b)
    ensures Plain(a + b)
  {
    forall i | 0 <= i < |a + b| ensures !IsStatement((a + b)[i]) {
      if i < |a| { assert (a + b)[i] == a[i]; } else { assert (a + b)[i] == b[i - |a|]; }
    }
  }

  lemma {:induction false} FirstStatementAfter(body: seq<string>, rest: seq<string>)
    requires Plain(body)
    requires |rest| > 0 && IsStatement(rest[0])
    ensures FirstStatement(body + rest) == |body|
  {
    if |body| > 0 {
      assert (body + rest)[1..] == body[1..] + rest;
      FirstStatementAfter(body[1..], rest);
    }
  }

  lemma {:induction false} HookLengthOf(calls: seq<string>, rest: seq<string>)
    requires forall i | 0 <= i < |calls| :: calls[i] != HookEnd
    ensures HookLength(calls + [HookEnd] + rest) == |calls|
  {
    if |calls| > 0 {
      assert (calls + [HookEnd] + rest)[1..] == calls[1..] + [HookEnd] + rest;
      HookLengthOf(calls[1..], rest);
    }
  }

  lemma ArgumentOf(callee: string, arg: string)
    ensures Argument(callee + "(" + arg + ")", callee) == Some(arg)
  {
    var s := callee + "(" + arg + ")";
    PrefixOfConcat(callee + "(", arg, ")");
    assert s[|callee + "("|..|s| - 1] == arg;
  }

  lemma {:induction false} TrimIndent(indent: string, s: string)
    requires forall i | 0 <= i < |indent| :: indent[i] == ' '
    requires |s| > 0 && s[0] != ' '
    ensures TrimSpaces(indent + s) == s
  {
    if |indent| > 0 {
      assert (indent + s)[1..] == indent[1..] + s;
      TrimIndent(indent[1..], s);
    }
  }

  /** The text of a hook line as the serialisers print it. */
  function CallLine(indent: string, callee: string, arg: string, semicolon: bool): string
  {
    indent + callee + "(" + arg + ")" + (if semicolon then ";" else "")
  }

  predicate Indentation(indent: string)
  {
    forall i | 0 <= i < |indent| :: indent[i] == ' '
  }

  /** An indented call line, with or without `;`, is `callee(arg)` once trimmed. */
  lemma CallLineCore(indent: string, callee: string, arg: string, semicolon: bool)
    requires Indentation(indent) && |callee| > 0 && callee[0] == 'o'
    ensures DropSemicolon(TrimSpaces(CallLine(indent, callee, arg, semicolon))) == callee + "(" + arg + ")"
  {
    var core := callee + "(" + arg + ")";
    assert CallLine(indent, callee, arg, semicolon) == indent + (core + (if semicolon then ";" else ""));
    TrimIndent(indent, core + (if semicolon then ";" else ""));
    if semicolon {
      assert (core + ";")[..|core + ";"| - 1] == core;
    }
  }

  lemma ParseAddLine(indent: string, arg: string, semicolon: bool)
    requires Indentation(indent)
    ensures ParseCall(CallLine(indent, AddCallee, arg, semicolon)) == Some(AddNode(arg))
  {
    CallLineCore(indent, AddCallee, arg, semicolon);
    ArgumentOf(AddCallee, arg);
  }

  lemma ParseRemoveLine(indent: string, arg: string, semicolon: bool)
    requires Indentation(indent)
    ensures ParseCall(CallLine(indent, RemoveCallee, arg, semicolon)) == Some(RemoveNode(arg))
  {
    var core := RemoveCallee + "(" + arg + ")";
    CallLineCore(indent, RemoveCallee, arg, semicolon);
    DiffersAt(core, AddCallee + "(", 10);
    ArgumentOf(RemoveCallee, arg);
  }

  lemma ParseRegisterLine(indent: string, arg: string, semicolon: bool)
    requires Indentation(indent)
    ensures ParseCall(CallLine(indent, RegisterCallee, arg, semicolon)) == Some(RegisterAction(arg))
  {
    var core := RegisterCallee + "(" + arg + ")";
    CallLineCore(indent, RegisterCallee, arg, semicolon);
    DiffersAt(core, AddCallee + "(", 11);
    DiffersAt(core, RemoveCallee + "(", 10);
    ArgumentOf(RegisterCallee, arg);
  }

  lemma ParseUnregisterLine(indent: string, arg: string, semicolon: bool)
    requires Indentation(indent)
    ensures ParseCall(CallLine(indent, UnregisterCallee, arg, semicolon)) == Some(UnregisterAction(arg))
  {
    var core := UnregisterCallee + "(" + arg + ")";
    CallLineCore(indent, UnregisterCallee, arg, semicolon);
    DiffersAt(core, AddCallee + "(", 11);
    DiffersAt(core, RemoveCallee + "(", 10);
    DiffersAt(core, RegisterCallee + "(", 17);
    ArgumentOf(UnregisterCallee, arg);
  }

  /** Lines that each parse as a call parse together as those calls. */
  lemma {:induction false} ParseCallsOf(lines: seq<string>, calls: seq<Call>)
    requires |lines| == |calls|
    requires forall i | 0 <= i < |lines| :: ParseCall(lines[i]) == Some(calls[i])
    ensures ParseCalls(lines) == Some(calls)
  {
    if |lines| > 0 {
      ParseCallsOf(lines[1..], calls[1..]);
      assert [calls[0]] + calls[1..] == calls;
    }
  }

  /** `end)` is not a call, so a hook's calls never close it early. */
  lemma {:induction false} CallsAreNotEnd(lines: seq<string>)
    requires ParseCalls(lines).Some?
    ensures forall i | 0 <= i < |lines| :: lines[i] != HookEnd
  {
    assert ParseCall(HookEnd).None?;
    if |lines| > 0 {
      CallsAreNotEnd(lines[1..]);
      assert forall i | 1 <= i < |lines| :: lines[i] == lines[1..][i - 1];
    }
  }

  lemma HookOf(header: string, body: seq<string>, rest: seq<string>)
    requires forall i | 0 <= i < |body| :: body[i] != HookEnd
    ensures Hook([header] + body + [HookEnd] + rest, header) == Some((body, rest))
  {
    var t := [header] + body + [HookEnd] + rest;
    assert t[1..] == body + [HookEnd] + rest;
    HookLengthOf(body, rest);
    assert t[1..|body| + 1] == body;
    assert t[|body| + 2..] == rest;
  }

  lemma HookShape(t: seq<string>, header: string)
    requires Hook(t, header).Some?
    ensures var (body, rest) := Hook(t, header).value;
      t == [header] + body + [HookEnd] + rest && forall i | 0 <= i < |body| :: body[i] != HookEnd
  {
    var k := HookLength(t[1..]);
    assert t == [t[0]] + t[1..k + 1] + [t[k + 1]] + t[k + 2..];
    assert forall i | 0 <= i < k :: t[1..k + 1][i] == t[1..][i];
  }

  /** The statements a script ends with. */
  function Trailer(init: seq<string>, deinit: seq<string>, exported: string): seq<string>
  {
    [InitHeader] + init + [HookEnd] + ([DeinitHeader] + deinit + [HookEnd] + [ExportCallee + "(" + exported + ")"])
  }

  lemma {:induction false} ParseTrailer(init: seq<string>, deinit: seq<string>,
                                        initCalls: seq<Call>, deinitCalls: seq<Call>, exported: string)
    requires ParseCalls(init) == Some(initCalls) && ParseCalls(deinit) == Some(deinitCalls)
    ensures ParseHooks(Trailer(init, deinit, exported)) == Some(Lifecycle(initCalls, deinitCalls, exported))
  {
    CallsAreNotEnd(init);
    CallsAreNotEnd(deinit);
    var exportLine := ExportCallee + "(" + exported + ")";
    HookOf(InitHeader, init, [DeinitHeader] + deinit + [HookEnd] + [exportLine]);
    HookOf(DeinitHeader, deinit, [exportLine]);
    ArgumentOf(ExportCallee, exported);
  }

  /** A script made of plain declarations followed by the two hooks and one export
      reads back as exactly that lifecycle. */
  lemma ParseScript(body: seq<string>, init: seq<string>, deinit: seq<string>,
                    initCalls: seq<Call>, deinitCalls: seq<Call>, exported: string)
    requires Plain(body)
    requires ParseCalls(init) == Some(initCalls) && ParseCalls(deinit) == Some(deinitCalls)
    ensures Parse(body + Trailer(init, deinit, exported)) == Some(Lifecycle(initCalls, deinitCalls, exported))
  {
    var t := Trailer(init, deinit, exported);
    assert IsStatement(InitHeader) by { PrefixOfConcat("asset.", "onInitialize(function", "()"); }
    FirstStatementAfter(body, t);
    assert (body + t)[|body|..] == t;
    ParseTrailer(init, deinit, initCalls, deinitCalls, exported);
  }

  lemma {:induction false} ExportCountAppend(a: seq<string>, b: seq<string>)
    ensures ExportCount(a + b) == ExportCount(a) + ExportCount(b)
  {
    if |a| > 0 {
      assert (a + b)[1..] == a[1..] + b;
      ExportCountAppend(a[1..], b);
    } else {
      assert a + b == b;
    }
  }

  lemma ExportIsStatement(line: string)
    ensures IsExport(line) ==> IsStatement(line)
  {
    if IsExport(line) {
      assert line[..6] == line[..|ExportCallee|][..6];
    }
  }

  lemma {:induction false} PlainHasNoExport(lines: seq<string>)
    requires Plain(lines)
    ensures ExportCount(lines) == 0
  {
    if |lines| > 0 {
      ExportIsStatement(lines[0]);
      PlainHasNoExport(lines[1..]);
    }
  }

  /** An export line is not a hook call: after its indentation a call begins with `openspace.`. */
  lemma ExportIsNoCall(line: string)
    ensures IsExport(line) ==> ParseCall(line).None?
  {
    if IsExport(line) {
      assert line[0] == 'a' by { assert line[..|ExportCallee|][0] == 'a'; }
      assert TrimSpaces(line) == line;
      var s := DropSemicolon(line);
      assert s[0] == 'a';
      assert Argument(s, AddCallee).None? by { DiffersAt(s, AddCallee + "(", 0); }
      assert Argument(s, RemoveCallee).None? by { DiffersAt(s, RemoveCallee + "(", 0); }
      assert Argument(s, RegisterCallee).None? by { DiffersAt(s, RegisterCallee + "(", 0); }
      assert Argument(s, UnregisterCallee).None? by { DiffersAt(s, UnregisterCallee + "(", 0); }
    }
  }

  lemma {:induction false} CallsHaveNoExport(lines: seq<string>)
    requires ParseCalls(lines).Some?
    ensures ExportCount(lines) == 0
  {
    if |lines| > 0 {
      ExportIsNoCall(lines[0]);
      CallsHaveNoExport(lines[1..]);
    }
  }

  /** A hook adds no export to the lines that follow it. */
  lemma HookHasNoExport(header: string, body: seq<string>, rest: seq<string>)
    requires header == InitHeader || header == DeinitHeader
    requires ParseCalls(body).Some?
    ensures ExportCount([header] + body + [HookEnd] + rest) == ExportCount(rest)
  {
    assert !IsExport(header) by { DiffersAt(header, ExportCallee, 6); }
    assert !IsExport(HookEnd);
    CallsHaveNoExport(body);
    ExportCountAppend([header] + body + [HookEnd], rest);
    ExportCountAppend([header] + body, [HookEnd]);
    ExportCountAppend([header], body);
  }

  /** A parsed trailer is exactly the lines `Trailer` prints for its hooks. */
  lemma TrailerOf(t: seq<string>) returns (init: seq<string>, deinit: seq<string>)
    requires ParseHooks(t).Some?
    ensures ParseCalls(init).Some? && ParseCalls(deinit).Some?
    ensures t == Trailer(init, deinit, ParseHooks(t).value.exported)
  {
    HookShape(t, InitHeader);
    var rest;
    init, rest := Hook(t, InitHeader).value.0, Hook(t, InitHeader).value.1;
    HookShape(rest, DeinitHeader);
    var tail;
    deinit, tail := Hook(rest, DeinitHeader).value.0, Hook(rest, DeinitHeader).value.1;
    ArgumentShape(tail[0], ExportCallee);
    assert tail == [ExportCallee + "(" + ParseHooks(t).value.exported + ")"];
  }

  /** A line with an argument is the call of the callee on that argument. */
  lemma ArgumentShape(s: string, callee: string)
    requires Argument(s, callee).Some?
    ensures s == callee + "(" + Argument(s, callee).value + ")"
  {
    assert s == s[..|callee + "("|] + Argument(s, callee).value + ")";
  }

  lemma TrailerExportsOnce(init: seq<string>, deinit: seq<string>, v: string)
    requires ParseCalls(init).Some? && ParseCalls(deinit).Some?
    ensures ExportCount(Trailer(init, deinit, v)) == 1
  {
    var tail := [ExportCallee + "(" + v + ")"];
    var rest := [DeinitHeader] + deinit + [HookEnd] + tail;
    HookHasNoExport(InitHeader, init, rest);
    HookHasNoExport(DeinitHeader, deinit, tail);
    assert IsExport(tail[0]) by { PrefixOfConcat(ExportCallee, "(" + v, ")"); }
    assert ExportCount(tail) == 1;
  }

  lemma TrailerEndsWithExport(init: seq<string>, deinit: seq<string>, v: string)
    ensures var t := Trailer(init, deinit, v); |t| > 0 && t[|t| - 1] == ExportCallee + "(" + v + ")"
  {
  }

  /** Every script with the shape above exports exactly one value. */
  lemma ExportedOnce(lines: seq<string>)
    requires Parse(lines).Some?
    ensures ExportCount(lines) == 1
  {
    var k := FirstStatement(lines);
    var t := lines[k..];
    assert lines == lines[..k] + t;
    assert Plain(lines[..k]);
    PlainHasNoExport(lines[..k]);
    ExportCountAppend(lines[..k], t);
    var init, deinit := TrailerOf(t);
    TrailerExportsOnce(init, deinit, ParseHooks(t).value.exported);
  }

  /** ... and the export is the last line, naming the exported variable. */
  lemma ExportedLast(lines: seq<string>)
    requires Parse(lines).Some?
    ensures lines[|lines| - 1] == ExportCallee + "(" + Parse(lines).value.exported + ")"
  {
    var k := FirstStatement(lines);
    var t := lines[k..];
    var v := ParseHooks(t).value.exported;
    var init, deinit := TrailerOf(t);
    TrailerEndsWithExport(init, deinit, v);
    assert lines[|lines| - 1] == t[|t| - 1];
  }
}
