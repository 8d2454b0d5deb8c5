/** `make_anchor_asset_from_dataframe`: an asset script with a `RenderableCartesianAxes`
    node at the dataset's centroid, scaled from parsecs to metres, and, when the row
    names a fade target, an action that sets the target's fade to 0 (hidden) when the
    camera approaches and back to 1 (shown) when it exits. */
module AnchorAsset {
  import opened Values
  import opened Text
  import opened AssetScript
  import opened OutputNames

  /** Python truthiness of the fade target: `None` and `""` are false. */
  predicate Truthy(fade: Option<string>)
  {
    fade.Some? && fade.value != ""
  }

  /** Metres per parsec, as the script declares it. */
  const MetersToPc: string := "3.0856775814913673e+16"

  function Prelude(): seq<string>
  {
    [ "local meters_to_pc = " + MetersToPc,
      "" ]
  }

  /** The action that sets the target's fade to 0 when the camera approaches and to 1
      when it exits. */
  function FadeAction(base: string, target: string): seq<string>
  {
    var fv := FadeVariable(base, target);
    [ "local " + fv + " = {",
      "    Identifier = \"" + fv + "\",",
      "    Name = \"" + fv + "\",",
      "    Command = [[",
      "      openspace." + "printInfo(\"Node: \" .. args.Node)",
      "      openspace." + "printInfo(" + "\"Transition: \" .. args.Transition)",
      "",
      "      if args.Transition == " + "\"Approaching\" then",
      "        openspace." + "setPropertyValueSingle(\"Scene." + target + ".Renderable.Fade\", 0.0, 1.0)",
      "      elseif args.Transition == " + "\"Exiting\" then",
      "        openspace." + "setPropertyValueSingle(\"Scene." + target + ".Renderable.Fade\", 1.0, 1.0)",
      "      end",
      "    ]],",
      "    IsLocal = true",
      "}" ]
  }

  /** The node's declaration and its translation: each centroid coordinate times `meters_to_pc`. */
  function Transform(av: string, c: Triple, str: Num -> string): seq<string>
  {
    [ "local " + av + " = {",
      "    Identifier = \"" + av + "\",",
      "    Transform = {",
      "        Translation = {",
      "            Type = " + "\"StaticTranslation\",",
      "            Position = {",
      "                " + str(c.x) + " * meters_to_pc,",
      "                " + str(c.y) + " * meters_to_pc,",
      "                " + str(c.z) + " * meters_to_pc",
      "            }",
      "        },",
      "        Scale = {",
      "            Type = \"StaticScale\",",
      "            Scale = 1",
      "        }",
      "    }," ]
  }

  /** The renderable and the distances at which the camera approaches and reaches the node. */
  function Approach(): seq<string>
  {
    [ "    Renderable = {",
      "        Type = " + "\"RenderableCartesianAxes\",",
      "    },",
      "    InteractionSphere = " + "1 * meters_to_pc,",
      "    ApproachFactor = 1000.0,",
      "    ReachFactor = 5.0,",
      "" ]
  }

  /** The line that binds one camera event to the fade action. */
  function BindingLine(event: string, fv: string): string
  {
    "    On" + event + " = { \"" + fv + "\" },"
  }

  /** The four camera events bound to the fade action. */
  function Bindings(fv: string): seq<string>
  {
    [ BindingLine("Approach", fv),
      BindingLine("Reach", fv),
      BindingLine("Recede", fv),
      BindingLine("Exit", fv) ]
  }

  function Gui(av: string): seq<string>
  {
    [ "    GUI = {",
      "        Name = \"" + av + "\",",
      "        Path = \"/Anchors\"",
      "    }",
      "}" ]
  }

  /** The loading hook: the fade action is registered before the node is added. */
  function InitLines(av: string, fv: string, fading: bool): seq<string>
  {
    if fading then [CallLine("  ", RegisterCallee, fv, true), CallLine("  ", AddCallee, av, true)]
    else [CallLine("  ", AddCallee, av, true)]
  }

  /** The unloading hook: the fade action is unregistered before the node is removed. */
  function DeinitLines(av: string, fv: string, fading: bool): seq<string>
  {
    if fading then [CallLine("  ", UnregisterCallee, fv, true), CallLine("  ", RemoveCallee, av, true)]
    else [CallLine("  ", RemoveCallee, av, true)]
  }

  /** The calls of the two hooks. */
  function InitCalls(av: string, fv: string, fading: bool): seq<Call>
  {
    if fading then [RegisterAction(fv), AddNode(av)] else [AddNode(av)]
  }

  function DeinitCalls(av: string, fv: string, fading: bool): seq<Call>
  {
    if fading then [UnregisterAction(fv), RemoveNode(av)] else [RemoveNode(av)]
  }

  /** The name of the fade action, when there is one. */
  function FadeName(base: string, fade: Option<string>): string
  {
    if Truthy(fade) then FadeVariable(base, fade.value) else ""
  }

  /** Everything before the hooks. The fade action and the event bindings appear
      only for a truthy fade target. */
  function Declarations(base: string, c: Triple, fade: Option<string>, str: Num -> string): seq<string>
  {
    var av := AnchorVariable(base);
    if Truthy(fade) then
      Prelude() + FadeAction(base, fade.value) + Transform(av, c, str) + Approach()
        + Bindings(FadeName(base, fade)) + Gui(av)
    else
      Prelude() + Transform(av, c, str) + Approach() + Gui(av)
  }

  /** The whole script `base_anchor.asset`; the hooks call the fade action only for a
      truthy fade target. */
  function Asset(base: string, c: Triple, fade: Option<string>, str: Num -> string): seq<string>
  {
    var av := AnchorVariable(base);
    var fv := FadeName(base, fade);
    Declarations(base, c, fade, str)
      + Trailer(InitLines(av, fv, Truthy(fade)), DeinitLines(av, fv, Truthy(fade)), av)
  }

  /** What loading and unloading the anchor does. */
  function AnchorLifecycle(base: string, fade: Option<string>): Lifecycle
  {
    var av := AnchorVariable(base);
    var fv := FadeName(base, fade);
    Lifecycle(InitCalls(av, fv, Truthy(fade)), DeinitCalls(av, fv, Truthy(fade)), av)
  }

  // ----- Reading the script back -----

  lemma PreludeIsPlain()
    ensures Plain(Prelude())
  {
    PlainByHeads(Prelude());
  }

  lemma FadeActionIsPlain(base: string, target: string)
    ensures Plain(FadeAction(base, target))
  {
    PlainByHeads(FadeAction(base, target));
  }

  lemma NodeIsPlain(av: string, fv: string, c: Triple, str: Num -> string, fading: bool)
    ensures Plain(Transform(av, c, str) + Approach() + (if fading then Bindings(fv) else []) + Gui(av))
  {
    PlainByHeads(Transform(av, c, str));
    PlainByHeads(Approach());
    PlainByHeads(Bindings(fv));
    PlainByHeads(Gui(av));
    PlainAppend(Transform(av, c, str), Approach());
    assert Plain([]);
    PlainAppend(Transform(av, c, str) + Approach(), if fading then Bindings(fv) else []);
    PlainAppend(Transform(av, c, str) + Approach() + (if fading then Bindings(fv) else []), Gui(av));
  }

  lemma InitParses(av: string, fv: string, fading: bool)
    ensures ParseCalls(InitLines(av, fv, fading)) == Some(InitCalls(av, fv, fading))
  {
    var add := CallLine("  ", AddCallee, av, true);
    ParseAddLine("  ", av, true);
    if fading {
      var reg := CallLine("  ", RegisterCallee, fv, true);
      ParseRegisterLine("  ", fv, true);
      ParseCallsOf([reg, add], [RegisterAction(fv), AddNode(av)]);
    } else {
      ParseCallsOf([add], [AddNode(av)]);
    }
  }

  lemma DeinitParses(av: string, fv: string, fading: bool)
    ensures ParseCalls(DeinitLines(av, fv, fading)) == Some(DeinitCalls(av, fv, fading))
  {
    var remove := CallLine("  ", RemoveCallee, av, true);
    ParseRemoveLine("  ", av, true);
    if fading {
      var unreg := CallLine("  ", UnregisterCallee, fv, true);
      ParseUnregisterLine("  ", fv, true);
      ParseCallsOf([unreg, remove], [UnregisterAction(fv), RemoveNode(av)]);
    } else {
      ParseCallsOf([remove], [RemoveNode(av)]);
    }
  }

  /** Read back, the script registers the fade action (for a truthy target) and adds
      the node when loaded, undoes both in the same order when unloaded, and exports
      the node. */
  lemma AssetParses(base: string, c: Triple, fade: Option<string>, str: Num -> string)
    ensures Parse(Asset(base, c, fade, str)) == Some(AnchorLifecycle(base, fade))
  {
    var av := AnchorVariable(base);
    var fv := FadeName(base, fade);
    DeclarationsArePlain(base, c, fade, str);
    InitParses(av, fv, Truthy(fade));
    DeinitParses(av, fv, Truthy(fade));
    ParseScript(Declarations(base, c, fade, str), InitLines(av, fv, Truthy(fade)), DeinitLines(av, fv, Truthy(fade)),
                InitCalls(av, fv, Truthy(fade)), DeinitCalls(av, fv, Truthy(fade)), av);
  }

  lemma DeclarationsArePlain(base: string, c: Triple, fade: Option<string>, str: Num -> string)
    ensures Plain(Declarations(base, c, fade, str))
  {
    var av := AnchorVariable(base);
    var fv := FadeName(base, fade);
    var fading := Truthy(fade);
    PreludeIsPlain();
    NodeIsPlain(av, fv, c, str, fading);
    var node := Transform(av, c, str) + Approach() + (if fading then Bindings(fv) else []) + Gui(av);
    if fading {
      FadeActionIsPlain(base, fade.value);
      PlainAppend(Prelude(), FadeAction(base, fade.value));
      PlainAppend(Prelude() + FadeAction(base, fade.value), node);
      assert Declarations(base, c, fade, str) == Prelude() + FadeAction(base, fade.value) + node;
    } else {
      PlainAppend(Prelude(), node);
      assert Declarations(base, c, fade, str) == Prelude() + node;
    }
  }

  /** Unloading removes exactly the node and the action that loading added; the action
      is there only for a truthy fade target. */
  lemma AnchorBalanced(base: string, fade: Option<string>)
    ensures var lc := AnchorLifecycle(base, fade);
      && Balanced(lc)
      && AddedNodes(lc.onInitialize) == {AnchorVariable(base)}
      && AddedActions(lc.onInitialize) == (if Truthy(fade) then {FadeVariable(base, fade.value)} else {})
      && lc.exported == AnchorVariable(base)
  {
    var av := AnchorVariable(base);
    if Truthy(fade) {
      var fv := FadeVariable(base, fade.value);
      var calls := [RegisterAction(fv), AddNode(av)];
      assert Inverse(calls) == [UnregisterAction(fv), RemoveNode(av)];
      assert AddedNodes(calls) == {av} by { assert calls[1].node == av; }
      assert AddedActions(calls) == {fv} by { assert calls[0].action == fv; }
    } else {
      SingleNodeBalanced(av);
    }
  }

  // ----- Event bindings -----

  predicate IsBinding(line: string)
  {
    StartsWith(line, "    On")
  }

  /** The event-binding lines of a script, in order. */
  function EventBindings(lines: seq<string>): (r: seq<string>)
    ensures |r| <= |lines|
  {
    if |lines| == 0 then []
    else (if IsBinding(lines[0]) then [lines[0]] else []) + EventBindings(lines[1..])
  }

  lemma {:induction false} EventBindingsAppend(a: seq<string>, b: seq<string>)
    ensures EventBindings(a + b) == EventBindings(a) + EventBindings(b)
  {
    if |a| > 0 {
      assert (a + b)[0] == a[0] && (a + b)[1..] == a[1..] + b;
      EventBindingsAppend(a[1..], b);
    } else {
      assert a + b == b;
    }
  }

  /** Lines none of which has `O` after four leading spaces bind no event. */
  lemma {:induction false} NoBindingsByHeads(lines: seq<string>)
    requires forall i | 0 <= i < |lines| :: |lines[i]| < 6 || lines[i][0] != ' ' || lines[i][4] != 'O'
    ensures EventBindings(lines) == []
  {
    if |lines| > 0 {
      var l := lines[0];
      if |l| >= 6 {
        if l[0] != ' ' {
          DiffersAt(l, "    On", 0);
        } else {
          DiffersAt(l, "    On", 4);
        }
      }
      NoBindingsByHeads(lines[1..]);
    }
  }

  lemma BindingLineBinds(event: string, fv: string)
    ensures IsBinding(BindingLine(event, fv))
  {
    PrefixOfConcat("    On", event + " = { \"" + fv, "\" },");
    assert BindingLine(event, fv) == "    On" + (event + " = { \"" + fv) + "\" },";
  }

  lemma BindingsBind(fv: string)
    ensures EventBindings(Bindings(fv)) == Bindings(fv)
  {
    BindingLineBinds("Approach", fv);
    BindingLineBinds("Reach", fv);
    BindingLineBinds("Recede", fv);
    BindingLineBinds("Exit", fv);
    AllBindings(Bindings(fv));
  }

  lemma {:induction false} AllBindings(lines: seq<string>)
    requires forall i | 0 <= i < |lines| :: IsBinding(lines[i])
    ensures EventBindings(lines) == lines
  {
    if |lines| > 0 {
      AllBindings(lines[1..]);
      assert [lines[0]] + lines[1..] == lines;
    }
  }

  lemma TrailerBindsNothing(av: string, fv: string, fading: bool)
    ensures EventBindings(Trailer(InitLines(av, fv, fading), DeinitLines(av, fv, fading), av)) == []
  {
    NoBindingsByHeads(Trailer(InitLines(av, fv, fading), DeinitLines(av, fv, fading), av));
  }

  /** The script binds the four camera events to the fade action for a truthy fade
      target, and binds no event otherwise. */
  lemma AssetBindings(base: string, c: Triple, fade: Option<string>, str: Num -> string)
    ensures EventBindings(Asset(base, c, fade, str))
         == if Truthy(fade) then Bindings(FadeVariable(base, fade.value)) else []
  {
    var av := AnchorVariable(base);
    var fv := FadeName(base, fade);
    var trailer := Trailer(InitLines(av, fv, Truthy(fade)), DeinitLines(av, fv, Truthy(fade)), av);
    TrailerBindsNothing(av, fv, Truthy(fade));
    EventBindingsAppend(Declarations(base, c, fade, str), trailer);
    if Truthy(fade) {
      FadingBindings(base, fade.value, c, str);
    } else {
      StillBindings(base, c, str);
    }
  }

  lemma PreludeBindsNothing()
    ensures EventBindings(Prelude()) == []
  {
    NoBindingsByHeads(Prelude());
  }

  lemma TransformBindsNothing(av: string, c: Triple, str: Num -> string)
    ensures EventBindings(Transform(av, c, str)) == []
  {
    NoBindingsByHeads(Transform(av, c, str));
  }

  lemma ApproachBindsNothing()
    ensures EventBindings(Approach()) == []
  {
    NoBindingsByHeads(Approach());
  }

  lemma GuiBindsNothing(av: string)
    ensures EventBindings(Gui(av)) == []
  {
    NoBindingsByHeads(Gui(av));
  }

  lemma FadeActionBindsNothing(base: string, target: string)
    ensures EventBindings(FadeAction(base, target)) == []
  {
    NoBindingsByHeads(FadeAction(base, target));
  }

  lemma SectionsBindNothing(av: string, c: Triple, str: Num -> string)
    ensures EventBindings(Prelude()) == [] && EventBindings(Transform(av, c, str)) == []
    ensures EventBindings(Approach()) == [] && EventBindings(Gui(av)) == []
  {
    PreludeBindsNothing();
    TransformBindsNothing(av, c, str);
    ApproachBindsNothing();
    GuiBindsNothing(av);
  }

  lemma FadingBindings(base: string, target: string, c: Triple, str: Num -> string)
    requires target != ""
    ensures EventBindings(Declarations(base, c, Some(target), str)) == Bindings(FadeVariable(base, target))
  {
    var av := AnchorVariable(base);
    var fv := FadeVariable(base, target);
    SectionsBindNothing(av, c, str);
    FadeActionBindsNothing(base, target);
    BindingsBind(fv);
    var p1 := Prelude() + FadeAction(base, target);
    var p2 := p1 + Transform(av, c, str);
    var p3 := p2 + Approach();
    EventBindingsAppend(Prelude(), FadeAction(base, target));
    EventBindingsAppend(p1, Transform(av, c, str));
    EventBindingsAppend(p2, Approach());
    EventBindingsAppend(p3, Bindings(fv));
    EventBindingsAppend(p3 + Bindings(fv), Gui(av));
  }

  lemma StillBindings(base: string, c: Triple, str: Num -> string)
    ensures forall fade | !Truthy(fade) :: EventBindings(Declarations(base, c, fade, str)) == []
  {
    var av := AnchorVariable(base);
    SectionsBindNothing(av, c, str);
    var p1 := Prelude() + Transform(av, c, str);
    EventBindingsAppend(Prelude(), Transform(av, c, str));
    EventBindingsAppend(p1, Approach());
    EventBindingsAppend(p1 + Approach(), Gui(av));
  }

  /** The translation is the centroid scaled by `meters_to_pc`, which the first line
      declares as metres per parsec. */
  lemma AssetPosition(base: string, c: Triple, fade: Option<string>, str: Num -> string)
    ensures var lines := Asset(base, c, fade, str);
      var at := if Truthy(fade) then 2 + 15 else 2;
      && lines[0] == "local meters_to_pc = " + MetersToPc
      && lines[at + 6..at + 9] ==
           [ "                " + str(c.x) + " * meters_to_pc,",
             "                " + str(c.y) + " * meters_to_pc,",
             "                " + str(c.z) + " * meters_to_pc" ]
  {
    var t := Transform(AnchorVariable(base), c, str);
    var d := Declarations(base, c, fade, str);
    var lines := Asset(base, c, fade, str);
    var at := if Truthy(fade) then 2 + 15 else 2;
    DeclaredTransform(base, c, fade, str);
    AssetBeginsWithDeclarations(base, c, fade, str);
    TransformPosition(AnchorVariable(base), c, str);
    assert lines[at + 6..at + 9] == lines[..|d|][at + 6..at + 9];
    assert d[at + 6..at + 9] == d[at..at + 16][6..9];
  }

  lemma AssetBeginsWithDeclarations(base: string, c: Triple, fade: Option<string>, str: Num -> string)
    ensures var d := Declarations(base, c, fade, str);
      |d| <= |Asset(base, c, fade, str)| && Asset(base, c, fade, str)[..|d|] == d
  {
  }

  lemma TransformPosition(av: string, c: Triple, str: Num -> string)
    ensures Transform(av, c, str)[6..9] ==
      [ "                " + str(c.x) + " * meters_to_pc,",
        "                " + str(c.y) + " * meters_to_pc,",
        "                " + str(c.z) + " * meters_to_pc" ]
  {
  }

  lemma DeclaredTransform(base: string, c: Triple, fade: Option<string>, str: Num -> string)
    ensures var d := Declarations(base, c, fade, str);
      var at := if Truthy(fade) then 2 + 15 else 2;
      && |d| >= at + 16 && d[0] == Prelude()[0]
      && d[at..at + 16] == Transform(AnchorVariable(base), c, str)
  {
    var t := Transform(AnchorVariable(base), c, str);
    if Truthy(fade) {
      var head := Prelude() + FadeAction(base, fade.value);
      var d := head + t + Approach() + Bindings(FadeName(base, fade)) + Gui(AnchorVariable(base));
      assert |head| == 17;
      assert d[17..17 + 16] == t;
    } else {
      var d := Prelude() + t + Approach() + Gui(AnchorVariable(base));
      assert d[2..2 + 16] == t;
    }
  }

  /** For a truthy target, the fade action the script declares follows the prelude:
      it names the action `base_fade_target` and fades `Scene.target`. */
  lemma AssetFadeAction(base: string, c: Triple, fade: Option<string>, str: Num -> string)
    requires Truthy(fade)
    ensures Asset(base, c, fade, str)[2..17] == FadeAction(base, fade.value)
  {
    var lines := Asset(base, c, fade, str);
    assert lines[..17] == Prelude() + FadeAction(base, fade.value);
  }

  /** The line that opens the fade action's Lua command. */
  const CommandLine: string := "    Command = [["

  /** The script declares a Lua command, the fade action's, exactly when the fade target
      is truthy: without one there is no action block at all. */
  lemma AssetCommands(base: string, c: Triple, fade: Option<string>, str: Num -> string)
    ensures CommandLine in Asset(base, c, fade, str) <==> Truthy(fade)
  {
    var lines := Asset(base, c, fade, str);
    if Truthy(fade) {
      AssetFadeAction(base, c, fade, str);
      assert lines[5] == FadeAction(base, fade.value)[3];
    } else {
      var av := AnchorVariable(base);
      var fv := FadeName(base, fade);
      var d := Declarations(base, c, fade, str);
      PreludeRunsNothing();
      TransformRunsNothing(av, c, str);
      ApproachRunsNothing();
      GuiRunsNothing(av);
      assert d == Prelude() + Transform(av, c, str) + Approach() + Gui(av);
      TrailerRunsNothing(av, fv);
    }
  }

  lemma PreludeRunsNothing()
    ensures CommandLine !in Prelude()
  {
  }

  /** Lines that are at most four characters long, or differ from `CommandLine` at index 4, hold no command. */
  lemma NoCommandByHeads(lines: seq<string>)
    requires forall i | 0 <= i < |lines| :: |lines[i]| <= 4 || lines[i][4] != 'C'
    ensures CommandLine !in lines
  {
    assert |CommandLine| > 4 && CommandLine[4] == 'C';
  }

  lemma TransformRunsNothing(av: string, c: Triple, str: Num -> string)
    ensures CommandLine !in Transform(av, c, str)
  {
    NoCommandByHeads(Transform(av, c, str));
  }

  lemma ApproachRunsNothing()
    ensures CommandLine !in Approach()
  {
  }

  lemma GuiRunsNothing(av: string)
    ensures CommandLine !in Gui(av)
  {
  }

  lemma TrailerRunsNothing(av: string, fv: string)
    ensures CommandLine !in Trailer(InitLines(av, fv, false), DeinitLines(av, fv, false), av)
  {
    NoCommandByHeads(Trailer(InitLines(av, fv, false), DeinitLines(av, fv, false), av));
  }
}
