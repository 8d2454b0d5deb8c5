/** `make_stars_asset_from_dataframe`: the asset script that loads a speck file
    into a `RenderableStars` node placed at the dataset's centroid. */
module StarsAsset {
  import opened Values
  import opened AssetScript
  import opened OutputNames

  /** The rendering parameters the dataset row gives a stars node. */
  datatype StarsParams = StarsParams(
    magnitudeExponent: Cell,
    coreMultiplier: Cell, coreGamma: Cell, coreScale: Cell,
    glareMultiplier: Cell, glareGamma: Cell, glareScale: Cell)

  /** The resources the asset declares: the three synchronised ones every stars asset
      shares, then the speck file of the same base. */
  function Resources(base: string): seq<string>
  {
    [ "local sunspeck = asset.resource({",
      "  Name = \"Stars Speck Files\",",
      "  Type = \"HttpSynchronization\",",
      "  Identifier = " + "\"digitaluniverse_sunstar_speck\",",
      "  Version = 1",
      "})",
      "",
      "local colormaps = asset.resource({",
      "  Name = \"Stars Color Table\",",
      "  Type = \"HttpSynchronization\",",
      "  Identifier = \"stars_colormap\",",
      "  Version = 3",
      "})",
      "",
      "local textures = asset.resource({",
      "  Name = \"Stars Textures\",",
      "  Type = \"HttpSynchronization\",",
      "  Identifier = \"stars_textures\",",
      "  Version = 1",
      "})",
      "",
      SpeckResource(base) ]
  }

  /** The resource line that names the speck file of the same base. */
  function SpeckResource(base: string): string
  {
    "local " + base + "_speck = asset.resource(\"" + SpeckFileName(base) + "\")"
  }

  /** The node's translation: the raw centroid. */
  function Placement(base: string, c: Triple, str: Num -> string): seq<string>
  {
    [ "",
      "local " + base + " = {",
      "  Identifier = \"" + base + "\",",
      "  Transform = {",
      "    Translation = {",
      "      Type = \"StaticTranslation\",",
      "      Position = {",
      "        " + str(c.x) + ",",
      "        " + str(c.y) + ",",
      "        " + str(c.z) + ",",
      "      }",
      "    },",
      "   },"]
  }

  /** The renderable's file and its core and glare textures with their parameters verbatim. */
  function Textures(base: string, p: StarsParams, str: Num -> string): seq<string>
  {
    [ "  Renderable = {",
      "    UseCaching = false,",
      "    Type = \"RenderableStars\",",
      "    File = " + base + "_speck,",
      "    Core = {",
      "      Texture = " + "textures .. \"glare.png\",",
      "      Multiplier = " + Show(str, p.coreMultiplier) + ",",
      "      Gamma = " + Show(str, p.coreGamma) + ",",
      "      Scale = " + Show(str, p.coreScale),
      "    },",
      "    Glare = {",
      "      Texture = " + "textures .. \"halo.png\",",
      "      Multiplier = " + Show(str, p.glareMultiplier) + ",",
      "      Gamma = " + Show(str, p.glareGamma) + ",",
      "      Scale = " + Show(str, p.glareScale),
      "    },"]
  }

  /** The rest of the renderable: magnitude exponent, colour maps, data mapping; then the GUI entry. */
  function Mapping(base: string, p: StarsParams, str: Num -> string): seq<string>
  {
    [ "    MagnitudeExponent = " + Show(str, p.magnitudeExponent) + ",",
      "    ColorMap = " + "colormaps .. \"colorbv.cmap\",",
      "    OtherDataColorMap = " + "colormaps .. \"viridis.cmap\",",
      "    SizeComposition = " + "\"Distance Modulus\",",
      "    DataMapping = {",
      "      Bv = \"colorb_v\",",
      "      Luminance = \"lum\",",
      "      AbsoluteMagnitude = \"absmag\",",
      "      ApparentMagnitude = \"appmag\",",
      "      Vx = \"vx\",",
      "      Vy = \"vy\",",
      "      Vz = \"vz\",",
      "      Speed = \"speed\"",
      "    },",
      "    DimInAtmosphere = true",
      "  },",
      "  GUI = {",
      "    Name = \"" + base + "\",",
      "    Path = \"/Stars\",",
      "  }",
      "}" ]
  }

  /** The node: placed at the raw centroid, the parameters verbatim. */
  function Node(base: string, c: Triple, p: StarsParams, str: Num -> string): seq<string>
  {
    Placement(base, c, str) + Textures(base, p, str) + Mapping(base, p, str)
  }

  lemma ResourcesArePlain(base: string)
    ensures Plain(Resources(base))
  {
    PlainByHeads(Resources(base));
  }

  lemma PlacementIsPlain(base: string, c: Triple, str: Num -> string)
    ensures Plain(Placement(base, c, str))
  {
    PlainByHeads(Placement(base, c, str));
  }

  lemma TexturesArePlain(base: string, p: StarsParams, str: Num -> string)
    ensures Plain(Textures(base, p, str))
  {
    PlainByHeads(Textures(base, p, str));
  }

  lemma MappingIsPlain(base: string, p: StarsParams, str: Num -> string)
    ensures Plain(Mapping(base, p, str))
  {
    PlainByHeads(Mapping(base, p, str));
  }

  lemma NodeIsPlain(base: string, c: Triple, p: StarsParams, str: Num -> string)
    ensures Plain(Node(base, c, p, str))
  {
    PlacementIsPlain(base, c, str);
    TexturesArePlain(base, p, str);
    MappingIsPlain(base, p, str);
    PlainAppend(Placement(base, c, str), Textures(base, p, str));
    PlainAppend(Placement(base, c, str) + Textures(base, p, str), Mapping(base, p, str));
  }

  /** The whole script `base.asset`. */
  function Asset(base: string, c: Triple, p: StarsParams, str: Num -> string): seq<string>
  {
    Resources(base) + Node(base, c, p, str) + Hooks(base)
  }

  /** The two hooks and the export. */
  function Hooks(base: string): seq<string>
  {
    Trailer([CallLine("  ", AddCallee, base, false)], [CallLine("  ", RemoveCallee, base, false)], base)
  }

  /** Read back, the script adds the node `base` when loaded, removes it when
      unloaded, and exports it. */
  lemma AssetParses(base: string, c: Triple, p: StarsParams, str: Num -> string)
    ensures Parse(Asset(base, c, p, str)) == Some(SingleNode(base))
  {
    var init := [CallLine("  ", AddCallee, base, false)];
    var deinit := [CallLine("  ", RemoveCallee, base, false)];
    ResourcesArePlain(base);
    NodeIsPlain(base, c, p, str);
    PlainAppend(Resources(base), Node(base, c, p, str));
    ParseAddLine("  ", base, false);
    ParseRemoveLine("  ", base, false);
    ParseCallsOf(init, [AddNode(base)]);
    ParseCallsOf(deinit, [RemoveNode(base)]);
    ParseScript(Resources(base) + Node(base, c, p, str), init, deinit, [AddNode(base)], [RemoveNode(base)], base);
  }

  /** The node reads the speck file `make_stars_speck_from_dataframe` writes for the same base. */
  lemma AssetLoadsSpeck(base: string, c: Triple, p: StarsParams, str: Num -> string)
    ensures "local " + base + "_speck = asset.resource(\"" + SpeckFileName(base) + "\")" in Asset(base, c, p, str)
    ensures "    File = " + base + "_speck," in Asset(base, c, p, str)
  {
    var lines := Asset(base, c, p, str);
    var node := Node(base, c, p, str);
    assert lines[21] == Resources(base)[21] == SpeckResource(base);
    assert lines[22..22 + |node|] == node;
    assert node[|Placement(base, c, str)| + 3] == Textures(base, p, str)[3];
    assert lines[22 + |Placement(base, c, str)| + 3] == "    File = " + base + "_speck,";
  }

  /** The translation is the centroid as it is, with no unit conversion. */
  lemma AssetPosition(base: string, c: Triple, p: StarsParams, str: Num -> string)
    ensures var lines := Asset(base, c, p, str);
      lines[29..32] == ["        " + str(c.x) + ",", "        " + str(c.y) + ",", "        " + str(c.z) + ","]
  {
    var lines := Asset(base, c, p, str);
    assert lines[22..22 + |Placement(base, c, str)|] == Placement(base, c, str);
  }
}
