/** The names of the files the serialisers write, each the dataset's base name
    plus a fixed suffix. */
module OutputNames {

  function SpeckFileName(base: string): string { base + ".speck" }

  function StarsAssetFileName(base: string): string { base + ".asset" }

  function AnchorAssetFileName(base: string): string { base + "_anchor.asset" }

  function LabelFileName(base: string, column: string): string { base + "_" + column + ".label" }

  function LabelAssetFileName(base: string, column: string): string { base + "_" + column + ".asset" }

  /** The Lua variable of the label node. */
  function LabelVariable(base: string, column: string): string { base + "_" + column + "_labels" }

  /** The Lua variable of the anchor node. */
  function AnchorVariable(base: string): string { base + "_anchor" }

  /** The Lua variable of the fade action. */
  function FadeVariable(base: string, target: string): string { base + "_fade_" + target }
}
