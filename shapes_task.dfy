/**
 * `ShapesTask`: the loader task for a text or JSON file of vector shape
 * data, which it hands back wrapped as a Shapes sub-asset.
 */
module ShapesTask {
  import opened JsValues
  import opened JsStrings
  import opened Handles

  const ShapesFormat := "springroll.pixi.animate.Shapes"

  /**
   * The alternatives of `/\.(txt|json)$/i`, written with the escaped dot
   * in front of each (the same language).
   */
  const ShapesSuffixes := [".txt", ".json"]

  /** `ShapesTask.test(asset)`: a truthy `src` the case-insensitive pattern finds a match in, type and format exact. */
  predicate Test(asset: AssetDescriptor)
  {
    && HasSource(asset)
    && MatchesSuffixPattern(asset.src.value, ShapesSuffixes, true)
    && asset.assetType == Some(PixiType)
    && asset.format == Some(ShapesFormat)
  }

  /**
   * The test accepts exactly a non-empty `src` ending in `.txt` or `.json`
   * in any letter case, with type `"pixi"` and the Shapes format; a missing
   * or empty `src` is rejected.
   */
  lemma TestMeaning(asset: AssetDescriptor)
    ensures Test(asset) <==>
              && asset.src.Some? && asset.src.value != ""
              && (EndsWithText(asset.src.value, ".txt", true) || EndsWithText(asset.src.value, ".json", true))
              && asset.assetType == Some(PixiType) && asset.format == Some(ShapesFormat)
  {
    if HasSource(asset) {
      var src := asset.src.value;
      SuffixPatternMeaning(src, ShapesSuffixes, true);
      assert ShapesSuffixes[1..] == [".json"];
      assert AnySuffix(src, [".json"], true) <==> EndsWithText(src, ".json", true) by {
        assert [".json"][1..] == [];
      }
    }
  }

  /**
   * `start`: whatever the file held, the result is a Shapes keyed by the
   * task's asset id carrying the data unexamined.
   */
  function Start(asset: AssetDescriptor, data: Payload): (r: SubAsset)
    ensures r.ShapesAsset? && r.id == asset.id && r.data == data
  {
    ShapesAsset(asset.id, data)
  }
}
