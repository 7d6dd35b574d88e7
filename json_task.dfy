/**
 * `JSONTask`: the loader task for a JSON file that is either a sprite
 * sheet exported by Animate (then its image is loaded too and a parsed
 * sprite sheet is handed back) or vector shape data (handed back as a
 * Shapes, as `ShapesTask` does).  Each load is modelled as an input to the
 * step that follows it.
 */
module JsonTask {
  import opened JsValues
  import opened JsStrings
  import opened Handles
  import ShapesTask

  const JsonFormat := "springroll.pixi.animate.JSONAsset"

  /** `JSONTask.test(asset)`: a truthy `src` matched by `/\.json$/i`, type and format exact. */
  predicate Test(asset: AssetDescriptor)
  {
    && HasSource(asset)
    && MatchesSuffixPattern(asset.src.value, [".json"], true)
    && asset.assetType == Some(PixiType)
    && asset.format == Some(JsonFormat)
  }

  /** The test accepts exactly a non-empty `src` ending in `.json` in any letter case, with type `"pixi"` and the JSON format. */
  lemma TestMeaning(asset: AssetDescriptor)
    ensures Test(asset) <==>
              && asset.src.Some? && asset.src.value != ""
              && EndsWithText(asset.src.value, ".json", true)
              && asset.assetType == Some(PixiType) && asset.format == Some(JsonFormat)
  {
    if HasSource(asset) {
      SingleSuffixPattern(asset.src.value, ".json", true);
    }
  }

  /** A request the task sends the loader for the sheet's image: `{image, type}`. */
  datatype ImageRequest = ImageRequest(image: string, assetType: string)

  /**
   * What the task does once the JSON is loaded: load the sheet's image,
   * finish with a result, or throw (reading `frames` of `null`).
   */
  datatype Step = LoadImage(request: ImageRequest) | Done(result: SubAsset) | Throws

  /** `data.frames && data.meta && data.meta.image`, read on a value that is not `null`. */
  predicate IsSheetData(data: JsonValue)
    requires !data.JNull?
  {
    && TruthyProp(Prop(data, "frames"))
    && TruthyProp(Prop(data, "meta"))
    && TruthyProp(Prop(Prop(data, "meta").value, "image"))
  }

  /**
   * The load callback of `start`: sprite-sheet data asks for its image
   * next to the JSON file (the directory part of `src` with the image
   * name appended); anything else is taken to be vector art.
   */
  function OnDataLoaded(id: string, src: string, data: JsonValue): Step
  {
    if data.JNull? then Throws
    else if IsSheetData(data) then
      var image := Prop(Prop(data, "meta").value, "image").value;
      LoadImage(ImageRequest(BaseUrl(src) + ToText(image), PixiType))
    else Done(ShapesTask.Start(AssetDescriptor(id, None, Some(src), None, None, None, false), JsonPayload(data)))
  }

  /**
   * The sprite-sheet route is taken exactly when `frames` is a truthy
   * member, `meta` is an object member (nothing else has an `image`
   * member), and `meta.image` is truthy; only `null` data throws.
   */
  lemma RouteMeaning(id: string, src: string, data: JsonValue)
    ensures OnDataLoaded(id, src, data).Throws? <==> data.JNull?
    ensures OnDataLoaded(id, src, data).LoadImage? <==>
              && data.JObj?
              && "frames" in data.fields && Truthy(data.fields["frames"])
              && "meta" in data.fields && data.fields["meta"].JObj?
              && "image" in data.fields["meta"].fields && Truthy(data.fields["meta"].fields["image"])
  {
  }

  /**
   * The image request: type `"pixi"`, and the image name appended to the
   * part of `src` up to and including its last `/` (nothing when `src` has
   * no `/`).
   */
  lemma ImageRequestShape(id: string, src: string, data: JsonValue)
    requires !data.JNull? && IsSheetData(data)
    ensures OnDataLoaded(id, src, data).LoadImage?
    ensures var r := OnDataLoaded(id, src, data).request;
            var dir := BaseUrl(src);
            var name := ToText(data.fields["meta"].fields["image"]);
            && r.assetType == PixiType
            && r.image == dir + name
            && dir == src[..|dir|]
            && (dir == [] <==> '/' !in src)
            && '/' !in src[|dir|..]
  {
    RouteMeaning(id, src, data);
  }

  /** An empty image name is falsy: such data is vector art, even with `frames` and `meta`. */
  lemma EmptyImageIsShapes(id: string, src: string, data: JsonValue)
    requires data.JObj? && "meta" in data.fields && data.fields["meta"].JObj?
    requires "image" in data.fields["meta"].fields && data.fields["meta"].fields["image"] == JStr("")
    ensures OnDataLoaded(id, src, data).Done?
  {
    RouteMeaning(id, src, data);
  }

  /**
   * The vector-art route yields what `ShapesTask` yields for the same
   * asset and data: a Shapes keyed by the task id, data unchanged.
   */
  lemma ShapesRouteIsShapesTask(asset: AssetDescriptor, data: JsonValue)
    requires asset.src.Some? && OnDataLoaded(asset.id, asset.src.value, data).Done?
    ensures OnDataLoaded(asset.id, asset.src.value, data).result == ShapesTask.Start(asset, JsonPayload(data))
    ensures OnDataLoaded(asset.id, asset.src.value, data).result == ShapesAsset(asset.id, JsonPayload(data))
  {
  }

  /**
   * The image load callback: the sprite sheet is made over the loaded
   * texture's base texture, the texture itself is destroyed, and the sheet
   * is handed back only once it is parsed.
   */
  method OnTextureLoaded(texture: Texture, data: JsonValue) returns (result: SubAsset)
    modifies texture
    ensures texture.destroyed
    ensures result.SpritesheetAsset? && fresh(result.sheet)
    ensures result.sheet.baseTexture == texture.baseTexture && result.sheet.data == data && result.sheet.parsed
  {
    var sheet := new Spritesheet(texture.baseTexture, data);
    texture.Destroy();
    sheet.Parse();
    result := SpritesheetAsset(sheet);
  }
}
