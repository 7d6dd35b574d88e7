/**
 * The records and handles the tasks exchange with the external loader:
 * asset descriptors (what a task is asked to load), loaded payloads, and
 * the disposable sub-assets an art keeps.  The loader, the rendering
 * library's textures, sprite sheets and shape cache are outside the model;
 * they appear here as opaque handles whose relevant calls are recorded.
 */
module Handles {
  import opened JsValues

  /** The value format of the asset type for the rendering engine. */
  const PixiType := "pixi"

  /**
   * An asset descriptor as the loader hands it to a task's `test` and
   * constructor: an absent property is `None`; `assetType` is `asset.type`.  `suppress` is the
   * truthiness of `asset.suppress`.
   */
  datatype AssetDescriptor = AssetDescriptor(
    id: string,
    assetType: Option<string>,
    src: Option<string>,
    image: Option<string>,
    format: Option<string>,
    stageIds: Option<seq<string>>,
    suppress: bool)

  /** `asset.src` is present and a non-empty string, i.e. truthy. */
  predicate HasSource(asset: AssetDescriptor)
  {
    asset.src.Some? && asset.src.value != ""
  }

  /** What the loader delivers for a text or a JSON file. */
  datatype Payload = TextPayload(text: string) | JsonPayload(json: JsonValue)

  /** The `<script>` element the art's generated script was loaded through. */
  class ScriptElement {
    const text: string
    var attached: bool

    constructor (text: string)
      ensures this.text == text && attached
    {
      this.text := text;
      attached := true;
    }
  }

  /** The rendering library's decoded bitmap behind a texture. */
  datatype BaseTexture = BaseTexture(url: string)

  /** A loaded texture; `destroyed` records its `destroy()` call. */
  class Texture {
    const baseTexture: BaseTexture
    var destroyed: bool

    constructor (baseTexture: BaseTexture)
      ensures this.baseTexture == baseTexture && !destroyed
    {
      this.baseTexture := baseTexture;
      destroyed := false;
    }

    method Destroy()
      modifies this
      ensures destroyed
    {
      destroyed := true;
    }
  }

  /** A sprite sheet over a base texture; `parsed` records that `parse` completed. */
  class Spritesheet {
    const baseTexture: BaseTexture
    const data: JsonValue
    var parsed: bool

    constructor (baseTexture: BaseTexture, data: JsonValue)
      ensures this.baseTexture == baseTexture && this.data == data && !parsed
    {
      this.baseTexture := baseTexture;
      this.data := data;
      parsed := false;
    }

    method Parse()
      modifies this
      ensures parsed
    {
      parsed := true;
    }
  }

  /**
   * A disposable sub-asset of an art: a loaded image, a Shapes wrapper
   * (an id and the shape data it put in the shape cache), or a sprite sheet.
   */
  datatype SubAsset =
    | ImageAsset(url: string)
    | ShapesAsset(id: string, data: Payload)
    | SpritesheetAsset(sheet: Spritesheet)
}
