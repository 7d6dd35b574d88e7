/**
 * `AnimateArtTask`: the loader task for an art's generated script.  Once
 * the script is loaded it builds the `AnimateArt`, turns the art's merged
 * asset list into one sub-asset request per entry (classified by the
 * entry's file suffix), and once those are loaded adds them to the art.
 * Each load is modelled as an input to the step that follows it.
 */
module ArtTask {
  import opened JsValues
  import opened JsStrings
  import opened Handles
  import opened SymbolTables
  import opened Art
  import opened ArtScan
  import JsonTask
  import ShapesTask

  const ArtFormat := "springroll.pixi.animate.AnimateArt"
  const DefaultLibName := "lib"

  /** `AnimateArtTask.test(asset)`: a truthy `src` matched by `/\.js$/i`, type and format exact. */
  predicate Test(asset: AssetDescriptor)
  {
    && HasSource(asset)
    && MatchesSuffixPattern(asset.src.value, [".js"], true)
    && asset.assetType == Some(PixiType)
    && asset.format == Some(ArtFormat)
  }

  /** The test accepts exactly a non-empty `src` ending in `.js` in any letter case, with type `"pixi"` and the art format. */
  lemma TestMeaning(asset: AssetDescriptor)
    ensures Test(asset) <==>
              && asset.src.Some? && asset.src.value != ""
              && EndsWithText(asset.src.value, ".js", true)
              && asset.assetType == Some(PixiType) && asset.format == Some(ArtFormat)
  {
    if HasSource(asset) {
      SingleSuffixPattern(asset.src.value, ".js", true);
    }
  }

  /** The kinds of asset-list entries, by the suffix of their url. */
  datatype UrlKind = ImageUrl | SheetOrShapesUrl | ShapesUrl | UnknownUrl

  /** The alternatives of `/\.(png|jpg|jpeg|webp)$/`, each written with its escaped dot. */
  const ImageSuffixes := [".png", ".jpg", ".jpeg", ".webp"]

  /**
   * The first of the (case-sensitive) tests that matches: an image, then
   * `.json`, then `.txt`.
   */
  function Classify(url: string): UrlKind
  {
    if MatchesSuffixPattern(url, ImageSuffixes, false) then ImageUrl
    else if MatchesSuffixPattern(url, [".json"], false) then SheetOrShapesUrl
    else if MatchesSuffixPattern(url, [".txt"], false) then ShapesUrl
    else UnknownUrl
  }

  /** Each kind is decided by the exact suffix of the url, the earlier tests taking precedence. */
  lemma ClassifyMeaning(url: string)
    ensures Classify(url) == ImageUrl <==>
              EndsWith(url, ".png") || EndsWith(url, ".jpg") || EndsWith(url, ".jpeg") || EndsWith(url, ".webp")
    ensures Classify(url) == SheetOrShapesUrl <==> Classify(url) != ImageUrl && EndsWith(url, ".json")
    ensures Classify(url) == ShapesUrl <==>
              Classify(url) != ImageUrl && !EndsWith(url, ".json") && EndsWith(url, ".txt")
  {
    SuffixPatternMeaning(url, ImageSuffixes, false);
    var alts := ImageSuffixes;
    var rest1, rest2, rest3 := alts[1..], alts[1..][1..], alts[1..][1..][1..];
    assert rest1 == [".jpg", ".jpeg", ".webp"] && rest2 == [".jpeg", ".webp"] && rest3 == [".webp"];
    assert rest3[1..] == [];
    assert AnySuffix(url, rest3, false) <==> EndsWithText(url, ".webp", false);
    assert AnySuffix(url, rest2, false) <==> EndsWithText(url, ".jpeg", false) || AnySuffix(url, rest3, false);
    assert AnySuffix(url, rest1, false) <==> EndsWithText(url, ".jpg", false) || AnySuffix(url, rest2, false);
    assert AnySuffix(url, alts, false) <==> EndsWithText(url, ".png", false) || AnySuffix(url, rest1, false);
    EndsWithTextExact(url, ".png");
    EndsWithTextExact(url, ".jpg");
    EndsWithTextExact(url, ".jpeg");
    EndsWithTextExact(url, ".webp");
    SingleSuffixPattern(url, ".json", false);
    EndsWithTextExact(url, ".json");
    SingleSuffixPattern(url, ".txt", false);
    EndsWithTextExact(url, ".txt");
  }

  /**
   * The request for asset-list entry `id` with url `url`: always the id
   * and type `"pixi"`; the image url for an image, the source url and the
   * matching format for `.json` and `.txt`, and nothing more otherwise.
   */
  function SubAssetRequest(id: string, baseUrl: string, url: string): (r: AssetDescriptor)
    ensures r.id == id && r.assetType == Some(PixiType) && r.stageIds == None && !r.suppress
  {
    var bare := AssetDescriptor(id, Some(PixiType), None, None, None, None, false);
    match Classify(url)
    case ImageUrl => bare.(image := Some(baseUrl + url))
    case SheetOrShapesUrl => bare.(src := Some(baseUrl + url), format := Some(JsonTask.JsonFormat))
    case ShapesUrl => bare.(src := Some(baseUrl + url), format := Some(ShapesTask.ShapesFormat))
    case UnknownUrl => bare
  }

  /**
   * The requests are routed to the intended tasks: a `.json` entry to
   * `JSONTask`, a `.txt` entry to `ShapesTask`; an image entry or an entry
   * with an unknown suffix is taken by none of the three art tasks.
   */
  lemma RequestsReachTheirTasks(id: string, baseUrl: string, url: string)
    ensures var r := SubAssetRequest(id, baseUrl, url);
            && (Classify(url) == SheetOrShapesUrl ==> JsonTask.Test(r) && !ShapesTask.Test(r) && !Test(r))
            && (Classify(url) == ShapesUrl ==> ShapesTask.Test(r) && !JsonTask.Test(r) && !Test(r))
            && (Classify(url) in {ImageUrl, UnknownUrl} ==> !JsonTask.Test(r) && !ShapesTask.Test(r) && !Test(r))
  {
    var r := SubAssetRequest(id, baseUrl, url);
    ClassifyMeaning(url);
    if Classify(url) == SheetOrShapesUrl {
      EndsWithTextExact(url, ".json");
      EndsWithAfterPrefix(baseUrl, url, ".json", false);
      ExactSuffixIgnoringCase(baseUrl + url, ".json");
      JsonTask.TestMeaning(r);
    } else if Classify(url) == ShapesUrl {
      EndsWithTextExact(url, ".txt");
      EndsWithAfterPrefix(baseUrl, url, ".txt", false);
      ExactSuffixIgnoringCase(baseUrl + url, ".txt");
      ShapesTask.TestMeaning(r);
    }
  }

  /**
   * `requests` holds exactly one request per entry of `assetList`: each is
   * the request of an entry, carrying its key as id; no two carry the same
   * id; every key has one.
   */
  ghost predicate RequestsFor(requests: seq<AssetDescriptor>, assetList: map<string, string>, baseUrl: string)
  {
    && |requests| == |assetList|
    && (forall i :: 0 <= i < |requests| ==>
          requests[i].id in assetList && requests[i] == SubAssetRequest(requests[i].id, baseUrl, assetList[requests[i].id]))
    && (forall i, j :: 0 <= i < j < |requests| ==> requests[i].id != requests[j].id)
    && (forall k :: k in assetList ==> exists i :: 0 <= i < |requests| && requests[i].id == k)
  }

  /**
   * The loop of `start` over the asset list: one request per entry, pushed
   * in the map's enumeration order, which is left open.  The source reads
   * `assetList[url]` with `url` not yet defined; the evident
   * `assetList[id]` is modelled.
   */
  method BuildRequests(assetList: map<string, string>, baseUrl: string) returns (requests: seq<AssetDescriptor>)
    ensures RequestsFor(requests, assetList, baseUrl)
  {
    requests := [];
    var keys := assetList.Keys;
    while keys != {}
      invariant keys <= assetList.Keys
      invariant |requests| + |keys| == |assetList|
      invariant forall i :: 0 <= i < |requests| ==>
                  && requests[i].id in assetList && requests[i].id !in keys
                  && requests[i] == SubAssetRequest(requests[i].id, baseUrl, assetList[requests[i].id])
      invariant forall i, j :: 0 <= i < j < |requests| ==> requests[i].id != requests[j].id
      invariant forall k :: k in assetList && k !in keys ==> exists i :: 0 <= i < |requests| && requests[i].id == k
      decreases keys
    {
      var id :| id in keys;
      var url := assetList[id];
      ghost var before := requests;
      requests := requests + [SubAssetRequest(id, baseUrl, url)];
      keys := keys - {id};
      forall k | k in assetList && k !in keys
        ensures exists i :: 0 <= i < |requests| && requests[i].id == k
      {
        if k == id {
          assert requests[|before|].id == k;
        } else {
          var i :| 0 <= i < |before| && before[i].id == k;
          assert requests[i] == before[i];
        }
      }
    }
  }

  class AnimateArtTask {
    const id: string
    /** The script's path (the loader's `filter` hook is not part of this model). */
    const src: Option<string>
    const libName: string := DefaultLibName
    const stageIds: seq<string>
    const suppressWarnings: bool

    /**
     * The task for an art descriptor: the library name is always `"lib"`,
     * the stages default to the asset id alone, and warnings are suppressed
     * when `asset.suppress` is truthy.
     */
    constructor (asset: AssetDescriptor)
      ensures id == asset.id && src == asset.src && libName == DefaultLibName
      ensures stageIds == if asset.stageIds.Some? then asset.stageIds.value else [asset.id]
      ensures suppressWarnings == asset.suppress
    {
      id := asset.id;
      src := asset.src;
      stageIds := if asset.stageIds.Some? then asset.stageIds.value else [asset.id];
      suppressWarnings := asset.suppress;
    }

    /**
     * The script load callback of `start`: builds the art over the loaded
     * script element (recording its symbols in the registry) and the
     * requests for its stages' sub-assets, relative to the script's
     * directory.  When building the art throws, so does the callback: no
     * art (`null`) and no request, with the names recorded before the throw
     * left in the registry.
     */
    method OnScriptLoaded(script: ScriptElement, registry: Registry)
      returns (art: AnimateArt?, requests: seq<AssetDescriptor>)
      requires src.Some?
      modifies registry`owners, registry`warnings
      ensures art == null <==> ScriptOutcome(script.text) == SyntaxError
      ensures var t := AssignAll(Tables([], old(registry.owners), old(registry.warnings)),
                                 ScriptNames(script.text), id, registry.debugLogging && !suppressWarnings);
              && registry.owners == t.owners && registry.warnings == t.warnings
              && (art != null ==>
                    && fresh(art) && art.id == id && art.dom == script && art.registry == registry
                    && art.libName == DefaultLibName && art.symbols == t.symbols && art.assets == [])
      ensures art == null ==> requests == []
      ensures art != null ==> RequestsFor(requests, MergeStages(registry.lib, stageIds), BaseUrl(src.value))
    {
      var outcome;
      art, outcome := AnimateArt.Create(id, script, libName, suppressWarnings, registry);
      if art == null {
        return art, [];
      }
      var assetList := art.GetAssetList(stageIds);
      var baseUrl := BaseUrl(src.value);
      requests := BuildRequests(assetList, baseUrl);
    }

    /**
     * The sub-asset load callback of `start`: every loaded result is
     * appended to the art's assets, in the order the results are listed,
     * before the art is handed back.
     */
    method OnSubAssetsLoaded(art: AnimateArt, results: seq<SubAsset>) returns (done: AnimateArt)
      modifies art`assets
      ensures done == art && art.assets == old(art.assets) + results
    {
      var i := 0;
      while i < |results|
        invariant 0 <= i <= |results|
        invariant art.assets == old(art.assets) + results[..i]
      {
        art.assets := art.assets + [results[i]];
        i := i + 1;
      }
      assert results[..|results|] == results;
      done := art;
    }
  }
}
