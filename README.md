# springroll-pixi-animate core, modelled in Dafny

This project models the glue between the SpringRoll loader and animator and
Pixi Animate exports:

- **`AnimateArt`** (`animate_art.dfy`, with the scanners in `art_scan.dfy` and
  the table arithmetic in `symbols.dfy`). It scrapes a generated script for the
  library symbols it publishes, in three steps:
  - split the script at `(function(` / `!function(`;
  - recover each segment's minified library parameter by position;
  - scan the segment for `(<lib>.<name> =`.

  Each name is recorded in the process-wide owner table `globalSymbols`, and a
  collision warning is logged when the name already has an owner. The class
  also merges the stages' sub-asset tables and tears the art down again. The
  owner table, the library object `window[libName]`, the warning log and the
  record of sub-asset disposals are fields of a `Registry` object passed by
  reference.
- **`MovieClipInstance`** (`movieclip_instance.dfy`). It resolves a frame label
  to a window of frames, using the `_stop` / `_loop` labels or the `"*"`
  wildcard. It derives the animation's times from the clip's frame rate and
  drives the clip's `elapsedTime` cursor. It also provides the two static
  probes `hasAnimation` and `getDuration`.
- **The loader tasks** (`animate_art_task.dfy`, `json_task.dfy`,
  `shapes_task.dfy`). Their `test` predicates decide which task takes an
  asset descriptor. A URL-suffix classification turns an art's asset list into
  sub-asset requests. The JSON task chooses between the sprite-sheet route and
  the vector-shapes route.

Shared pieces:

- `jsstrings.dfy` holds the JavaScript string operations with their ECMAScript
  semantics: `indexOf`, `lastIndexOf`, `substring` (which clamps and swaps its
  arguments), `trim`, `\s`, `\w` and end-anchored suffix search with and
  without the `i` flag.
- `jsvalues.dfy` holds `undefined` as `None`, decoded JSON values, truthiness
  and string conversion.
- `handles.dfy` holds the descriptors and the disposable handles.

Each load is an input to the step that follows it: `OnScriptLoaded`,
`OnSubAssetsLoaded`, `OnDataLoaded` and `OnTextureLoaded`. The `Math.random()`
draw of `beginAnim` is a parameter in [0, 1).

Some references in the source would throw as written. The evident meaning is
modelled, and the code comments say so:

- `FlashArt.globalSymbols` means `AnimateArt.globalSymbols`.
- `GenericMovieClipInstance` means `MovieClipInstance`.
- In the probes, `instance` means `clip` and `label` means `event`.
- In `beginAnim`, `instance` means `this.clip` and `anim` means `label`.
- `assetList[url]` means `assetList[id]`.

## Model

| member | source | states |
|---|---|---|
| JsStrings.IndexOf | src/AnimateArt.js:92 | `indexOf` of a character: -1 exactly when absent, else the first position holding it |
| JsStrings.LastIndexOf | src/AnimateArtTask.js:104 | `lastIndexOf` of a character: -1 exactly when absent, else the last position holding it |
| JsStrings.Clamp | src/AnimateArt.js:92 | a `substring` argument lands in [0, n] and is kept when already inside |
| JsStrings.Substring | src/AnimateArt.js:92 | `substring` returns the slice between its clamped arguments, in either order; a non-positive end takes the prefix up to the clamped start |
| JsStrings.LeadingSpaces | src/AnimateArt.js:92 | counts exactly the leading `\s` run |
| JsStrings.TrailingSpaces | src/AnimateArt.js:92 | counts exactly the trailing `\s` run |
| JsStrings.Trim | src/AnimateArt.js:92-93 | `trim` is empty exactly when the text is all white space, which is when `!libName` holds |
| JsStrings.TrimKeepsMiddle | src/AnimateArt.js:92 | `trim` keeps the contiguous middle, with white space only around it and neither end of it white space |
| JsStrings.SearchFrom | src/ShapesTask.js:40 | `search` of an end-anchored alternation returns a position from which an alternative matches to the end, with no such position between the start of the search and it, or -1 exactly when no position at or after the start has one |
| JsStrings.SuffixPatternMeaning | src/ShapesTask.js:40 | `search(...) > -1` holds exactly when some alternative is a suffix, compared under the flags |
| JsStrings.SingleSuffixPattern | src/JSONTask.js:42 | with one alternative, the pattern is a plain suffix test |
| JsStrings.EndsWithTextExact | src/AnimateArtTask.js:114-123 | without the `i` flag, a suffix match is character-exact |
| JsStrings.EndsWithAfterPrefix | src/AnimateArtTask.js:118-126 | prefixing a base URL keeps the suffix |
| JsStrings.ExactSuffixIgnoringCase | src/JSONTask.js:42 | an exact suffix also matches with the `i` flag |
| JsStrings.BaseUrl | src/AnimateArtTask.js:104 | the base URL is the prefix of `src` up to and including the last `/`, and is empty exactly when there is no `/` |
| ArtScan.SpacesFrom | src/AnimateArt.js:82 | `\s*` consumes the whole white-space run at a position |
| ArtScan.WordsFrom | src/AnimateArt.js:96 | `\w+` consumes the whole word run at a position |
| ArtScan.SeparatorAtMeaning | src/AnimateArt.js:82 | the separator scan at a position returns an end exactly when the text between is `(` or `!`, the keyword `function`, a white-space run and `(` |
| ArtScan.SplitRoundTrip | src/AnimateArt.js:82 | `split` cuts the script at its successive leftmost separator matches: one segment more than there are matches, and the segments rejoined with the matched texts give back the script |
| ArtScan.SplitSegmentsAreSeparatorFree | src/AnimateArt.js:82 | no segment of the split contains the separator pattern |
| ArtScan.SplitWithoutSeparator | src/AnimateArt.js:82 | a script without a separator is one single segment |
| ArtScan.LibParamTextBetween | src/AnimateArt.js:92 | the untrimmed library name is the text between the first `,` and the first `)`; the cases with a missing or earlier `)` follow `substring`'s clamping and swap |
| ArtScan.MatchAtMeaning | src/AnimateArt.js:96 | for a library name without syntax characters, a match at a position with a given end and capture is found exactly when the text there is `(`, the name, any character but a line terminator, the captured word run, white space and `=`; the capture is the whole word run |
| ArtScan.Exec | src/AnimateArt.js:96-97 | `exec` from `lastIndex` returns the leftmost match at or after it, and fails only when no match starts there or later |
| ArtScan.MatchesAreSuccessiveExecs | src/AnimateArt.js:97-118 | the exec loop's matches are the successive leftmost matches, each from the end of the previous one, until `exec` fails |
| ArtScan.NamesOf | src/AnimateArt.js:100-102 | one name per match, in order: name k is match k's captured group |
| ArtScan.EmptySegmentIsSkipped | src/AnimateArt.js:89 | an empty segment adds nothing and does not end the parse |
| ArtScan.ParseEndsAt | src/AnimateArt.js:93-96 | a segment that returns on an empty library name, throws, or is not modelled keeps every later segment from adding a name, and the first such segment decides how the parse ends |
| ArtScan.ThrowsExactlyWhenRejected | src/AnimateArt.js:92-96 | a segment throws exactly when it is non-empty and its library name starts with `)`, which leaves `new RegExp` an unmatched `)`, or holds a `(` with no `)`, `\` or `[`, which leaves a group unterminated |
| ArtScan.NameWithoutLeadingParenHasNone | src/AnimateArt.js:92 | a library name not starting with `)` holds no `)` at all, since it is cut before the segment's first `)`; so any bare `(` in it opens a group it never closes |
| ArtScan.OpenGroupInParametersThrows | src/AnimateArt.js:92-96 | a parameter text holding a bare `(`, as the name `f(y` of `x, f(y) {` does, makes the segment throw |
| ArtScan.ParenBeforeCommaThrows | src/AnimateArt.js:92-96 | a segment whose first `)` comes before its first `,` throws: `substring` swaps its arguments, so the name starts with that `)` |
| ArtScan.InnerFunctionSegmentThrows | examples/NestedTimelines/NestedTimelines.js:9-10 | the segment the split cuts at a nested clip's `function (mode) {` followed by `MovieClip.call(this,` throws |
| ArtScan.IntendedLibNameInParameters | src/AnimateArt.js:92 | the corrected name is defined exactly when the parameter list holds a `,`; it then equals the name as written, holds no `)`, so the swap's throw cannot happen, and the segment throws only when that text itself leaves a group open |
| SymbolTables.AssignAllConcat | src/AnimateArt.js:86-120 | recording two runs of names in turn is recording their concatenation |
| SymbolTables.AssignAllSymbols | src/AnimateArt.js:116 | `symbols` gains the names in order of occurrence, repeats kept |
| SymbolTables.AssignAllOwners | src/AnimateArt.js:117 | after recording, every recorded name is owned by this art and every other entry is unchanged |
| SymbolTables.WarningsOnlyGrow | src/AnimateArt.js:105-113 | warnings are only appended; each new one names this art, a recorded name and a truthy earlier owner |
| SymbolTables.QuietWithoutWarnings | src/AnimateArt.js:105 | with debug logging absent or warnings suppressed, nothing is logged |
| SymbolTables.WarningsOncePerOverlap | src/AnimateArt.js:105-118 | for a script naming each symbol once, exactly one warning per name that already had an owner is logged, in order, naming that owner |
| SymbolTables.RepeatedNameWarnsAgainstItself | src/AnimateArt.js:105-117 | with warnings enabled, a name that repeats an earlier name of the same script adds exactly one warning, naming this same art as the owner, when the art's id is truthy, and none when it is empty |
| Art.Registry.constructor | src/AnimateArt.js:71 | the owner table starts empty |
| Art.MergeStagesLookup | src/AnimateArt.js:123-136 | a key is in the merged list exactly when some existing listed stage has it, and its URL comes from the last such stage; missing stages add nothing |
| Art.AnimateArt.constructor | src/AnimateArt.js:20-50 | a new art stores the script, the id and the registry, defaults an empty library name to `"lib"`, and starts with no symbols and no sub-assets |
| Art.AnimateArt.Create | src/AnimateArt.js:20-60 | `new AnimateArt` parses the script: it yields no art exactly when the parse ends in the model's SyntaxError; the registry holds the tables after recording every name met before the parse ended, also when it throws; a new art holds those names and no sub-assets |
| Art.AnimateArt.ParseSymbols | src/AnimateArt.js:79-121 | the parse ends as the script's first ending segment says (completed, SyntaxError or not modelled), and the new tables are those produced by recording every name the segments contribute before it |
| Art.AnimateArt.ParseSegment | src/AnimateArt.js:88-119 | one segment: skipped when empty; the parse returns when the library name is empty and throws when it starts with `)` or leaves a group open; a name without syntax characters records its matches, an identifier with `$` records nothing, and any other name ends the parse unmodelled |
| Art.AnimateArt.AssignMatches | src/AnimateArt.js:96-119 | the exec loop records every match's name, in order |
| Art.AnimateArt.AssignSymbol | src/AnimateArt.js:102-117 | one name: the warning when it is enabled and the name is owned, then the append, then the ownership overwrite |
| Art.AnimateArt.GetAssetList | src/AnimateArt.js:123-136 | the result is the merge of the listed stages' tables; nothing is changed |
| Art.AnimateArt.Destroy | src/AnimateArt.js:142-162 | the script is detached; every symbol is deleted from the owner table and from the library, whoever owns it now; every sub-asset is disposed once, in order; warnings are unchanged; the references are dropped |
| ClipInstance.ZeroStarLabelIsWildcard | src/MovieClipInstance.js:72 | a `"*"` label at frame 0 still means the whole timeline |
| ClipInstance.FallbackFps | src/MovieClipInstance.js:102 | the default frame rate is the application's when set, else 15, and never 0 |
| ClipInstance.HasAnimationMeaning | src/MovieClipInstance.js:69-87 | away from the wildcard, `hasAnimation` needs a start frame of at least 0 and a positive `_stop` frame, or a `_stop` frame of exactly -1 with a positive `_loop` frame |
| ClipInstance.NoAnimationNoDuration | src/MovieClipInstance.js:120-127 | `getDuration` is 0 for every animation `hasAnimation` rejects |
| ClipInstance.GetDuration | src/MovieClipInstance.js:97-128 | an unset frame rate is defaulted first, then the duration is measured in milliseconds at that rate |
| ClipInstance.NamedWindow | src/MovieClipInstance.js:164-172 | a named label starts at its own frame, ends at `_stop` and plays once when `_stop` exists, and otherwise ends at `_loop` and loops; `animObj.loop` is ignored |
| ClipInstance.WildcardWindow | src/MovieClipInstance.js:158-163 | the wildcard plays frames 0 to totalFrames - 1, looping exactly when asked to |
| ClipInstance.WildcardDurationOneFrameLonger | src/MovieClipInstance.js:106-109 | the wildcard's `getDuration` is one frame longer than the window `beginAnim` plays |
| ClipInstance.DurationMeasuresStopWindow | src/MovieClipInstance.js:115-123 | for a label with a positive `_stop` frame, `getDuration` measures the window `beginAnim` plays |
| ClipInstance.StartPosition | src/MovieClipInstance.js:187-188 | a non-negative start is kept; a negative start gives a random position within [0, duration) |
| ClipInstance.MovieClipInstance.constructor | src/MovieClipInstance.js:19-47 | a new instance has startTime 0, length 0 and first and last frame -1 |
| ClipInstance.MovieClipInstance.Init | src/MovieClipInstance.js:134-146 | a falsy frame rate is defaulted; self-advance and looping are off; there is no current name; position and duration are 0 |
| ClipInstance.MovieClipInstance.BeginAnim | src/MovieClipInstance.js:148-194 | the resolved window is taken on: length = last - first, startTime = first / fps, duration = length / fps; the position is 0 on a repeat and otherwise from the start offset; the clip plays from startTime + position |
| ClipInstance.MovieClipInstance.EndAnim | src/MovieClipInstance.js:200-203 | the clip stops at the window's last frame |
| ClipInstance.MovieClipInstance.SetPosition | src/MovieClipInstance.js:211-218 | position and cursor become functions of the new position alone, so setting the same position twice is setting it once |
| ClipInstance.ProbesAgreeWithStopLabel | src/MovieClipInstance.js:82-86 | as written and corrected, both probes agree whenever the `_stop` label exists at any frame other than -1 |
| ClipInstance.LoopOnlyLabelIsMissed | src/MovieClipInstance.js:83-86 | with labels `idle` at 0 and `idle_loop` at 30, `hasAnimation` is false and `getDuration` is 0, although `beginAnim` plays 0..30 looping |
| ClipInstance.IntendedProbesMatchBeginAnim | src/MovieClipInstance.js:164-172 | a label the corrected probes accept has a window `beginAnim` plays, starting at frame 0 or later and ending after frame 0, and its corrected duration measures that window |
| ShapesTask.TestMeaning | src/ShapesTask.js:37-43 | `test` accepts exactly: a non-empty `src` ending in `.txt` or `.json` in any case, type `"pixi"`, the Shapes format |
| ShapesTask.Start | src/ShapesTask.js:50-55 | the result is a Shapes keyed by the task id, holding the data unexamined |
| JsonTask.TestMeaning | src/JSONTask.js:39-45 | `test` accepts exactly: a non-empty `src` ending in `.json` in any case, type `"pixi"`, the JSON format |
| JsonTask.RouteMeaning | src/JSONTask.js:57 | the sprite-sheet route is taken exactly when `frames` is truthy, `meta` is an object and `meta.image` is truthy; only `null` data throws |
| JsonTask.ImageRequestShape | src/JSONTask.js:59-62 | sprite-sheet data always leads to an image load; the request has type `"pixi"` and the image name appended to the directory part of `src` (up to its last `/`, empty when there is none) |
| JsonTask.EmptyImageIsShapes | src/JSONTask.js:57 | an empty image name sends otherwise sheet-like data down the shapes route |
| JsonTask.ShapesRouteIsShapesTask | src/JSONTask.js:74-78 | the shapes route yields what `ShapesTask` yields for the same asset and data |
| JsonTask.OnTextureLoaded | src/JSONTask.js:63-72 | the sheet is built over the texture's base texture; the texture is destroyed; the sheet is returned parsed |
| ArtTask.TestMeaning | src/AnimateArtTask.js:70-76 | `test` accepts exactly: a non-empty `src` ending in `.js` in any case, type `"pixi"`, the art format |
| ArtTask.ClassifyMeaning | src/AnimateArtTask.js:114-127 | the image suffixes win first, then `.json`, then `.txt`, each compared case-sensitively |
| ArtTask.SubAssetRequest | src/AnimateArtTask.js:110-127 | every request carries its entry's id and type `"pixi"`, whatever the suffix |
| ArtTask.RequestsReachTheirTasks | src/AnimateArtTask.js:118-127 | a `.json` request passes `JSONTask.test` only; a `.txt` request passes `ShapesTask.test` only; other requests pass none of the three tests |
| ArtTask.BuildRequests | src/AnimateArtTask.js:106-129 | the loop yields exactly one request per asset-list key: as many requests as keys, each the request of its entry carrying the key as id, no two with the same id, every key covered |
| ArtTask.AnimateArtTask.constructor | src/AnimateArtTask.js:31-58 | `libName` is `"lib"`; `stageIds` defaults to `[id]`; `suppressWarnings` is the truthiness of `asset.suppress` |
| ArtTask.AnimateArtTask.OnScriptLoaded | src/AnimateArtTask.js:93-129 | no art and no requests exactly when the parse ends in the model's SyntaxError; otherwise the art is built over the loaded script, and the requests are those for the merged stages relative to the script's directory |
| ArtTask.AnimateArtTask.OnSubAssetsLoaded | src/AnimateArtTask.js:132-139 | every result is appended to the art's assets, in order, before the art is handed back |

## Left out

- Art.AnimateArt.ParseSegment: the finder pattern is modelled for four kinds of library name only. A name without regular-expression syntax characters matches literally. A name starting with `)` makes `new RegExp` throw a SyntaxError, and so does a name with a `(` and no `)`, `\` or `[`, which leaves a group unterminated. An identifier holding `$` matches nothing, since `$` anchors the end. For any other name the parse ends with the outcome `Unmodelled`, and the names the source would record from that segment on are missing from the model.
- Art.AnimateArt.Create, ArtTask.AnimateArtTask.OnScriptLoaded and ArtScan.ThrowsExactlyWhenRejected: "throws" means the model's SyntaxError. An `Unmodelled` name that the source's `RegExp` still rejects (such as `a[b` or `a**`) yields an art and its requests here, where the source throws.
- Art.AnimateArt.GetAssetList and Art.AnimateArt.Destroy: both read the registry's single library object `lib`, not `window[this.libName]`. The task always passes `"lib"`, so only an art built directly with another library name differs.
- Strings are sequences of Unicode scalar values, not UTF-16 code units. `\w` and case folding are ASCII-only, as the source's patterns are.
- Properties inherited from `Object.prototype` are not modelled. In the source, `globalSymbols["constructor"]` is truthy without ever being assigned. The model's tables hold only own entries.
- The enumeration order of `for…in` is not modelled. `ArtTask.BuildRequests` takes the keys in an order it leaves open, and its contract says nothing about that order. The batch results reach `OnSubAssetsLoaded` as a sequence in the order they are listed.
- The external loader, the `Task` and `LoadTask` base classes, the asynchronous callbacks and the loader's `filter` URL hook are not modelled. A task's `src` is the descriptor's `src`, and each load result is a parameter of the step that consumes it.
- `AnimatorInstance`, the base class of `MovieClipInstance`, is not part of this model. The same goes for the `MovieClipInstance.test` `instanceof` check against the rendering library's class.
- Rendering is not modelled. `play`, `advance`, `gotoAndStop` and `Spritesheet.parse` appear only as the fields they set.
- Floating point is not modelled: times are `real`, so NaN, infinities and rounding are absent.
- ClipInstance.MovieClipInstance.BeginAnim: requires a defined window. Without one, the source computes with `undefined` frames. The frame rate must be non-zero, which `init` guarantees. The source does not require it to be positive, and neither does the model.
- `Math.random()` is a parameter of `BeginAnim` bounded to [0, 1).
- The shape cache behind `src/Shapes.js` is not modelled, and neither is the registration in `src/PixiAnimatePlugin.js`. A Shapes result is an id with its data; sprite sheets and images are opaque handles.
- `Debug.warn` is modelled as an appended log of `Collision` values. `CollisionText` gives the logged text.
- Art.AnimateArt.Destroy: requires the script element to be attached. The source's `parentNode.removeChild` throws otherwise, and the requires also rules out a second `destroy`. `symbols` and `assets` become empty rather than `null`.
- Where the repository's own description and the code disagree, the code is followed:
  - an asset-list entry with an unrecognised suffix still yields a bare `{id, type}` request rather than being dropped;
  - repeated names in one script are kept, and at a repeat the name warns against its own art;
  - an empty library parameter name ends the whole parse, and does not just skip its segment;
  - a segment whose library name starts with `)` makes the constructor throw, and the names recorded before it stay recorded;
  - `destroy` on a detached script throws rather than doing nothing.

## Findings

| source | as written | input that shows it | evidently intended | confidence | as-written member | corrected member |
|---|---|---|---|---|---|---|
| src/MovieClipInstance.js:83-85 | `hasAnimation` and `getDuration` fall back to the `_loop` label only when the `_stop` label maps to exactly -1; a missing `_stop` label leaves the stop frame `undefined` | labels `idle` at 0 and `idle_loop` at 30: `hasAnimation` is false and `getDuration` is 0, while `beginAnim` plays frames 0 to 30 on a loop | fall back to `_loop` when `_stop` is undefined, as `beginAnim` does at line 168 | not executed; high, since the two resolutions sit in the same file | ClipInstance.LoopOnlyLabelIsMissed | ClipInstance.IntendedProbesMatchBeginAnim |
| src/AnimateArt.js:92-96 | the library name is `substring(indexOf(",") + 1, indexOf(")"))`; when the first `)` comes before the first `,`, `substring` swaps its arguments, the name starts with `)`, and `new RegExp` throws a SyntaxError that aborts the constructor | the segment after a nested clip's `function (mode) {`, whose body starts `MovieClip.call(this,`, as in examples/NestedTimelines/NestedTimelines.js:9-10 | take a library name only from a parameter list that holds a `,`, the text up to the first `)` | not executed; high for the throw, medium for the intent | ArtScan.InnerFunctionSegmentThrows | ArtScan.IntendedLibNameInParameters |
