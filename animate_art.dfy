/**
 * `AnimateArt`: one loaded generated script, the symbol names it published
 * on the shared library object, and the disposable sub-assets loaded for
 * it.  The process-wide state (the static owner table
 * `AnimateArt.globalSymbols`, the library object `window[libName]` and the
 * host's diagnostics) is an explicit `Registry` passed by reference.
 */
module Art {
  import opened JsValues
  import opened ArtScan
  import opened SymbolTables
  import opened Handles

  /**
   * The shared state arts are registered in:
   * - `owners` is `AnimateArt.globalSymbols`, symbol name to owning art id;
   * - `lib` is the library object the scripts publish into, each entry
   *   seen through its enumerable string properties (for a stage, its
   *   sub-asset id to relative URL table);
   * - `warnings` records the `Debug.warn` calls, in order, as the collisions they report (`CollisionText` gives the logged text);
   * - `disposed` records the `destroy()` calls on sub-assets, in order;
   * - `debugLogging` is `DEBUG && Debug`: a debug build with the host's
   *   logging facility present.
   */
  class Registry {
    var owners: map<string, string>
    var lib: map<string, map<string, string>>
    var warnings: seq<Collision>
    var disposed: seq<SubAsset>
    const debugLogging: bool

    constructor (lib: map<string, map<string, string>>, debugLogging: bool)
      ensures this.lib == lib && this.debugLogging == debugLogging
      ensures owners == map[] && warnings == [] && disposed == []
    {
      this.lib := lib;
      this.debugLogging := debugLogging;
      owners := map[];
      warnings := [];
      disposed := [];
    }
  }

  /** `lib[stageId]`; a missing stage is `undefined`, over which `for…in` runs no iteration. */
  function StageAssets(lib: map<string, map<string, string>>, stageId: string): map<string, string>
  {
    if stageId in lib then lib[stageId] else map[]
  }

  /** The sub-asset tables of the listed stages merged in order, a later stage winning. */
  function MergeStages(lib: map<string, map<string, string>>, stageIds: seq<string>): map<string, string>
    decreases |stageIds|
  {
    if stageIds == [] then map[]
    else MergeStages(lib, stageIds[..|stageIds| - 1]) + StageAssets(lib, stageIds[|stageIds| - 1])
  }

  /** Stage `stageIds[i]` lists `key`, and no later stage does. */
  ghost predicate SuppliedBy(lib: map<string, map<string, string>>, stageIds: seq<string>, key: string, i: int)
  {
    && 0 <= i < |stageIds|
    && stageIds[i] in lib && key in lib[stageIds[i]]
    && forall j :: i < j < |stageIds| ==> !(stageIds[j] in lib && key in lib[stageIds[j]])
  }

  /**
   * A key is in the merged table exactly when some listed stage that
   * exists holds it, and its URL is the one of the last such stage.
   */
  lemma {:induction false} MergeStagesLookup(lib: map<string, map<string, string>>, stageIds: seq<string>, key: string)
    ensures key in MergeStages(lib, stageIds) <==>
              exists i :: 0 <= i < |stageIds| && stageIds[i] in lib && key in lib[stageIds[i]]
    ensures key in MergeStages(lib, stageIds) ==>
              exists i :: SuppliedBy(lib, stageIds, key, i) && MergeStages(lib, stageIds)[key] == lib[stageIds[i]][key]
    decreases |stageIds|
  {
    if stageIds != [] {
      var n := |stageIds| - 1;
      var prefix, last := stageIds[..n], stageIds[n];
      MergeStagesLookup(lib, prefix, key);
      var merged := MergeStages(lib, stageIds);
      assert merged == MergeStages(lib, prefix) + StageAssets(lib, last);
      if last in lib && key in lib[last] {
        assert SuppliedBy(lib, stageIds, key, n);
      } else if key in MergeStages(lib, prefix) {
        var i :| SuppliedBy(lib, prefix, key, i) && MergeStages(lib, prefix)[key] == lib[prefix[i]][key];
        assert stageIds[i] == prefix[i];
        assert SuppliedBy(lib, stageIds, key, i);
      } else {
        forall i | 0 <= i < |stageIds| && stageIds[i] in lib
          ensures key !in lib[stageIds[i]]
        {
          if i < n {
            assert stageIds[i] == prefix[i];
          }
        }
      }
    }
  }

  /** The set of names in a sequence. */
  function Elements(names: seq<string>): (r: set<string>)
    ensures forall n :: n in r <==> n in names
  {
    set n | n in names
  }

  class AnimateArt {
    const id: string
    const libName: string
    const registry: Registry
    /** The `<script>` element; `null` once the art is destroyed. */
    var dom: ScriptElement?
    /** The names this art's script assigned, in order, repeats kept. */
    var symbols: seq<string>
    /** The sub-assets loaded for this art, disposed with it. */
    var assets: seq<SubAsset>

    /**
     * The fields `new AnimateArt` sets around its parse: the script, no
     * symbols yet, the library name (an empty, falsy one falls back to
     * `"lib"`), the id, and no sub-assets.
     */
    constructor (id: string, dom: ScriptElement, libName: string, registry: Registry)
      ensures this.id == id && this.dom == dom && this.registry == registry
      ensures this.libName == if libName == "" then "lib" else libName
      ensures symbols == [] && assets == []
    {
      this.dom := dom;
      this.symbols := [];
      this.libName := if libName == "" then "lib" else libName;
      this.id := id;
      this.registry := registry;
      this.assets := [];
    }

    /**
     * `new AnimateArt(id, dom, libName, suppressWarnings)`: the fields, then
     * the parse of the script's symbols into the registry.  When the parse
     * throws, so does `new`: no art is returned (`null`), while the names
     * recorded before the throw stay in the owner table and the log.
     */
    static method Create(id: string, dom: ScriptElement, libName: string, suppressWarnings: bool, registry: Registry)
      returns (art: AnimateArt?, outcome: ParseOutcome)
      modifies registry`owners, registry`warnings
      ensures outcome == ScriptOutcome(dom.text)
      ensures art == null <==> outcome == SyntaxError
      ensures var t := AssignAll(Tables([], old(registry.owners), old(registry.warnings)),
                                 ScriptNames(dom.text), id, registry.debugLogging && !suppressWarnings);
              && registry.owners == t.owners && registry.warnings == t.warnings
              && (art != null ==>
                    && fresh(art) && art.id == id && art.dom == dom && art.registry == registry
                    && art.libName == (if libName == "" then "lib" else libName)
                    && art.symbols == t.symbols && art.assets == [])
    {
      var made := new AnimateArt(id, dom, libName, registry);
      outcome := made.ParseSymbols(dom.text, suppressWarnings);
      art := if outcome == SyntaxError then null else made;
    }

    /** The tables parsing records into: this art's symbols, the owner table and the warnings. */
    function State(): Tables
      reads this, registry
    {
      Tables(symbols, registry.owners, registry.warnings)
    }

    /**
     * `parseSymbols`: every assignment the finder matches, segment by
     * segment, is recorded for this art (see `Assign`), until a segment ends
     * the parse; `outcome` says how it ended.  Warnings are enabled in a
     * debug build with logging, unless suppressed.  (The source reads the
     * table as `FlashArt.globalSymbols`, a name that is not defined; the
     * evident `AnimateArt.globalSymbols` is modelled.)
     */
    method ParseSymbols(text: string, suppressWarnings: bool) returns (outcome: ParseOutcome)
      modifies this`symbols, registry`owners, registry`warnings
      ensures outcome == ScriptOutcome(text)
      ensures State() == AssignAll(old(State()), ScriptNames(text), id, registry.debugLogging && !suppressWarnings)
    {
      var segments := Split(text);
      ghost var steps := StepsOf(segments);
      ghost var all := Collect(steps);
      ghost var start := State();
      ghost var done: seq<string> := [];
      var enabled := registry.debugLogging && !suppressWarnings;
      var i := 0;
      while i < |segments|
        invariant 0 <= i <= |segments|
        invariant done + Collect(steps[i..]) == all
        invariant OutcomeOf(steps[i..]) == OutcomeOf(steps)
        invariant State() == AssignAll(start, done, id, enabled)
      {
        var end := ParseSegment(segments[i], enabled);
        assert steps[i] == StepOf(segments[i]);
        CollectUnfold(steps, i);
        AppendAssociates(done, StepNames(steps[i]), Collect(steps[i + 1..]));
        if end.Some? {
          return end.value;
        }
        AssignAllConcat(start, done, StepNames(steps[i]), id, enabled);
        done := done + StepNames(steps[i]);
        i := i + 1;
      }
      assert steps[i..] == [];
      AppendAssociates(done, [], []);
      return Completed;
    }

    /**
     * One round of the segment loop: an empty segment is skipped, an empty
     * library name ends the parse by returning, a `RejectedPattern` name
     * ends it with the SyntaxError of `new RegExp`, and otherwise the
     * segment's assignments are recorded (none for an `AnchoredIdentifier`);
     * a name the model does not give ends it as `Unmodelled`.  `end` is the
     * outcome when the parse ends here.
     */
    method ParseSegment(segment: string, enabled: bool) returns (end: Option<ParseOutcome>)
      modifies this`symbols, registry`owners, registry`warnings
      ensures end.Some? <==> EndsParse(StepOf(segment))
      ensures end.Some? ==> end.value == EndOf(StepOf(segment))
      ensures State() == AssignAll(old(State()), StepNames(StepOf(segment)), id, enabled)
    {
      if segment == "" {
        return None;
      }
      var lib := LibParamName(segment);
      if lib == "" {
        return Some(Completed);
      }
      if RejectedPattern(lib) {
        return Some(SyntaxError);
      }
      if LiteralPattern(lib) {
        AssignMatches(segment, lib, enabled);
        return None;
      }
      if AnchoredIdentifier(lib) {
        return None;
      }
      return Some(Unmodelled);
    }

    /**
     * The `exec` loop over one segment: every match of the finder for
     * library name `lib`, in order, is recorded for this art.
     */
    method AssignMatches(segment: string, lib: string, enabled: bool)
      modifies this`symbols, registry`owners, registry`warnings
      ensures State() == AssignAll(old(State()), NamesOf(Matches(segment, lib, 0)), id, enabled)
    {
      ghost var start := State();
      ghost var done: seq<string> := [];
      var lastIndex := 0;
      var found := Exec(segment, lib, lastIndex);
      while found.Some?
        invariant lastIndex <= |segment|
        invariant found == Exec(segment, lib, lastIndex)
        invariant done + NamesOf(Matches(segment, lib, lastIndex)) == NamesOf(Matches(segment, lib, 0))
        invariant State() == AssignAll(start, done, id, enabled)
        decreases |segment| - lastIndex
      {
        var assetId := found.value.name;
        NamesStep(segment, lib, lastIndex, done);
        AssignAllOneMore(start, done, assetId, id, enabled);
        AssignSymbol(assetId, enabled);
        done := done + [assetId];
        lastIndex := found.value.end;
        found := Exec(segment, lib, lastIndex);
      }
      MatchesUnfold(segment, lib, lastIndex);
      AppendAssociates(done, [], []);
    }

    /**
     * One match of the finder: warn about a name that already has a truthy
     * owner when warnings are enabled, record the name, and take it over.
     */
    method AssignSymbol(assetId: string, enabled: bool)
      modifies this`symbols, registry`owners, registry`warnings
      ensures State() == Assign(old(State()), assetId, id, enabled)
    {
      if enabled && Owned(registry.owners, assetId) {
        registry.warnings := registry.warnings + [Collision(id, assetId, registry.owners[assetId])];
      }
      symbols := symbols + [assetId];
      registry.owners := registry.owners[assetId := id];
    }

    /**
     * `getAssetList(stageIds)`: the sub-asset tables of the listed stages of
     * the library object, merged into a new table; nothing is changed.
     */
    method GetAssetList(stageIds: seq<string>) returns (assets: map<string, string>)
      ensures assets == MergeStages(registry.lib, stageIds)
    {
      var lib := registry.lib;
      assets := map[];
      var i := 0;
      while i < |stageIds|
        invariant 0 <= i <= |stageIds|
        invariant assets == MergeStages(lib, stageIds[..i])
      {
        var stageAssets := StageAssets(lib, stageIds[i]);
        var keys := stageAssets.Keys;
        ghost var before := assets;
        while keys != {}
          invariant keys <= stageAssets.Keys
          invariant assets == before + (map k | k in stageAssets.Keys - keys :: stageAssets[k])
          decreases keys
        {
          var key :| key in keys;
          assets := assets[key := stageAssets[key]];
          keys := keys - {key};
        }
        assert (map k | k in stageAssets.Keys - {} :: stageAssets[k]) == stageAssets;
        assert stageIds[..i + 1][..i] == stageIds[..i];
        i := i + 1;
      }
      assert stageIds[..|stageIds|] == stageIds;
    }

    /**
     * `destroy()`: detaches the script element, deletes every name of
     * `symbols` from the owner table and from the library object (whoever
     * owns it by now), disposes the sub-assets in order, and drops the
     * references, so the art cannot be destroyed again.  (The source reads
     * the table as `FlashArt.globalSymbols`; `AnimateArt.globalSymbols` is
     * meant.)
     */
    method Destroy()
      requires dom != null && dom.attached
      modifies this, dom, registry
      ensures dom == null && !old(dom).attached
      ensures symbols == [] && assets == []
      ensures registry.owners == old(registry.owners) - Elements(old(symbols))
      ensures registry.lib == old(registry.lib) - Elements(old(symbols))
      ensures registry.disposed == old(registry.disposed) + old(assets)
      ensures registry.warnings == old(registry.warnings)
    {
      dom.attached := false;
      dom := null;
      var i := 0;
      while i < |symbols|
        modifies registry
        invariant 0 <= i <= |symbols|
        invariant registry.owners == old(registry.owners) - Elements(symbols[..i])
        invariant registry.lib == old(registry.lib) - Elements(symbols[..i])
        invariant registry.disposed == old(registry.disposed) && registry.warnings == old(registry.warnings)
      {
        assert Elements(symbols[..i + 1]) == Elements(symbols[..i]) + {symbols[i]} by {
          assert symbols[..i + 1] == symbols[..i] + [symbols[i]];
        }
        registry.owners := registry.owners - {symbols[i]};
        registry.lib := registry.lib - {symbols[i]};
        i := i + 1;
      }
      assert symbols[..|symbols|] == symbols;
      symbols := [];
      var j := 0;
      while j < |assets|
        modifies registry`disposed
        invariant 0 <= j <= |assets|
        invariant registry.disposed == old(registry.disposed) + assets[..j]
      {
        assert assets[..j + 1] == assets[..j] + [assets[j]];
        registry.disposed := registry.disposed + [assets[j]];
        j := j + 1;
      }
      assert assets[..|assets|] == assets;
      assets := [];
    }
  }
}
