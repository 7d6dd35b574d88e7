/**
 * What recording a run of symbol names does to the shared tables: each
 * name joins the art's `symbols`, the owner table `globalSymbols` maps it
 * to the art, and a collision warning is logged first when the name
 * already had a truthy owner and warnings are enabled.
 */
module SymbolTables {

  /** `globalSymbols[name]` is truthy: the name has a non-empty owner id. */
  predicate Owned(owners: map<string, string>, name: string)
  {
    name in owners && owners[name] != ""
  }

  /** A collision warning: art `artId` takes over `name`, which art `prior` created. */
  datatype Collision = Collision(artId: string, name: string, prior: string)

  /** The text the collision warning is logged with. */
  function CollisionText(c: Collision): string
  {
    "Animate Asset Collision: asset '" + c.artId + "' wants to create 'lib." + c.name
      + "' which is already created by asset '" + c.prior + "'"
  }

  /**
   * The tables one assignment updates: the art's `symbols`, the shared
   * owner table, and the warnings logged so far.
   */
  datatype Tables = Tables(symbols: seq<string>, owners: map<string, string>, warnings: seq<Collision>)

  /** One found assignment of `name` by art `id`. */
  function Assign(t: Tables, name: string, id: string, enabled: bool): Tables
  {
    var warning := if enabled && Owned(t.owners, name) then [Collision(id, name, t.owners[name])] else [];
    Tables(t.symbols + [name], t.owners[name := id], t.warnings + warning)
  }

  /** The assignments of `names`, one after the other. */
  function AssignAll(t: Tables, names: seq<string>, id: string, enabled: bool): Tables
    decreases |names|
  {
    if names == [] then t
    else Assign(AssignAll(t, names[..|names| - 1], id, enabled), names[|names| - 1], id, enabled)
  }

  lemma AssignAllOneMore(t: Tables, names: seq<string>, name: string, id: string, enabled: bool)
    ensures AssignAll(t, names + [name], id, enabled) == Assign(AssignAll(t, names, id, enabled), name, id, enabled)
  {
    assert (names + [name])[..|names|] == names;
  }

  /** Recording two runs of names one after the other records their concatenation. */
  lemma {:induction false} AssignAllConcat(t: Tables, first: seq<string>, second: seq<string>, id: string, enabled: bool)
    ensures AssignAll(AssignAll(t, first, id, enabled), second, id, enabled) == AssignAll(t, first + second, id, enabled)
    decreases |second|
  {
    if second == [] {
      assert first + second == first;
    } else {
      var prefix, n := second[..|second| - 1], second[|second| - 1];
      assert first + second == (first + prefix) + [n];
      AssignAllConcat(t, first, prefix, id, enabled);
      AssignAllOneMore(t, first + prefix, n, id, enabled);
    }
  }

  /**
   * The owner table after claiming `names` for `id`, stated directly: the
   * claimed names belong to `id`, every other entry is the old one.
   */
  function Claim(owners: map<string, string>, names: seq<string>, id: string): map<string, string>
  {
    map k | k in owners.Keys + (set n | n in names) :: if k in names then id else owners[k]
  }

  /** Recording appends the names to `symbols` in order, repeats kept. */
  lemma {:induction false} AssignAllSymbols(t: Tables, names: seq<string>, id: string, enabled: bool)
    ensures AssignAll(t, names, id, enabled).symbols == t.symbols + names
    decreases |names|
  {
    if names == [] {
      assert t.symbols + [] == t.symbols;
    } else {
      var prefix, n := names[..|names| - 1], names[|names| - 1];
      assert names == prefix + [n];
      AssignAllSymbols(t, prefix, id, enabled);
      assert (t.symbols + prefix) + [n] == t.symbols + (prefix + [n]);
    }
  }

  /** Recording leaves the owner table as `Claim` of the names. */
  lemma {:induction false} AssignAllOwners(t: Tables, names: seq<string>, id: string, enabled: bool)
    ensures AssignAll(t, names, id, enabled).owners == Claim(t.owners, names, id)
    decreases |names|
  {
    if names != [] {
      var prefix, n := names[..|names| - 1], names[|names| - 1];
      assert names == prefix + [n];
      AssignAllOwners(t, prefix, id, enabled);
      var before := Claim(t.owners, prefix, id);
      var after := Claim(t.owners, names, id);
      assert forall k :: k in after <==> k in before[n := id] by {
        assert forall k :: k in names <==> k in prefix || k == n;
      }
      assert after == before[n := id];
    }
  }

  /**
   * Recording only appends warnings, and each new one reports a recorded
   * name taken over by `id` from a truthy owner.
   */
  lemma {:induction false} WarningsOnlyGrow(t: Tables, names: seq<string>, id: string, enabled: bool)
    ensures var r := AssignAll(t, names, id, enabled);
            && |t.warnings| <= |r.warnings| && r.warnings[..|t.warnings|] == t.warnings
            && forall k :: |t.warnings| <= k < |r.warnings| ==>
                 r.warnings[k].artId == id && r.warnings[k].name in names && r.warnings[k].prior != ""
    decreases |names|
  {
    if names != [] {
      var prefix, n := names[..|names| - 1], names[|names| - 1];
      assert names == prefix + [n];
      WarningsOnlyGrow(t, prefix, id, enabled);
      var p := AssignAll(t, prefix, id, enabled);
      var r := AssignAll(t, names, id, enabled);
      assert r.warnings[..|p.warnings|] == p.warnings;
      forall k | |t.warnings| <= k < |r.warnings|
        ensures r.warnings[k].artId == id && r.warnings[k].name in names && r.warnings[k].prior != ""
      {
        if k < |p.warnings| {
          assert r.warnings[k] == p.warnings[k];
          assert p.warnings[k].name in prefix;
        }
      }
    }
  }

  /** Without debug logging, or with warnings suppressed, nothing is reported. */
  lemma {:induction false} QuietWithoutWarnings(t: Tables, names: seq<string>, id: string)
    ensures AssignAll(t, names, id, false).warnings == t.warnings
    decreases |names|
  {
    if names != [] {
      QuietWithoutWarnings(t, names[..|names| - 1], id);
    }
  }

  /** The names of `names` pairwise different. */
  predicate Distinct(names: seq<string>)
  {
    forall i, j :: 0 <= i < j < |names| ==> names[i] != names[j]
  }

  /** One warning for each name that already had a truthy owner, naming that owner. */
  function PriorOwnerMessages(owners: map<string, string>, names: seq<string>, id: string): seq<Collision>
    decreases |names|
  {
    if names == [] then []
    else
      var n := names[|names| - 1];
      PriorOwnerMessages(owners, names[..|names| - 1], id)
        + (if Owned(owners, n) then [Collision(id, n, owners[n])] else [])
  }

  /**
   * When a script assigns each name once, exactly the names that already
   * had an owner are reported, once each and in order, with their
   * previous owner.
   */
  lemma {:induction false} WarningsOncePerOverlap(t: Tables, names: seq<string>, id: string)
    requires Distinct(names)
    ensures AssignAll(t, names, id, true).warnings == t.warnings + PriorOwnerMessages(t.owners, names, id)
    decreases |names|
  {
    if names == [] {
      assert t.warnings + [] == t.warnings;
    } else {
      var prefix, n := names[..|names| - 1], names[|names| - 1];
      assert n !in prefix by {
        forall i | 0 <= i < |prefix| ensures prefix[i] != n {
          assert prefix[i] == names[i];
        }
      }
      WarningsOncePerOverlap(t, prefix, id);
      AssignAllOwners(t, prefix, id, true);
      assert (t.warnings + PriorOwnerMessages(t.owners, prefix, id)) + (if Owned(t.owners, n) then [Collision(id, n, t.owners[n])] else [])
             == t.warnings + PriorOwnerMessages(t.owners, names, id);
    }
  }

  /**
   * A name the same script assigns a second time warns on that assignment
   * about itself: by then the owner table names this very art, which is
   * truthy unless the art's id is empty.
   */
  lemma RepeatedNameWarnsAgainstItself(t: Tables, names: seq<string>, id: string, i: nat, j: nat)
    requires i < j < |names| && names[i] == names[j]
    ensures AssignAll(t, names[..j + 1], id, true).warnings ==
              AssignAll(t, names[..j], id, true).warnings + (if id != "" then [Collision(id, names[j], id)] else [])
  {
    var before := names[..j];
    assert names[..j + 1] == before + [names[j]];
    AssignAllOneMore(t, before, names[j], id, true);
    AssignAllOwners(t, before, id, true);
    assert names[j] in before by {
      assert before[i] == names[i];
    }
  }
}
