/**
 * The registry of gromacs/tools.py as the module builds it on import: the
 * tools the release dispatch loads, then the alias pass, then the
 * multi-index patch, each changing the one dictionary in place.
 */
module Registry {
  import opened Wrappers
  import opened Text
  import opened Identifiers
  import opened ToolDict
  import opened Loading
  import opened Aliases
  import opened MultiIndex

  /** Every key starts with the identifier of its tool's command name, as the
      loaders build them. */
  ghost predicate KeyedByName(d: Dict) {
    forall k :: k in d.table ==> MakeValidIdentifier(d.table[k].commandName) <= k
  }

  /** On a registry keyed by name the alias pass never fails. */
  lemma KeyedByNameAliasable(d: Dict)
    requires KeyedByName(d)
    ensures Aliasable(d)
  {
    forall k | k in d.table
      ensures AliasDefined(k, d.table[k].commandName)
    {
      AliasDefinedForLoadedKey(k, d.table[k].commandName);
    }
  }

  /** What load_v5_tools returns is keyed by name. */
  lemma V5KeyedByName(cfg: Config, host: Host)
    requires V5Tools(cfg, host).Success?
    ensures V5Tools(cfg, host).value.Valid() && KeyedByName(V5Tools(cfg, host).value)
  {
    V5Outcome(cfg, host);
    var d := V5Tools(cfg, host).value;
    forall k | k in d.table
      ensures MakeValidIdentifier(d.table[k].commandName) <= k
    {
      assert V5Entry(k, d.table[k], V5Drivers(cfg, host), host, cfg.appendSuffix);
    }
  }

  /** What load_v4_tools returns is keyed by name. */
  lemma V4KeyedByName(cfg: Config, host: Host)
    ensures V4Tools(cfg, host).Success?
    ensures V4Tools(cfg, host).value.Valid() && KeyedByName(V4Tools(cfg, host).value)
  {
    V4Outcome(cfg, host);
    var d := V4Tools(cfg, host).value;
    forall k | k in d.table
      ensures MakeValidIdentifier(d.table[k].commandName) <= k
    {
      assert V4Entry(k, d.table[k], V4Names(cfg, host));
    }
  }

  /** Whatever the dispatch loads is a well-formed registry keyed by name. */
  lemma DispatchKeyedByName(cfg: Config, host: Host)
    requires Dispatch(cfg, host).Success?
    ensures Dispatch(cfg, host).value.Valid() && KeyedByName(Dispatch(cfg, host).value)
  {
    V4KeyedByName(cfg, host);
    if V5Tools(cfg, host).Success? {
      V5KeyedByName(cfg, host);
    }
  }

  class ToolRegistry {
    /** `registry`: key to tool, in insertion order. */
    var tools: Dict

    constructor (tools: Dict)
      ensures this.tools == tools
    {
      this.tools := tools;
    }

    /** The alias pass over a snapshot of the entries: each entry's alias,
        if any, is bound to what the entry's key holds at that moment. */
    method AddAliases()
      requires tools.Valid() && Aliasable(tools)
      modifies this
      ensures tools == AliasPass(old(tools))
    {
      var snapshot := tools;
      ghost var aliases := AliasList(snapshot);
      for n := 0 to |snapshot.keys|
        invariant tools == AliasesUpTo(snapshot, aliases, n)
      {
        var fancy := snapshot.keys[n];
        assert fancy in snapshot.table;
        var alias := AliasOf(fancy, snapshot.table[fancy].commandName);
        if alias.Some? {
          tools := tools.Put(alias.value, tools.table[fancy]);
        }
      }
    }

    /** The multi-index patch: G_mindist and G_dist, when present, become
        multi-index tools, and Mindist and Distance, when present, share them. */
    method PatchMultiIndex()
      modifies this
      ensures tools == PatchUpTo(old(tools), |MultiIndexTools|)
    {
      for i := 0 to |MultiIndexTools|
        invariant tools == PatchUpTo(old(tools), i)
      {
        var (name4, name5) := MultiIndexTools[i];
        if name4 in tools.table {
          var cmd := tools.table[name4];
          tools := tools.Put(name4, Tool(cmd.commandName, cmd.driver, true));
          if name5 in tools.table {
            tools := tools.Put(name5, tools.table[name4]);
          }
        }
      }
    }
  }

  /** The inner loop of the alias pass: the first 5.x name that is a prefix
      of the command name decides, and "G_" plus the key in lower case is the
      alias when none is. */
  method AliasOf(fancy: string, name: string) returns (alias: Option<string>)
    requires AliasDefined(fancy, name)
    ensures alias == AliasKey(fancy, name)
  {
    TableNamesNonEmpty();
    for j := 0 to |Names5To4|
      invariant FirstMatch(name, 0) == FirstMatch(name, j)
    {
      var (c5, c4) := Names5To4[j];
      if c5 <= name {
        if c4 == c5 {
          return None;
        }
        IdentifierShape(c5);
        return Some(MakeValidIdentifier(c4 + SplitSecond(fancy, MakeValidIdentifier(c5))));
      }
    }
    alias := Some("G_" + LowerStr(fancy));
  }

  /** Importing the module: load, add aliases, patch. The import fails exactly
      when the dispatch does; otherwise the registry is the loaded one after
      the alias pass and the patch. */
  method Initialize(cfg: Config, host: Host) returns (r: Result<ToolRegistry, LoadError>)
    ensures r.Failure? <==> Dispatch(cfg, host).Failure?
    ensures r.Failure? ==> r.error == Dispatch(cfg, host).error
    ensures r.Success? ==>
      var d := Dispatch(cfg, host).value;
      && fresh(r.value)
      && d.Valid() && Aliasable(d)
      && r.value.tools == PatchUpTo(AliasPass(d), |MultiIndexTools|)
  {
    var loaded := LoadTools(cfg, host);
    match loaded {
      case Failure(e) =>
        r := Failure(e);
      case Success(d) =>
        DispatchKeyedByName(cfg, host);
        KeyedByNameAliasable(d);
        var registry := new ToolRegistry(d);
        registry.AddAliases();
        registry.PatchMultiIndex();
        r := Success(registry);
    }
  }
}
