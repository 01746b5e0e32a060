/**
 * The alias pass of gromacs/tools.py: after loading, every registered tool
 * gets a second name so that scripts written for GROMACS 4.x keep working.
 * For each entry of a snapshot of the registry, the table NAMES5TO4 is
 * scanned in order and the first 5.x name that is a prefix of the tool's
 * command name decides: a tool whose name did not change gets no alias; a
 * renamed tool gets the 4.x name with the key's suffix kept; a tool no entry
 * matches gets "G_" and its key in lower case. The new key is bound to the
 * value the entry's key holds at that moment.
 */
module Aliases {
  import opened Wrappers
  import opened Text
  import opened Identifiers
  import opened ToolDict

  /** NAMES5TO4 in its insertion order: (5.x name, 4.x name). */
  const Names5To4: seq<(string, string)> := [
    ("grompp", "grompp"), ("eneconv", "eneconv"), ("editconf", "editconf"),
    ("pdb2gmx", "pdb2gmx"), ("trjcat", "trjcat"), ("trjconv", "trjconv"),
    ("trjorder", "trjorder"), ("xpm2ps", "xpm2ps"), ("mdrun", "mdrun"),
    ("make_ndx", "make_ndx"), ("make_edi", "make_edi"), ("genrestr", "genrestr"),
    ("genion", "genion"), ("genconf", "genconf"), ("do_dssp", "do_dssp"),
    ("convert-tpr", "tpbconv"), ("dump", "gmxdump"), ("check", "gmxcheck"),
    ("solvate", "genbox"), ("distance", "g_dist"), ("sasa", "g_sas"), ("gangle", "g_sgangle")]

  lemma TableNamesNonEmpty()
    ensures forall i :: 0 <= i < |Names5To4| ==> Names5To4[i].0 != [] && Names5To4[i].1 != []
  {
  }

  /** The first table entry, from `from` on, whose 5.x name is a prefix of `name`. */
  function FirstMatch(name: string, from: nat): (r: Option<nat>)
    requires from <= |Names5To4|
    ensures r.Some? ==> from <= r.value < |Names5To4| && Names5To4[r.value].0 <= name
    ensures forall j :: from <= j < (if r.Some? then r.value else |Names5To4|) ==> !(Names5To4[j].0 <= name)
    decreases |Names5To4| - from
  {
    if from == |Names5To4| then None
    else if Names5To4[from].0 <= name then Some(from)
    else FirstMatch(name, from + 1)
  }

  /** The converse of `FirstMatch`'s contract, when there is a match: the
      first prefix from `from` on is the one found. */
  lemma {:induction false} FirstMatchAt(name: string, from: nat, i: nat)
    requires from <= i < |Names5To4| && Names5To4[i].0 <= name
    requires forall j :: from <= j < i ==> !(Names5To4[j].0 <= name)
    ensures FirstMatch(name, from) == Some(i)
    decreases i - from
  {
    if from < i {
      FirstMatchAt(name, from + 1, i);
    }
  }

  /** The converse of `FirstMatch`'s contract, when there is none. */
  lemma {:induction false} FirstMatchNone(name: string, from: nat)
    requires from <= |Names5To4|
    requires forall j :: from <= j < |Names5To4| ==> !(Names5To4[j].0 <= name)
    ensures FirstMatch(name, from) == None
    decreases |Names5To4| - from
  {
    if from < |Names5To4| {
      FirstMatchNone(name, from + 1);
    }
  }

  /** Python would not raise IndexError while computing the alias: a renamed
      tool's key contains the identifier of the matched 5.x name. */
  predicate AliasDefined(fancy: string, name: string) {
    match FirstMatch(name, 0)
    case None => true
    case Some(i) =>
      Names5To4[i].0 == Names5To4[i].1 || FindFrom(fancy, MakeValidIdentifier(Names5To4[i].0), 0).Some?
  }

  /** The key the pass writes for entry `fancy` of tool `name`, or None when it writes nothing. */
  function AliasKey(fancy: string, name: string): (r: Option<string>)
    requires AliasDefined(fancy, name)
    ensures r.None? <==>
      (FirstMatch(name, 0).Some? &&
       Names5To4[FirstMatch(name, 0).value].0 == Names5To4[FirstMatch(name, 0).value].1)
    ensures FirstMatch(name, 0).None? ==>
      (&& r.Some? && |r.value| == |fancy| + 2 && r.value[..2] == "G_"
       && forall i :: 2 <= i < |r.value| ==> !IsUpper(r.value[i]))
    ensures FirstMatch(name, 0).Some? && r.Some? ==> r.value != [] && '-' !in r.value && !IsLower(r.value[0])
  {
    match FirstMatch(name, 0)
    case None => Some("G_" + LowerStr(fancy))
    case Some(i) =>
      var (c5, c4) := Names5To4[i];
      if c4 == c5 then None
      else
        TableNamesNonEmpty();
        IdentifierShape(c5);
        Some(MakeValidIdentifier(c4 + SplitSecond(fancy, MakeValidIdentifier(c5))))
  }

  /** The alias in terms of the table itself: when no 5.x name is a prefix of
      the tool's name the alias is "G_" and the key in lower case; otherwise the
      first prefix decides alone, writing nothing for a name that did not
      change and the 4.x name with the key's suffix for one that did. */
  lemma AliasKeyByTable(fancy: string, name: string)
    requires AliasDefined(fancy, name)
    ensures (forall j :: 0 <= j < |Names5To4| ==> !(Names5To4[j].0 <= name)) ==>
      AliasKey(fancy, name) == Some("G_" + LowerStr(fancy))
    ensures forall i ::
      (0 <= i < |Names5To4| && Names5To4[i].0 <= name && forall j :: 0 <= j < i ==> !(Names5To4[j].0 <= name)) ==>
      (var (c5, c4) := Names5To4[i];
       && (c4 == c5 ==> AliasKey(fancy, name).None?)
       && (c4 != c5 ==>
            && FindFrom(fancy, MakeValidIdentifier(c5), 0).Some? && MakeValidIdentifier(c5) != []
            && AliasKey(fancy, name) == Some(MakeValidIdentifier(c4 + SplitSecond(fancy, MakeValidIdentifier(c5))))))
  {
    TableNamesNonEmpty();
    match FirstMatch(name, 0) {
      case None =>
      case Some(m) =>
        IdentifierShape(Names5To4[m].0);
        forall i | 0 <= i < |Names5To4| && Names5To4[i].0 <= name
            && (forall j :: 0 <= j < i ==> !(Names5To4[j].0 <= name))
          ensures i == m
        {
          if i != m { assert false; }
        }
    }
  }

  /** The alias of a tool renamed by entry `i`, the first whose 5.x name is a
      prefix of its name: the 4.x name with the key's text after the
      identifier of the 5.x name. */
  lemma RenamedAlias(fancy: string, name: string, i: nat)
    requires i < |Names5To4| && FirstMatch(name, 0) == Some(i)
    requires Names5To4[i].0 != Names5To4[i].1
    requires FindFrom(fancy, MakeValidIdentifier(Names5To4[i].0), 0).Some?
    ensures AliasDefined(fancy, name)
    ensures MakeValidIdentifier(Names5To4[i].0) != []
    ensures AliasKey(fancy, name) ==
      Some(MakeValidIdentifier(Names5To4[i].1 + SplitSecond(fancy, MakeValidIdentifier(Names5To4[i].0))))
  {
    TableNamesNonEmpty();
    IdentifierShape(Names5To4[i].0);
  }

  /** Keys the loaders build start with the identifier of the tool's name, and
      then the alias can always be computed. */
  lemma AliasDefinedForLoadedKey(fancy: string, name: string)
    requires MakeValidIdentifier(name) <= fancy
    ensures AliasDefined(fancy, name)
  {
    match FirstMatch(name, 0) {
      case None =>
      case Some(i) =>
        var c5 := Names5To4[i].0;
        TableNamesNonEmpty();
        IdentifierOfPrefix(c5, name);
        assert OccursAt(fancy, MakeValidIdentifier(c5), 0);
    }
  }

  /** Every entry's alias can be computed. */
  ghost predicate Aliasable(d: Dict) {
    forall k :: k in d.table ==> AliasDefined(k, d.table[k].commandName)
  }

  /** The alias written for each entry of the snapshot `d`, in its order. */
  function AliasList(d: Dict): (aliases: seq<Option<string>>)
    requires d.Valid() && Aliasable(d)
    ensures |aliases| == |d.keys|
  {
    seq(|d.keys|, i requires 0 <= i < |d.keys| => AliasKey(d.keys[i], d.table[d.keys[i]].commandName))
  }

  /** The registry after the pass has visited the first `n` entries of the
      snapshot `d`, the `i`-th of which has alias `aliases[i]`; keys the pass
      adds are not visited. */
  function AliasesUpTo(d: Dict, aliases: seq<Option<string>>, n: nat): (r: Dict)
    requires d.Valid() && |aliases| == |d.keys| && n <= |d.keys|
    ensures d.keys <= r.keys && d.table.Keys <= r.table.Keys
    decreases n
  {
    if n == 0 then d
    else AliasStep(AliasesUpTo(d, aliases, n - 1), d.keys[n - 1], aliases[n - 1])
  }

  /** One visit of the pass: entry `fancy`'s alias, if any, is bound to the
      tool `fancy` holds now. */
  function AliasStep(prev: Dict, fancy: string, alias: Option<string>): (r: Dict)
    requires fancy in prev.table
    ensures prev.Valid() ==> r.Valid()
    ensures alias.None? ==> r == prev
    ensures alias.Some? ==> alias.value in r.table && r.table[alias.value] == prev.table[fancy]
  {
    match alias
    case None => prev
    case Some(k) => prev.Put(k, prev.table[fancy])
  }

  /** The whole pass: no key is removed and the original keys keep their order. */
  function AliasPass(d: Dict): (r: Dict)
    requires d.Valid() && Aliasable(d)
    ensures r.Valid() && d.keys <= r.keys
  {
    AliasesValid(d, AliasList(d), |d.keys|);
    AliasesUpTo(d, AliasList(d), |d.keys|)
  }

  lemma {:induction false} AliasesValid(d: Dict, aliases: seq<Option<string>>, n: nat)
    requires d.Valid() && |aliases| == |d.keys| && n <= |d.keys|
    ensures AliasesUpTo(d, aliases, n).Valid()
    decreases n
  {
    if n > 0 {
      AliasesValid(d, aliases, n - 1);
    }
  }

  /** The pass adds names, never tools: every key, old or new, is bound to a
      tool that was registered before the pass. */
  lemma {:induction false} AliasesBindRegisteredTools(d: Dict, aliases: seq<Option<string>>, n: nat)
    requires d.Valid() && |aliases| == |d.keys| && n <= |d.keys|
    ensures forall k :: k in AliasesUpTo(d, aliases, n).table ==>
      AliasesUpTo(d, aliases, n).table[k] in d.table.Values
    decreases n
  {
    if n > 0 {
      AliasesBindRegisteredTools(d, aliases, n - 1);
      var prev := AliasesUpTo(d, aliases, n - 1);
      var fancy := d.keys[n - 1];
      assert fancy in prev.table;
      match aliases[n - 1] {
        case None =>
          assert AliasesUpTo(d, aliases, n) == prev;
        case Some(k) =>
          var r := AliasesUpTo(d, aliases, n);
          assert r.table == prev.table[k := prev.table[fancy]];
          forall j | j in r.table ensures r.table[j] in d.table.Values {
            if j == k {
              assert prev.table[fancy] in d.table.Values;
            } else {
              assert r.table[j] == prev.table[j];
            }
          }
      }
    }
  }

  /** Every key the pass adds is the alias of some entry of the snapshot. */
  lemma {:induction false} AliasesComeFromEntries(d: Dict, aliases: seq<Option<string>>, n: nat)
    requires d.Valid() && |aliases| == |d.keys| && n <= |d.keys|
    ensures var r := AliasesUpTo(d, aliases, n);
      forall k :: k in r.table && k !in d.table ==> Some(k) in aliases[..n]
    decreases n
  {
    if n > 0 {
      AliasesComeFromEntries(d, aliases, n - 1);
      assert aliases[..n] == aliases[..n - 1] + [aliases[n - 1]];
    }
  }

  /** When no alias is an existing key, the pass leaves every entry as it was. */
  lemma {:induction false} AliasesKeepEntries(d: Dict, aliases: seq<Option<string>>, n: nat)
    requires d.Valid() && |aliases| == |d.keys| && n <= |d.keys|
    requires forall i :: 0 <= i < |aliases| && aliases[i].Some? ==> aliases[i].value !in d.table
    ensures var r := AliasesUpTo(d, aliases, n); forall k :: k in d.table ==> r.table[k] == d.table[k]
    decreases n
  {
    if n > 0 {
      AliasesKeepEntries(d, aliases, n - 1);
      var prev, r := AliasesUpTo(d, aliases, n - 1), AliasesUpTo(d, aliases, n);
      match aliases[n - 1] {
        case None =>
          assert r == prev;
        case Some(k) =>
          assert r.table == prev.table[k := prev.table[d.keys[n - 1]]];
          assert k !in d.table;
      }
    }
  }

  /** When, moreover, distinct entries get distinct aliases, every alias is
      bound to the very tool of the entry it was made for. */
  lemma AliasesShareTools(d: Dict, aliases: seq<Option<string>>, n: nat)
    requires d.Valid() && |aliases| == |d.keys| && n <= |d.keys|
    requires forall i :: 0 <= i < |aliases| && aliases[i].Some? ==> aliases[i].value !in d.table
    requires forall i, j :: 0 <= i < j < |aliases| && aliases[i].Some? ==> aliases[i] != aliases[j]
    ensures var r := AliasesUpTo(d, aliases, n);
      forall i :: 0 <= i < n && aliases[i].Some? ==>
        aliases[i].value in r.table && r.table[aliases[i].value] == d.table[d.keys[i]]
  {
    forall i | 0 <= i < n && aliases[i].Some?
      ensures var r := AliasesUpTo(d, aliases, n);
        aliases[i].value in r.table && r.table[aliases[i].value] == d.table[d.keys[i]]
    {
      AliasBoundAt(d, aliases, n, i);
    }
  }

  /** The alias of entry `i` still names that entry's tool after entry `n - 1`. */
  lemma {:induction false} AliasBoundAt(d: Dict, aliases: seq<Option<string>>, n: nat, i: nat)
    requires d.Valid() && |aliases| == |d.keys| && i < n <= |d.keys| && aliases[i].Some?
    requires forall j :: 0 <= j < |aliases| && aliases[j].Some? ==> aliases[j].value !in d.table
    requires forall j :: i < j < |aliases| ==> aliases[j] != aliases[i]
    ensures var r := AliasesUpTo(d, aliases, n);
      aliases[i].value in r.table && r.table[aliases[i].value] == d.table[d.keys[i]]
    decreases n
  {
    if i == n - 1 {
      AliasWritten(d, aliases, i);
    } else {
      AliasBoundAt(d, aliases, n - 1, i);
      AliasStepKeeps(d, aliases, n, aliases[i].value);
    }
  }

  /** Entry `i`'s alias is bound to the tool the entry still holds. */
  lemma AliasWritten(d: Dict, aliases: seq<Option<string>>, i: nat)
    requires d.Valid() && |aliases| == |d.keys| && i < |d.keys| && aliases[i].Some?
    requires forall j :: 0 <= j < |aliases| && aliases[j].Some? ==> aliases[j].value !in d.table
    ensures var r := AliasesUpTo(d, aliases, i + 1);
      aliases[i].value in r.table && r.table[aliases[i].value] == d.table[d.keys[i]]
  {
    var prev, r := AliasesUpTo(d, aliases, i), AliasesUpTo(d, aliases, i + 1);
    var fancy := d.keys[i];
    AliasesKeepEntries(d, aliases, i);
    assert fancy in d.table && prev.table[fancy] == d.table[fancy];
    assert r.table == prev.table[aliases[i].value := prev.table[fancy]];
  }

  /** Visiting entry `n - 1` leaves every key other than its alias as it was. */
  lemma AliasStepKeeps(d: Dict, aliases: seq<Option<string>>, n: nat, key: string)
    requires d.Valid() && |aliases| == |d.keys| && 0 < n <= |d.keys|
    requires key in AliasesUpTo(d, aliases, n - 1).table && aliases[n - 1] != Some(key)
    ensures var prev, r := AliasesUpTo(d, aliases, n - 1), AliasesUpTo(d, aliases, n);
      key in r.table && r.table[key] == prev.table[key]
  {
    var prev, r := AliasesUpTo(d, aliases, n - 1), AliasesUpTo(d, aliases, n);
    match aliases[n - 1] {
      case None =>
        assert r == prev;
      case Some(k) =>
        assert d.keys[n - 1] in prev.table;
        assert r.table == prev.table[k := prev.table[d.keys[n - 1]]];
    }
  }
}
