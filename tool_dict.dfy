/**
 * What the registry holds (gromacs/tools.py): a tool is the command name the
 * driver knows it by, the driver it runs under (none for 4.x tools) and
 * whether it merges several index files before running. The registry itself is
 * a Python dict: keys keep the order of their first insertion, and writing an
 * existing key replaces its value in place.
 */
module ToolDict {
  import opened Wrappers

  datatype Tool = Tool(commandName: string, driver: Option<string>, multiIndex: bool)

  datatype Dict = Dict(keys: seq<string>, table: map<string, Tool>) {

    /** The keys list exactly the table's keys, each once. */
    ghost predicate Valid() {
      && (forall k :: k in table <==> k in keys)
      && (forall i, j :: 0 <= i < j < |keys| ==> keys[i] != keys[j])
    }

    /** `d[key] = tool`. */
    function Put(key: string, tool: Tool): (r: Dict)
      ensures Valid() ==> r.Valid()
      ensures keys <= r.keys && |r.keys| <= |keys| + 1
      ensures r.table == table[key := tool]
      ensures key in table ==> r.keys == keys
    {
      if key in table then Dict(keys, table[key := tool]) else Dict(keys + [key], table[key := tool])
    }
  }

  const Empty: Dict := Dict([], map[])

  /** The assignments `d[key] = tool`, one for each pair of `writes`, in order. */
  function PutAll(d: Dict, writes: seq<(string, Tool)>): (r: Dict)
    ensures d.Valid() ==> r.Valid()
    decreases |writes|
  {
    if writes == [] then d
    else PutAll(d, writes[..|writes| - 1]).Put(writes[|writes| - 1].0, writes[|writes| - 1].1)
  }

  /** Two runs of assignments are one run of both. */
  lemma {:induction false} PutAllAppend(d: Dict, a: seq<(string, Tool)>, b: seq<(string, Tool)>)
    ensures PutAll(d, a + b) == PutAll(PutAll(d, a), b)
    decreases |b|
  {
    if b == [] {
      assert a + b == a;
    } else {
      PutAllAppend(d, a, b[..|b| - 1]);
      assert (a + b)[..|a + b| - 1] == a + b[..|b| - 1];
    }
  }

  /** `writes[i]` is the last assignment to its key. */
  predicate LastWrite(writes: seq<(string, Tool)>, i: int) {
    0 <= i < |writes| && forall j :: i < j < |writes| ==> writes[j].0 != writes[i].0
  }

  /** The last assignment to a key decides what it holds. */
  lemma {:induction false} PutAllLast(d: Dict, writes: seq<(string, Tool)>, i: nat)
    requires LastWrite(writes, i)
    ensures writes[i].0 in PutAll(d, writes).table && PutAll(d, writes).table[writes[i].0] == writes[i].1
    decreases |writes|
  {
    if i < |writes| - 1 {
      PutAllLast(d, writes[..|writes| - 1], i);
    }
  }

  /** A key no assignment names keeps its presence and its value. */
  lemma {:induction false} PutAllUntouched(d: Dict, writes: seq<(string, Tool)>, key: string)
    requires forall j :: 0 <= j < |writes| ==> writes[j].0 != key
    ensures key in PutAll(d, writes).table <==> key in d.table
    ensures key in d.table ==> PutAll(d, writes).table[key] == d.table[key]
    decreases |writes|
  {
    if writes != [] {
      PutAllUntouched(d, writes[..|writes| - 1], key);
    }
  }
}
