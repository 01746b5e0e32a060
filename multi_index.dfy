/**
 * Multiple index files (gromacs/tools.py): the registry patch that makes
 * `G_mindist` and `G_dist` merge several index files before running,
 * `merge_ndx`, which sorts its arguments into index files and one structure
 * file and asks `Make_ndx` for a merged file, and `_fake_multi_ndx`, which
 * rewrites a command's keyword arguments. The temporary file, its removal at
 * exit and running Make_ndx are outside the model: the path mkstemp returns
 * is an input and the call to Make_ndx is returned as a value.
 */
module MultiIndex {
  import opened Wrappers
  import opened Text
  import opened ToolDict

  // ---------------------------------------------------------------------------
  // The registry patch

  /** The patched tools: (legacy key, 5.x key). */
  const MultiIndexTools: seq<(string, string)> := [("G_mindist", "Mindist"), ("G_dist", "Distance")]

  /** One step of the patch: a present `name4` becomes a multi-index tool with
      the same command and driver, and `name5`, only if present, is rebound to
      it; nothing else changes, and nothing changes when `name4` is absent. */
  function PatchOne(d: Dict, name4: string, name5: string): (r: Dict)
    requires name4 != name5
    ensures r.keys == d.keys && r.table.Keys == d.table.Keys
    ensures name4 !in d.table ==> r == d
    ensures name4 in d.table ==>
      r.table[name4] == Tool(d.table[name4].commandName, d.table[name4].driver, true)
    ensures name4 in d.table && name5 in d.table ==> r.table[name5] == r.table[name4]
    ensures forall k :: k in d.table && k != name4 && k != name5 ==> r.table[k] == d.table[k]
  {
    if name4 in d.table then
      var cmd := d.table[name4];
      var patched := d.Put(name4, Tool(cmd.commandName, cmd.driver, true));
      if name5 in patched.table then patched.Put(name5, patched.table[name4]) else patched
    else
      d
  }

  /** The patch applied for the first `n` pairs of MultiIndexTools, in order. */
  function PatchUpTo(d: Dict, n: nat): (r: Dict)
    requires n <= |MultiIndexTools|
    ensures r.keys == d.keys && r.table.Keys == d.table.Keys
    ensures forall k :: k in d.table && k !in {"G_mindist", "Mindist", "G_dist", "Distance"} ==>
      r.table[k] == d.table[k]
  {
    if n == 0 then d
    else PatchOne(PatchUpTo(d, n - 1), MultiIndexTools[n - 1].0, MultiIndexTools[n - 1].1)
  }

  /** After the whole patch, each present legacy key holds a multi-index tool
      with its old command and driver, its 5.x key (if present) shares it,
      and every other entry and the key order are as before. */
  lemma PatchMultiIndexEffect(d: Dict)
    ensures var r := PatchUpTo(d, |MultiIndexTools|);
      && r.keys == d.keys && r.table.Keys == d.table.Keys
      && PatchedPair(d, r, "G_mindist", "Mindist")
      && PatchedPair(d, r, "G_dist", "Distance")
      && (forall k :: k in d.table && k !in {"G_mindist", "Mindist", "G_dist", "Distance"} ==>
            r.table[k] == d.table[k])
  {
    assert MultiIndexTools[0] == ("G_mindist", "Mindist");
    assert MultiIndexTools[1] == ("G_dist", "Distance");
    var d1 := PatchOne(d, "G_mindist", "Mindist");
    assert PatchUpTo(d, 1) == d1;
    assert PatchUpTo(d, 2) == PatchOne(d1, "G_dist", "Distance");
  }

  /** The effect of the patch on one pair of keys, from registry `d` to `r`. */
  ghost predicate PatchedPair(d: Dict, r: Dict, name4: string, name5: string)
    requires d.table.Keys == r.table.Keys
  {
    && (name4 in d.table ==>
          r.table[name4] == Tool(d.table[name4].commandName, d.table[name4].driver, true))
    && (name4 in d.table && name5 in d.table ==> r.table[name5] == r.table[name4])
    && (name4 !in d.table && name5 in d.table ==> r.table[name5] == d.table[name5])
  }

  // ---------------------------------------------------------------------------
  // merge_ndx

  datatype MergeError =
    | ValueError  // "only one structure file supported"
    | KeyError    // the registry has no Make_ndx

  /** The Make_ndx invocation merge_ndx makes: `f` only for a non-empty
      structure file, the index files as `n`, and the new file as `o`, which
      is also the path merge_ndx returns. */
  datatype MakeNdxCall = MakeNdxCall(structure: Option<string>, indexes: seq<string>, output: string)

  /** The arguments that end in ".ndx", in their order. */
  function IndexFiles(args: seq<string>): (r: seq<string>)
    ensures |r| <= |args|
    ensures forall i :: 0 <= i < |r| ==> EndsWith(r[i], ".ndx")
    decreases |args|
  {
    if args == [] then []
    else
      var last := args[|args| - 1];
      assert args == args[..|args| - 1] + [last];
      IndexFiles(args[..|args| - 1]) + (if EndsWith(last, ".ndx") then [last] else [])
  }

  /** The other arguments, in their order. */
  function OtherFiles(args: seq<string>): (r: seq<string>)
    ensures |r| <= |args|
    ensures forall i :: 0 <= i < |r| ==> !EndsWith(r[i], ".ndx")
    decreases |args|
  {
    if args == [] then []
    else
      var last := args[|args| - 1];
      assert args == args[..|args| - 1] + [last];
      OtherFiles(args[..|args| - 1]) + (if EndsWith(last, ".ndx") then [] else [last])
  }

  /** Filtering a concatenation filters each part: the index files keep the
      order of the arguments. */
  lemma {:induction false} IndexFilesAppend(a: seq<string>, b: seq<string>)
    ensures IndexFiles(a + b) == IndexFiles(a) + IndexFiles(b)
    decreases |b|
  {
    if b == [] {
      assert a + b == a;
    } else {
      var init := b[..|b| - 1];
      IndexFilesAppend(a, init);
      assert (a + b)[..|a + b| - 1] == a + init;
    }
  }

  /** A single argument is an index file exactly when it ends in ".ndx". */
  lemma IndexFilesSingle(x: string)
    ensures IndexFiles([x]) == if EndsWith(x, ".ndx") then [x] else []
  {
    assert [x][..0] == [];
  }

  /** The other arguments keep their order too. */
  lemma {:induction false} OtherFilesAppend(a: seq<string>, b: seq<string>)
    ensures OtherFiles(a + b) == OtherFiles(a) + OtherFiles(b)
    decreases |b|
  {
    if b == [] {
      assert a + b == a;
    } else {
      var init := b[..|b| - 1];
      OtherFilesAppend(a, init);
      assert (a + b)[..|a + b| - 1] == a + init;
    }
  }

  /** A single argument is a structure candidate exactly when it does not end in ".ndx". */
  lemma OtherFilesSingle(x: string)
    ensures OtherFiles([x]) == if EndsWith(x, ".ndx") then [] else [x]
  {
    assert [x][..0] == [];
  }

  /** The two filters split the arguments: each argument lands in exactly one
      of them, and their lengths add up. */
  lemma {:induction false} FilesPartition(args: seq<string>)
    ensures forall a :: a in IndexFiles(args) <==> a in args && EndsWith(a, ".ndx")
    ensures forall a :: a in OtherFiles(args) <==> a in args && !EndsWith(a, ".ndx")
    ensures |IndexFiles(args)| + |OtherFiles(args)| == |args|
    decreases |args|
  {
    if args != [] {
      var init := args[..|args| - 1];
      FilesPartition(init);
      assert args == init + [args[|args| - 1]];
    }
  }

  /** merge_ndx: raises ValueError at a second non-index argument and KeyError
      without Make_ndx; otherwise merges the index files in their order with
      the structure file, if any, into `tempPath`. */
  method MergeNdx(args: seq<string>, registry: Dict, tempPath: string) returns (r: Result<MakeNdxCall, MergeError>)
    ensures |OtherFiles(args)| > 1 ==> r == Failure(ValueError)
    ensures |OtherFiles(args)| <= 1 && "Make_ndx" !in registry.table ==> r == Failure(KeyError)
    ensures |OtherFiles(args)| <= 1 && "Make_ndx" in registry.table ==>
      var others := OtherFiles(args);
      r == Success(MakeNdxCall(if others != [] && others[0] != "" then Some(others[0]) else None,
                               IndexFiles(args), tempPath))
  {
    var ndxs: seq<string> := [];
    var struct: Option<string> := None;
    for i := 0 to |args|
      invariant ndxs == IndexFiles(args[..i])
      invariant |OtherFiles(args[..i])| <= 1
      invariant struct == if OtherFiles(args[..i]) == [] then None else Some(OtherFiles(args[..i])[0])
    {
      assert args[..i + 1][..i] == args[..i];
      var fname := args[i];
      if EndsWith(fname, ".ndx") {
        ndxs := ndxs + [fname];
      } else {
        if struct.Some? {
          assert OtherFiles(args[..i + 1]) == OtherFiles(args[..i]) + [fname];
          OtherFilesGrow(args, i + 1, |args|);
          assert args[..|args|] == args;
          assert |OtherFiles(args)| > 1;
          return Failure(ValueError);
        }
        struct := Some(fname);
      }
    }
    assert args[..|args|] == args;
    if "Make_ndx" !in registry.table {
      return Failure(KeyError);
    }
    var f := if struct.Some? && struct.value != "" then struct else None;
    r := Success(MakeNdxCall(f, ndxs, tempPath));
  }

  lemma {:induction false} OtherFilesGrow(args: seq<string>, i: nat, j: nat)
    requires i <= j <= |args|
    ensures |OtherFiles(args[..i])| <= |OtherFiles(args[..j])|
    decreases j - i
  {
    if i < j {
      OtherFilesGrow(args, i, j - 1);
      assert args[..j][..j - 1] == args[..j - 1];
    }
  }

  // ---------------------------------------------------------------------------
  // _fake_multi_ndx

  /** A Python list of file names, shared between the caller and the callee. */
  class NameList {
    var items: seq<string>

    constructor (items: seq<string>)
      ensures this.items == items
    {
      this.items := items;
    }
  }

  /** The values `n` and `s` can take: None, one path, or a list of paths. */
  datatype Kwarg = NoValue | Text(text: string) | List(list: NameList)

  /** `kwargs.get(key)`. */
  function Get(kwargs: map<string, Kwarg>, key: string): Kwarg {
    if key in kwargs then kwargs[key] else NoValue
  }

  /** _fake_multi_ndx: when `n` is a list of more than one path and `s` is
      given, `s` is appended to that very list (the caller sees it) and `n`
      becomes the merged file; otherwise the arguments are returned unchanged.
      A failing merge_ndx propagates after the append. */
  method FakeMultiNdx(kwargs: map<string, Kwarg>, registry: Dict, tempPath: string)
    returns (r: Result<map<string, Kwarg>, MergeError>)
    requires Get(kwargs, "n").List? && "s" in kwargs ==> kwargs["s"].Text?
    modifies if Get(kwargs, "n").List? then {Get(kwargs, "n").list} else {}
    ensures var n := Get(kwargs, "n");
      if n.List? && |old(n.list.items)| > 1 && "s" in kwargs then
        var args := old(n.list.items) + [kwargs["s"].text];
        && n.list.items == args
        && (|OtherFiles(args)| > 1 ==> r == Failure(ValueError))
        && (|OtherFiles(args)| <= 1 && "Make_ndx" !in registry.table ==> r == Failure(KeyError))
        && (|OtherFiles(args)| <= 1 && "Make_ndx" in registry.table ==>
              r == Success(kwargs["n" := Text(tempPath)]))
      else
        r == Success(kwargs) && (n.List? ==> n.list.items == old(n.list.items))
  {
    var ndx := Get(kwargs, "n");
    if ndx.List? && |ndx.list.items| > 1 && "s" in kwargs {
      ndx.list.items := ndx.list.items + [kwargs["s"].text];
      var merged := MergeNdx(ndx.list.items, registry, tempPath);
      match merged {
        case Failure(e) =>
          r := Failure(e);
        case Success(call) =>
          r := Success(kwargs["n" := Text(call.output)]);
      }
    } else {
      r := Success(kwargs);
    }
  }
}
