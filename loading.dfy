/**
 * Discovering the installed tools (gromacs/tools.py: find_executables,
 * load_v5_tools, load_v4_tools and the release dispatch that picks one).
 * The file system, the environment and running a driver are inputs: `Host`
 * says what GMXBIN lists, which entries are executable or directories, and
 * what each driver prints for `-quiet help commands` (nothing when running it
 * raises CalledProcessError or OSError). `Config` holds the values read from
 * the configuration file.
 */
module Loading {
  import opened Wrappers
  import opened Text
  import opened Identifiers
  import opened ToolDict
  import opened HelpParsing

  /** GromacsToolLoadingError, one constructor per message. */
  datatype LoadError =
    | V5LoadError(triedDrivers: seq<string>)
    | V4LoadError
    | AutoloadError

  datatype Host = Host(
    gmxbin: Option<seq<string>>,
    isExecutable: string -> bool,
    isDirectory: string -> bool,
    helpCommands: string -> Option<string>)

  datatype Config = Config(
    toolNames: seq<string>,
    extraToolNames: seq<string>,
    appendSuffix: bool,
    majorRelease: Option<string>)

  /** Helper scripts of a GROMACS installation that are not tools. */
  const NotTools: seq<string> :=
    ["GMXRC", "GMXRC.bash", "GMXRC.csh", "GMXRC.zsh", "demux.pl", "xplor2gmx.pl"]

  /** The drivers tried when none (or implausibly many) are configured. */
  const DefaultDrivers: seq<string> := ["gmx", "gmx_d", "gmx_mpi", "gmx_mpi_d"]

  /** The major releases that select 5.x-style loading. */
  const V5Releases: seq<string> :=
    ["5", "2016", "2018", "2019", "2020", "2021", "2022", "2023"]

  /** The tools of a standard GROMACS 4.x installation. */
  const V4ToolNames: seq<string> := [
    "g_cluster", "g_dyndom", "g_mdmat", "g_principal", "g_select", "g_wham", "mdrun",
    "do_dssp", "g_clustsize", "g_enemat", "g_membed", "g_protonate", "g_sgangle", "g_wheel",
    "mdrun_d", "editconf", "g_confrms", "g_energy", "g_mindist", "g_rama", "g_sham", "g_x2top",
    "mk_angndx", "eneconv", "g_covar", "g_filter", "g_morph", "g_rdf", "g_sigeps", "genbox",
    "pdb2gmx", "g_anadock", "g_current", "g_gyrate", "g_msd", "g_sorient", "genconf",
    "g_anaeig", "g_density", "g_h2order", "g_nmeig", "g_rms", "g_spatial", "genion", "tpbconv",
    "g_analyze", "g_densmap", "g_hbond", "g_nmens", "g_rmsdist", "g_spol", "genrestr",
    "trjcat", "g_angle", "g_dielectric", "g_helix", "g_nmtraj", "g_rmsf", "g_tcaf", "gmxcheck",
    "trjconv", "g_bar", "g_dih", "g_helixorient", "g_order", "g_rotacf", "g_traj", "gmxdump",
    "trjorder", "g_bond", "g_dipoles", "g_kinetics", "g_pme_error", "g_rotmat", "g_tune_pme",
    "grompp", "g_bundle", "g_disre", "g_lie", "g_polystat", "g_saltbr", "g_vanhove",
    "make_edi", "xpm2ps", "g_chi", "g_dist", "g_luck", "g_potential", "g_sas", "g_velacc",
    "make_ndx"]

  // ---------------------------------------------------------------------------
  // find_executables

  predicate Usable(entry: string, isExecutable: string -> bool, isDirectory: string -> bool) {
    isExecutable(entry) && !isDirectory(entry) && entry !in NotTools
  }

  /** The usable entries of a directory listing, in listing order. */
  function Executables(entries: seq<string>, isExecutable: string -> bool, isDirectory: string -> bool)
    : (r: seq<string>)
    ensures forall e :: e in r <==> e in entries && Usable(e, isExecutable, isDirectory)
    ensures |r| <= |entries|
    decreases |entries|
  {
    if entries == [] then []
    else
      var init := Executables(entries[..|entries| - 1], isExecutable, isDirectory);
      var last := entries[|entries| - 1];
      assert entries == entries[..|entries| - 1] + [last];
      if Usable(last, isExecutable, isDirectory) then init + [last] else init
  }

  method FindExecutables(entries: seq<string>, isExecutable: string -> bool, isDirectory: string -> bool)
    returns (execs: seq<string>)
    ensures execs == Executables(entries, isExecutable, isDirectory)
  {
    execs := [];
    for i := 0 to |entries|
      invariant execs == Executables(entries[..i], isExecutable, isDirectory)
    {
      assert entries[..i + 1][..i] == entries[..i];
      var exe := entries[i];
      if isExecutable(exe) && !isDirectory(exe) && exe !in NotTools {
        execs := execs + [exe];
      }
    }
    assert entries[..|entries|] == entries;
  }

  /** The configured names, or the GMXBIN listing when none are configured. */
  function Candidates(configured: seq<string>, host: Host): (r: seq<string>)
    ensures |configured| > 0 || host.gmxbin.None? ==> r == configured
    ensures |configured| == 0 && host.gmxbin.Some? ==>
      forall e :: e in r <==> e in host.gmxbin.value && Usable(e, host.isExecutable, host.isDirectory)
  {
    if |configured| == 0 && host.gmxbin.Some? then
      Executables(host.gmxbin.value, host.isExecutable, host.isDirectory)
    else
      configured
  }

  // ---------------------------------------------------------------------------
  // load_v5_tools

  function V5Drivers(cfg: Config, host: Host): (drivers: seq<string>)
    ensures 1 <= |drivers| <= 4
    ensures var c := Candidates(cfg.toolNames, host);
      (|c| == 0 || |c| > 4 ==> drivers == DefaultDrivers) && (1 <= |c| <= 4 ==> drivers == c)
  {
    var c := Candidates(cfg.toolNames, host);
    if |c| == 0 || |c| > 4 then DefaultDrivers else c
  }

  /** The registry key of tool `name` run by `driver`: the identifier, plus
      the driver's text after its first '_' when there is any and the append
      policy is on. */
  function V5Key(name: string, driver: string, append: bool): (key: string)
    ensures MakeValidIdentifier(name) <= key
    ensures AfterFirst(driver, '_') == [] || !append ==> key == MakeValidIdentifier(name)
    ensures AfterFirst(driver, '_') != [] && append ==>
      key == MakeValidIdentifier(name) + "_" + AfterFirst(driver, '_')
  {
    var fancy := MakeValidIdentifier(name);
    var suffix := AfterFirst(driver, '_');
    if suffix != [] && append then fancy + "_" + suffix else fancy
  }

  /** `d[key] == tool` is what reading `name` off one of `names` for `driver` stores. */
  predicate CommandEntry(key: string, tool: Tool, driver: string, names: seq<string>, append: bool) {
    && tool == Tool(tool.commandName, Some(driver), false)
    && tool.commandName in names
    && key == V5Key(tool.commandName, driver, append)
  }

  /** The inner loop of load_v5_tools: store every tool the listed lines name. */
  function AddCommands(d: Dict, lines: seq<string>, driver: string, append: bool): (r: Dict)
    ensures d.Valid() ==> r.Valid()
    ensures d.keys <= r.keys && d.table.Keys <= r.table.Keys
    decreases |lines|
  {
    if lines == [] then d
    else
      var prev := AddCommands(d, lines[..|lines| - 1], driver, append);
      match ParseCommandLine(lines[|lines| - 1])
      case None => prev
      case Some(name) => prev.Put(V5Key(name, driver, append), Tool(name, Some(driver), false))
  }

  /** Reading one driver's lines keeps or overwrites earlier entries, stores
      only tools those lines name, and stores every one of them. */
  lemma AddCommandsEntries(d: Dict, lines: seq<string>, driver: string, append: bool)
    ensures var r := AddCommands(d, lines, driver, append);
      && (forall k :: k in r.table ==>
            (k in d.table && r.table[k] == d.table[k]) || CommandEntry(k, r.table[k], driver, Names(lines), append))
      && (forall n :: n in Names(lines) ==> V5Key(n, driver, append) in r.table)
  {
    AddCommandsSound(d, lines, driver, append);
    AddCommandsComplete(d, lines, driver, append);
  }

  lemma {:induction false} AddCommandsSound(d: Dict, lines: seq<string>, driver: string, append: bool)
    ensures var r := AddCommands(d, lines, driver, append);
      forall k :: k in r.table ==>
        (k in d.table && r.table[k] == d.table[k]) || CommandEntry(k, r.table[k], driver, Names(lines), append)
    decreases |lines|
  {
    if lines != [] {
      var init, last := lines[..|lines| - 1], lines[|lines| - 1];
      AddCommandsSound(d, init, driver, append);
      var prev := AddCommands(d, init, driver, append);
      var r := AddCommands(d, lines, driver, append);
      assert forall n :: n in Names(init) ==> n in Names(lines);
      match ParseCommandLine(last) {
        case None =>
          assert Names(lines) == Names(init);
        case Some(name) =>
          assert Names(lines) == Names(init) + [name];
          var key := V5Key(name, driver, append);
          assert r.table == prev.table[key := Tool(name, Some(driver), false)];
          assert CommandEntry(key, r.table[key], driver, Names(lines), append);
      }
    }
  }

  lemma {:induction false} AddCommandsComplete(d: Dict, lines: seq<string>, driver: string, append: bool)
    ensures var r := AddCommands(d, lines, driver, append);
      forall n :: n in Names(lines) ==> V5Key(n, driver, append) in r.table
    decreases |lines|
  {
    if lines != [] {
      var init, last := lines[..|lines| - 1], lines[|lines| - 1];
      AddCommandsComplete(d, init, driver, append);
      match ParseCommandLine(last) {
        case None =>
          assert Names(lines) == Names(init);
        case Some(name) =>
          assert Names(lines) == Names(init) + [name];
      }
    }
  }

  /** The assignments the inner loop of load_v5_tools makes, in order: one
      for each line that names a tool. */
  function LineWrites(lines: seq<string>, driver: string, append: bool): (w: seq<(string, Tool)>)
    ensures |w| <= |lines|
    decreases |lines|
  {
    if lines == [] then []
    else
      LineWrites(lines[..|lines| - 1], driver, append) +
      match ParseCommandLine(lines[|lines| - 1])
      case None => []
      case Some(name) => [(V5Key(name, driver, append), Tool(name, Some(driver), false))]
  }

  /** The inner loop is exactly those assignments. */
  lemma {:induction false} AddCommandsWrites(d: Dict, lines: seq<string>, driver: string, append: bool)
    ensures AddCommands(d, lines, driver, append) == PutAll(d, LineWrites(lines, driver, append))
    decreases |lines|
  {
    if lines != [] {
      var init := lines[..|lines| - 1];
      AddCommandsWrites(d, init, driver, append);
      var w := LineWrites(init, driver, append);
      match ParseCommandLine(lines[|lines| - 1]) {
        case None =>
          assert LineWrites(lines, driver, append) == w + [];
          assert w + [] == w;
        case Some(name) =>
          var entry := (V5Key(name, driver, append), Tool(name, Some(driver), false));
          assert LineWrites(lines, driver, append) == w + [entry];
          assert (w + [entry])[..|w|] == w;
      }
    }
  }

  /** `driver` ran and listed tool `name`. */
  predicate Reported(driver: string, host: Host, name: string) {
    host.helpCommands(driver).Some? && name in CommandNames(host.helpCommands(driver).value)
  }

  /** `d[key] == tool` is what load_v5_tools stores for one of `drivers`. */
  predicate V5Entry(key: string, tool: Tool, drivers: seq<string>, host: Host, append: bool) {
    && tool.driver.Some? && tool.driver.value in drivers
    && Reported(tool.driver.value, host, tool.commandName)
    && tool == Tool(tool.commandName, tool.driver, false)
    && key == V5Key(tool.commandName, tool.driver.value, append)
  }

  /** The outer loop of load_v5_tools: each driver that runs adds the tools it
      lists; one that fails adds nothing. */
  function AddDrivers(d: Dict, drivers: seq<string>, host: Host, append: bool): (r: Dict)
    ensures d.Valid() ==> r.Valid()
    ensures d.keys <= r.keys && d.table.Keys <= r.table.Keys
    decreases |drivers|
  {
    if drivers == [] then d
    else
      var driver := drivers[|drivers| - 1];
      var prev := AddDrivers(d, drivers[..|drivers| - 1], host, append);
      match host.helpCommands(driver)
      case None => prev
      case Some(out) => AddCommands(prev, ListedLines(SplitLines(out, ByteLineBreaks)), driver, append)
  }

  /** The assignments load_v5_tools makes, in order: driver by driver, and
      within a driver that ran, line by line. */
  function DriverWrites(drivers: seq<string>, host: Host, append: bool): (w: seq<(string, Tool)>)
    decreases |drivers|
  {
    if drivers == [] then []
    else
      var driver := drivers[|drivers| - 1];
      DriverWrites(drivers[..|drivers| - 1], host, append) +
      match host.helpCommands(driver)
      case None => []
      case Some(out) => LineWrites(ListedLines(SplitLines(out, ByteLineBreaks)), driver, append)
  }

  /** The outer loop is exactly those assignments. */
  lemma {:induction false} AddDriversWrites(d: Dict, drivers: seq<string>, host: Host, append: bool)
    ensures AddDrivers(d, drivers, host, append) == PutAll(d, DriverWrites(drivers, host, append))
    decreases |drivers|
  {
    if drivers != [] {
      var init, driver := drivers[..|drivers| - 1], drivers[|drivers| - 1];
      AddDriversWrites(d, init, host, append);
      var w := DriverWrites(init, host, append);
      match host.helpCommands(driver) {
        case None =>
          assert DriverWrites(drivers, host, append) == w + [];
          assert w + [] == w;
        case Some(out) =>
          var lines := ListedLines(SplitLines(out, ByteLineBreaks));
          AddCommandsWrites(PutAll(d, w), lines, driver, append);
          PutAllAppend(d, w, LineWrites(lines, driver, append));
      }
    }
  }

  /** Every entry the drivers add is a tool a driver that ran listed, stored
      under its key, and every such tool is stored. */
  lemma {:induction false} AddDriversEntries(d: Dict, drivers: seq<string>, host: Host, append: bool)
    ensures var r := AddDrivers(d, drivers, host, append);
      && (forall k :: k in r.table ==>
            (k in d.table && r.table[k] == d.table[k]) || V5Entry(k, r.table[k], drivers, host, append))
      && (forall driver, n :: driver in drivers && Reported(driver, host, n) ==>
            V5Key(n, driver, append) in r.table)
    decreases |drivers|
  {
    if drivers != [] {
      var init, driver := drivers[..|drivers| - 1], drivers[|drivers| - 1];
      AddDriversEntries(d, init, host, append);
      var prev := AddDrivers(d, init, host, append);
      var r := AddDrivers(d, drivers, host, append);
      assert forall x :: x in drivers <==> x in init || x == driver;
      match host.helpCommands(driver) {
        case None =>
        case Some(out) =>
          var lines := ListedLines(SplitLines(out, ByteLineBreaks));
          AddCommandsEntries(prev, lines, driver, append);
          assert Names(lines) == CommandNames(out);
          forall k | k in r.table && !(k in prev.table && r.table[k] == prev.table[k])
            ensures V5Entry(k, r.table[k], drivers, host, append)
          {
            assert CommandEntry(k, r.table[k], driver, Names(lines), append);
          }
      }
    }
  }

  function V5Tools(cfg: Config, host: Host): (r: Result<Dict, LoadError>)
    ensures r.Failure? ==> r.error == V5LoadError(V5Drivers(cfg, host))
    ensures r.Success? ==> r.value.Valid() && r.value.keys != []
  {
    assert Empty.Valid();
    var drivers := V5Drivers(cfg, host);
    var tools := AddDrivers(Empty, drivers, host, cfg.appendSuffix);
    if tools.keys == [] then Failure(V5LoadError(drivers)) else Success(tools)
  }

  /** The drivers load_v5_tools tries. */
  method ChooseDrivers(cfg: Config, host: Host) returns (drivers: seq<string>)
    ensures drivers == V5Drivers(cfg, host)
  {
    drivers := cfg.toolNames;
    if |drivers| == 0 && host.gmxbin.Some? {
      drivers := FindExecutables(host.gmxbin.value, host.isExecutable, host.isDirectory);
    }
    if |drivers| == 0 || |drivers| > 4 {
      drivers := DefaultDrivers;
    }
  }

  method LoadV5Tools(cfg: Config, host: Host) returns (r: Result<Dict, LoadError>)
    ensures r == V5Tools(cfg, host)
  {
    var drivers := ChooseDrivers(cfg, host);
    var tools := ReadDrivers(drivers, host, cfg.appendSuffix);
    if tools.keys == [] {
      r := Failure(V5LoadError(drivers));
    } else {
      r := Success(tools);
    }
  }

  /** The outer loop of load_v5_tools: run each driver and read what it lists. */
  method ReadDrivers(drivers: seq<string>, host: Host, append: bool) returns (tools: Dict)
    ensures tools == AddDrivers(Empty, drivers, host, append)
  {
    tools := Empty;
    for i := 0 to |drivers|
      invariant tools == AddDrivers(Empty, drivers[..i], host, append)
    {
      assert drivers[..i + 1][..i] == drivers[..i];
      var driver := drivers[i];
      var suffix := AfterFirst(driver, '_');
      match host.helpCommands(driver) {
        case None =>
        case Some(out) =>
          tools := ReadCommands(tools, ListedLines(SplitLines(out, ByteLineBreaks)), driver, suffix, append);
      }
    }
    assert drivers[..|drivers|] == drivers;
  }

  /** The inner loop of load_v5_tools: store each tool the lines list under its key. */
  method ReadCommands(tools: Dict, lines: seq<string>, driver: string, suffix: string, append: bool)
    returns (r: Dict)
    requires suffix == AfterFirst(driver, '_')
    ensures r == AddCommands(tools, lines, driver, append)
  {
    r := tools;
    for j := 0 to |lines|
      invariant r == AddCommands(tools, lines[..j], driver, append)
    {
      assert lines[..j + 1][..j] == lines[..j];
      match ParseCommandLine(lines[j]) {
        case None =>
        case Some(name) =>
          var fancy := MakeValidIdentifier(name);
          if suffix != [] && append {
            fancy := fancy + "_" + suffix;
          }
          r := r.Put(fancy, Tool(name, Some(driver), false));
      }
    }
    assert lines[..|lines|] == lines;
  }

  /** load_v5_tools raises exactly when no driver it tries lists any tool;
      otherwise every entry is a tool some driver listed, under its key. */
  lemma V5Outcome(cfg: Config, host: Host)
    ensures var drivers := V5Drivers(cfg, host);
      && (V5Tools(cfg, host).Failure? <==>
          forall driver, n :: driver in drivers ==> !Reported(driver, host, n))
      && (V5Tools(cfg, host).Failure? ==> V5Tools(cfg, host).error == V5LoadError(drivers))
      && (V5Tools(cfg, host).Success? ==>
          var d := V5Tools(cfg, host).value;
          && d.Valid()
          && (forall k :: k in d.table ==> V5Entry(k, d.table[k], drivers, host, cfg.appendSuffix))
          && (forall driver, n :: driver in drivers && Reported(driver, host, n) ==>
                V5Key(n, driver, cfg.appendSuffix) in d.table))
  {
    var drivers := V5Drivers(cfg, host);
    var d := AddDrivers(Empty, drivers, host, cfg.appendSuffix);
    assert Empty.Valid();
    AddDriversEntries(Empty, drivers, host, cfg.appendSuffix);
    if d.keys == [] {
      assert forall k :: k !in d.table;
    } else {
      var k := d.keys[0];
      assert k in d.table;
      assert V5Entry(k, d.table[k], drivers, host, cfg.appendSuffix);
    }
  }

  /** When two listed tools share a key, the key keeps the tool of the last
      assignment in load_v5_tools' order; a key that is assigned once keeps
      that one tool. */
  lemma V5LastWriter(cfg: Config, host: Host)
    ensures var w := DriverWrites(V5Drivers(cfg, host), host, cfg.appendSuffix);
      V5Tools(cfg, host).Success? ==>
        forall i :: LastWrite(w, i) ==>
          w[i].0 in V5Tools(cfg, host).value.table && V5Tools(cfg, host).value.table[w[i].0] == w[i].1
  {
    var drivers := V5Drivers(cfg, host);
    var w := DriverWrites(drivers, host, cfg.appendSuffix);
    AddDriversWrites(Empty, drivers, host, cfg.appendSuffix);
    forall i | LastWrite(w, i)
      ensures w[i].0 in PutAll(Empty, w).table && PutAll(Empty, w).table[w[i].0] == w[i].1
    {
      PutAllLast(Empty, w, i);
    }
  }

  // ---------------------------------------------------------------------------
  // load_v4_tools

  /** The 4.x names: the candidates, or the built-in list when there are none
      or more than four times its size, followed by the extra names. */
  function V4Names(cfg: Config, host: Host): (names: seq<string>)
    ensures |names| > |cfg.extraToolNames|
    ensures names[|names| - |cfg.extraToolNames|..] == cfg.extraToolNames
    ensures var c := Candidates(cfg.toolNames, host);
      && (|c| == 0 || |c| > 4 * |V4ToolNames| ==> names == V4ToolNames + cfg.extraToolNames)
      && (1 <= |c| <= 4 * |V4ToolNames| ==> names == c + cfg.extraToolNames)
  {
    var c := Candidates(cfg.toolNames, host);
    (if |c| == 0 || |c| > 4 * |V4ToolNames| then V4ToolNames else c) + cfg.extraToolNames
  }

  /** The loop of load_v4_tools: each name is stored under its identifier,
      with no driver. */
  function AddNames(d: Dict, names: seq<string>): (r: Dict)
    ensures d.Valid() ==> r.Valid()
    ensures d.keys <= r.keys && d.table.Keys <= r.table.Keys
    decreases |names|
  {
    if names == [] then d
    else
      var name := names[|names| - 1];
      AddNames(d, names[..|names| - 1]).Put(MakeValidIdentifier(name), Tool(name, None, false))
  }

  /** The assignments load_v4_tools makes, in order. */
  function NameWrites(names: seq<string>): (w: seq<(string, Tool)>)
    ensures |w| == |names|
    ensures forall i :: 0 <= i < |names| ==> w[i] == (MakeValidIdentifier(names[i]), Tool(names[i], None, false))
  {
    seq(|names|, i requires 0 <= i < |names| => (MakeValidIdentifier(names[i]), Tool(names[i], None, false)))
  }

  /** The loop is exactly those assignments. */
  lemma {:induction false} AddNamesWrites(d: Dict, names: seq<string>)
    ensures AddNames(d, names) == PutAll(d, NameWrites(names))
    decreases |names|
  {
    if names != [] {
      AddNamesWrites(d, names[..|names| - 1]);
      assert NameWrites(names)[..|names| - 1] == NameWrites(names[..|names| - 1]);
    }
  }

  /** `d[key] == tool` is what load_v4_tools stores for one of `names`. */
  predicate V4Entry(key: string, tool: Tool, names: seq<string>) {
    tool == Tool(tool.commandName, None, false) && tool.commandName in names
    && key == MakeValidIdentifier(tool.commandName)
  }

  /** Every entry the names add is a driverless tool stored under the
      identifier of one of the names, and every name is stored. */
  lemma {:induction false} AddNamesEntries(d: Dict, names: seq<string>)
    ensures var r := AddNames(d, names);
      && (forall k :: k in r.table ==> (k in d.table && r.table[k] == d.table[k]) || V4Entry(k, r.table[k], names))
      && (forall n :: n in names ==> MakeValidIdentifier(n) in r.table)
    decreases |names|
  {
    if names != [] {
      var init, name := names[..|names| - 1], names[|names| - 1];
      AddNamesEntries(d, init);
      assert forall x :: x in names <==> x in init || x == name;
      var r := AddNames(d, names);
      assert V4Entry(MakeValidIdentifier(name), r.table[MakeValidIdentifier(name)], names);
    }
  }

  function V4Tools(cfg: Config, host: Host): (r: Result<Dict, LoadError>)
    ensures r.Failure? ==> r.error == V4LoadError
    ensures r.Success? ==> r.value.Valid() && r.value.keys != []
  {
    assert Empty.Valid();
    var tools := AddNames(Empty, V4Names(cfg, host));
    if tools.keys == [] then Failure(V4LoadError) else Success(tools)
  }

  /** The names load_v4_tools registers. */
  method ChooseNames(cfg: Config, host: Host) returns (names: seq<string>)
    ensures names == V4Names(cfg, host)
  {
    names := cfg.toolNames;
    if |names| == 0 && host.gmxbin.Some? {
      names := FindExecutables(host.gmxbin.value, host.isExecutable, host.isDirectory);
    }
    if |names| == 0 || |names| > |V4ToolNames| * 4 {
      names := V4ToolNames;
    }
    names := names + cfg.extraToolNames;
  }

  method LoadV4Tools(cfg: Config, host: Host) returns (r: Result<Dict, LoadError>)
    ensures r == V4Tools(cfg, host)
  {
    var names := ChooseNames(cfg, host);
    var tools := RegisterNames(names);
    if tools.keys == [] {
      r := Failure(V4LoadError);
    } else {
      r := Success(tools);
    }
  }

  /** The loop of load_v4_tools: register each name under its identifier. */
  method RegisterNames(names: seq<string>) returns (tools: Dict)
    ensures tools == AddNames(Empty, names)
  {
    tools := Empty;
    for i := 0 to |names|
      invariant tools == AddNames(Empty, names[..i])
    {
      assert names[..i + 1][..i] == names[..i];
      var fancy := MakeValidIdentifier(names[i]);
      tools := tools.Put(fancy, Tool(names[i], None, false));
    }
    assert names[..|names|] == names;
  }

  /** load_v4_tools never raises: its name list is never empty. Every entry is
      a driverless tool stored under the identifier of its name. */
  lemma V4Outcome(cfg: Config, host: Host)
    ensures V4Tools(cfg, host).Success?
    ensures var d := V4Tools(cfg, host).value;
      && d.Valid()
      && (forall k :: k in d.table ==> V4Entry(k, d.table[k], V4Names(cfg, host)))
      && (forall n :: n in V4Names(cfg, host) ==> MakeValidIdentifier(n) in d.table)
  {
    var names := V4Names(cfg, host);
    var d := AddNames(Empty, names);
    assert Empty.Valid();
    AddNamesEntries(Empty, names);
    assert names[0] in names;
    assert MakeValidIdentifier(names[0]) in d.keys;
  }

  /** `names[i]` is the last of the names with its identifier. */
  predicate LastOfIdentifier(names: seq<string>, i: int) {
    0 <= i < |names| && forall j :: i < j < |names| ==> MakeValidIdentifier(names[j]) != MakeValidIdentifier(names[i])
  }

  /** When two names share an identifier, the key keeps the tool of the last
      of them. */
  lemma NamesLastWriter(d: Dict, names: seq<string>, i: nat)
    requires LastOfIdentifier(names, i)
    ensures var r := AddNames(d, names);
      MakeValidIdentifier(names[i]) in r.table && r.table[MakeValidIdentifier(names[i])] == Tool(names[i], None, false)
  {
    AddNamesWrites(d, names);
    PutAllLast(d, NameWrites(names), i);
  }

  /** load_v4_tools: a key shared by several names holds the tool of the last. */
  lemma V4LastWriter(cfg: Config, host: Host)
    ensures var names := V4Names(cfg, host);
      && V4Tools(cfg, host) == Success(AddNames(Empty, names))
      && forall i :: LastOfIdentifier(names, i) ==>
           (&& MakeValidIdentifier(names[i]) in AddNames(Empty, names).table
            && AddNames(Empty, names).table[MakeValidIdentifier(names[i])] == Tool(names[i], None, false))
  {
    var names := V4Names(cfg, host);
    V4Outcome(cfg, host);
    forall i | LastOfIdentifier(names, i)
      ensures MakeValidIdentifier(names[i]) in AddNames(Empty, names).table
      ensures AddNames(Empty, names).table[MakeValidIdentifier(names[i])] == Tool(names[i], None, false)
    {
      NamesLastWriter(Empty, names, i);
    }
  }

  // ---------------------------------------------------------------------------
  // Release dispatch

  /** The release dispatch as a value: a configured 5.x-or-later release
      loads 5.x tools, a configured "4" loads 4.x tools, and otherwise 4.x
      loading is tried only after 5.x loading raised. */
  function Dispatch(cfg: Config, host: Host): (r: Result<Dict, LoadError>)
    ensures r.Success? ==> (r == V5Tools(cfg, host) || r == V4Tools(cfg, host))
    ensures r.Success? ==> r.value.Valid() && r.value.keys != []
    ensures cfg.majorRelease.Some? && cfg.majorRelease.value in V5Releases ==> r == V5Tools(cfg, host)
    ensures cfg.majorRelease == Some("4") ==> r == V4Tools(cfg, host)
    ensures !(cfg.majorRelease.Some? && cfg.majorRelease.value in V5Releases) && cfg.majorRelease != Some("4") ==>
      && (V5Tools(cfg, host).Success? ==> r == V5Tools(cfg, host))
      && (V5Tools(cfg, host).Failure? ==> r == V4Tools(cfg, host))
  {
    V4Outcome(cfg, host);
    if cfg.majorRelease.Some? && cfg.majorRelease.value in V5Releases then V5Tools(cfg, host)
    else if cfg.majorRelease == Some("4") then V4Tools(cfg, host)
    else if V5Tools(cfg, host).Success? then V5Tools(cfg, host)
    else if V4Tools(cfg, host).Success? then V4Tools(cfg, host)
    else Failure(AutoloadError)
  }

  /** Loading fails only for a configured 5.x-or-later release none of whose
      drivers lists a tool: a configured "4" and autoloading always succeed,
      so the autoloading error is never raised. */
  lemma DispatchOutcome(cfg: Config, host: Host)
    ensures Dispatch(cfg, host).Failure? <==>
      cfg.majorRelease.Some? && cfg.majorRelease.value in V5Releases && V5Tools(cfg, host).Failure?
    ensures Dispatch(cfg, host).Failure? ==> Dispatch(cfg, host).error == V5LoadError(V5Drivers(cfg, host))
  {
    V4Outcome(cfg, host);
    V5Outcome(cfg, host);
  }

  /** The module-level dispatch of gromacs/tools.py. */
  method LoadTools(cfg: Config, host: Host) returns (r: Result<Dict, LoadError>)
    ensures r == Dispatch(cfg, host)
  {
    if cfg.majorRelease.Some? && cfg.majorRelease.value in V5Releases {
      r := LoadV5Tools(cfg, host);
    } else if cfg.majorRelease == Some("4") {
      r := LoadV4Tools(cfg, host);
    } else {
      r := LoadV5Tools(cfg, host);
      if r.Failure? {
        r := LoadV4Tools(cfg, host);
        if r.Failure? {
          r := Failure(AutoloadError);
        }
      }
    }
  }
}
