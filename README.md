# GromacsWrapper tool registry, modelled in Dafny

GromacsWrapper exposes every GROMACS tool as a Python class. At import time,
`gromacs/tools.py` finds out which tools are installed and fills a module
level registry. The registry maps a class name such as `Grompp` or
`Convert_tpr_d` to a description of the command it runs. This project models
that registry and proves properties of it:

- **Identifiers.** `make_valid_identifier` turns a tool name into a class
  name (module `Identifiers`).
- **Discovery.** Three steps find the installed tools (module `Loading`):
  - `find_executables` lists the usable executables in `GMXBIN`.
  - `load_v5_tools` runs each candidate driver (`gmx`, `gmx_d`, ...) with
    `-quiet help commands` and reads the listed tools off column 4 of its
    output (module `HelpParsing`).
  - `load_v4_tools` registers the 4.x tool names.
  - The release dispatch picks a loader from the configured major release,
    and otherwise falls back from 5.x loading to 4.x loading.
- **The registry.** It is an insertion-ordered dictionary (module `ToolDict`).
  The class `Registry.ToolRegistry` holds it and performs the two passes that
  follow loading, in place:
  - The alias pass gives each tool its GROMACS 4.x name: the NAMES5TO4
    renaming with the driver suffix kept, or `G_` plus the lower-cased key.
    Module `Aliases` states it as a function.
  - The multi-index patch marks `G_mindist` and `G_dist` as accepting several
    index files and rebinds `Mindist` and `Distance` to them.
- **Several index files** (module `MultiIndex`):
  - `merge_ndx` splits its arguments into index files and at most one
    structure file, and describes the `make_ndx` run that merges them.
  - `_fake_multi_ndx` rewrites the keyword arguments of a multi-index command
    and appends to the caller's list in place.
- **The release** (module `Releases`). The `Release` class reads the first
  `G[rR][oO][mM][aA][cC][sS] version:` line of `grompp -version`. It returns
  that release, prints it, and tests its prefixes.

The outside world is a parameter:
- `Loading.Host` says what `GMXBIN` lists and which entries are executable or
  directories. It also gives what each driver prints, or nothing when running
  it fails.
- `Loading.Config` holds the configured tool names, the extra tool names, the
  `append_suffix` flag and the major release.
- `Releases.Release` receives the output of running `grompp` as a function.
- `merge_ndx` receives the temporary file name it would create.

Character classes follow Python: `IsSpace` is Python's whitespace for
`str.strip` and `\s`, and case mapping (`capitalize`, `lower`, `[rR]`) is
ASCII.

Three consequences of the code are worth stating:
- The alias pass is not idempotent. A registry holding only `Rms` (the 5.x
  tool `rms`) gains `G_rms` on one pass. `G_rms` still holds `rms`, so a
  second pass aliases it once more, to `G_g_rms`
  (`Scenarios.AliasPassNotIdempotent`).
- The alias pass does not give every tool exactly one alias. A tool whose 5.x
  and 4.x names agree gets none (`Scenarios.GromppHasNoAlias`).
- Two listed tools can share a key, for instance the same tool of `gmx` and
  `gmx_d` when `append_suffix` is off. The dictionary then keeps the last one
  written (`Loading.V5LastWriter`, `Loading.V4LastWriter`).

## Model

| member | source | states |
|---|---|---|
| Identifiers.ReplaceDashes | gromacs/tools.py:383 | replacing dashes keeps the length; every '-' becomes '_' and every other character stays in place |
| Identifiers.Capitalize | gromacs/tools.py:383 | `capitalize()` keeps the length, upper-cases the first character and lower-cases every later one |
| Identifiers.MakeValidIdentifier | gromacs/tools.py:377-383 | the identifier is as long as the name, has no dash, does not start with a lower-case letter and has no upper-case letter after the first |
| Identifiers.IdentifierShape | gromacs/tools.py:377-383 | the identifier has the name's length and no dash; character by character it is the name with '-' read as '_', the first character upper-cased and every later one lower-cased |
| Identifiers.IdentifierIdempotent | gromacs/tools.py:377-383 | making an identifier valid twice gives the same identifier as once |
| Identifiers.IdentifierOfPrefix | gromacs/tools.py:377-383 | the identifier of a non-empty prefix of a name is a prefix of the name's identifier (what makes the suffix split of the alias pass well defined) |
| Text.LowerStr | gromacs/tools.py:588 | lower-casing keeps the length, maps each letter A–Z to the letter 32 code points up (a–z), keeps every other character, and leaves no upper-case letter |
| Text.LStrip | gromacs/tools.py:650 | the result is a suffix of the input; it starts with a non-space, and only whitespace was removed |
| Text.RStrip | gromacs/tools.py:650 | the result is a prefix of the input; it ends with a non-space, and only whitespace was removed |
| Text.Strip | gromacs/tools.py:650 | the result is the infix of the line that starts at its first non-space, everything outside it is whitespace, and it neither starts nor ends with whitespace |
| Text.IndexFrom | gromacs/tools.py:449 | `str.index(c, from)`: the first position at or after `from` holding `c`, and None exactly when `c` does not occur there |
| Text.FindFrom | gromacs/tools.py:583 | the first position at or after `from` where the separator occurs, or None when it occurs nowhere |
| Text.SplitSecond | gromacs/tools.py:583 | `s.split(sep)[1]`: the text from the end of the first occurrence of `sep` up to its next occurrence, or to the end when there is none; when `s` starts with `sep` this is a prefix of what follows it |
| Text.AfterFirst | gromacs/tools.py:439 | `partition("_")[2]`: empty when there is no '_', otherwise exactly what follows the first '_' |
| Text.SplitLines | gromacs/tools.py:442 | `splitlines()`: no line holds a line break, and there are no lines exactly when the text is empty |
| Text.SplitLinesRoundTrip | gromacs/tools.py:442 | joining the lines with '\n' gives back the text with each break (a "\r\n" pair as one) written as '\n' and a final break dropped |
| HelpParsing.ListedLines | gromacs/tools.py:442 | `lines[5:-1]`: length `n - 6` (0 below 7 lines), and entry `i` is line `i + 5` |
| HelpParsing.ParseCommandLine | gromacs/tools.py:447-449 | a line names a tool iff it is longer than 4, column 4 is not a space and a space follows; the name is the space-free run from column 4 up to that space |
| HelpParsing.ParseNamesRun | gromacs/tools.py:447-449 | conversely, a space-free name at column 4 followed by a space is what the line yields |
| HelpParsing.Names | gromacs/tools.py:442-449 | every line that names a tool contributes its name; there is at most one name per line, and each is non-empty and space-free |
| HelpParsing.NamesSound | gromacs/tools.py:442-449 | every name reported comes from a line that names it |
| HelpParsing.CommandNames | gromacs/tools.py:441-449 | the names one driver reports are non-empty and space-free, each comes from a line between the five header lines and the last line that names it, and there are at most as many as such lines |
| Loading.Executables | gromacs/tools.py:386-412 | an entry is kept iff it is executable, not a directory and not one of the six GMXRC/helper scripts |
| Loading.FindExecutables | gromacs/tools.py:386-412 | the loop returns exactly the filtered listing, in order |
| Loading.Candidates | gromacs/tools.py:427-430 | the configured names when there are any or GMXBIN is unset; otherwise exactly the usable entries of the GMXBIN listing |
| Loading.V5Drivers | gromacs/tools.py:427-433 | the drivers are the configured names (else the GMXBIN executables) when there are 1 to 4 of them, and the four default drivers otherwise |
| Loading.V5Key | gromacs/tools.py:439-452 | the key is the identifier of the name when the driver has no suffix after '_' or appending is off, and otherwise the identifier, '_' and that suffix |
| Loading.ChooseDrivers | gromacs/tools.py:427-433 | the statements that pick the drivers compute exactly the drivers described above |
| Loading.AddCommands | gromacs/tools.py:442-453 | reading one driver's lines keeps the registry well formed and keeps every earlier key, in order |
| Loading.AddCommandsSound | gromacs/tools.py:442-453 | after one driver, each entry is an earlier one or a tool of that driver under its key |
| Loading.AddCommandsComplete | gromacs/tools.py:442-453 | after one driver, every name it lists is stored under its key |
| Loading.AddCommandsEntries | gromacs/tools.py:442-453 | both of the above together |
| Loading.AddCommandsWrites | gromacs/tools.py:442-453 | reading one driver's lines is exactly the assignments `tools[fancy] = ...`, one per line that names a tool, in order |
| Loading.ReadCommands | gromacs/tools.py:439-453 | the loop over one driver's listed lines stores exactly what reading those lines stores |
| Loading.AddDrivers | gromacs/tools.py:437-455 | the driver loop keeps the registry well formed and keeps earlier keys |
| Loading.AddDriversWrites | gromacs/tools.py:437-455 | the driver loop is exactly the assignments of the drivers that ran, driver by driver and line by line |
| Loading.AddDriversEntries | gromacs/tools.py:437-455 | each entry is a tool that some driver which ran listed, under its key, and every listed tool of every driver has its key in the registry |
| Loading.ReadDrivers | gromacs/tools.py:437-455 | the loop over the drivers, with failing drivers skipped, builds exactly the registry described above |
| Loading.V5Tools | gromacs/tools.py:415-464 | a failure carries the drivers that were tried; a success is a well-formed, non-empty registry |
| Loading.LoadV5Tools | gromacs/tools.py:415-464 | the loop computes the 5.x loading outcome |
| Loading.V5Outcome | gromacs/tools.py:415-464 | loading raises iff no tried driver lists any tool, naming the drivers tried; otherwise each entry is a tool some tried driver listed, under its key, and every listed tool's key is present |
| Loading.V5LastWriter | gromacs/tools.py:437-464 | when loading succeeds, a key assigned more than once holds the tool of its last assignment in loop order |
| Loading.V4Names | gromacs/tools.py:479-487 | the names are the candidates when there are 1 to 4 × len(V4TOOLS) of them and V4TOOLS otherwise, followed by the extra names; they are never just the extras |
| Loading.ChooseNames | gromacs/tools.py:479-487 | the statements that pick the 4.x names compute exactly those names |
| Loading.AddNames | gromacs/tools.py:489-492 | registering names keeps the registry well formed and keeps earlier keys |
| Loading.AddNamesWrites | gromacs/tools.py:489-492 | registering names is exactly one assignment per name, in order |
| Loading.AddNamesEntries | gromacs/tools.py:489-492 | each entry is a driverless tool stored under the identifier of one of the names, and every name is stored |
| Loading.NamesLastWriter | gromacs/tools.py:489-492 | of several names with the same identifier, the last one owns the key |
| Loading.RegisterNames | gromacs/tools.py:489-492 | the loop registers exactly the names, each under its identifier |
| Loading.V4Tools | gromacs/tools.py:467-499 | a failure is the 4.x loading error; a success is a well-formed, non-empty registry |
| Loading.LoadV4Tools | gromacs/tools.py:467-499 | the loop computes the 4.x loading outcome |
| Loading.V4Outcome | gromacs/tools.py:467-499 | with a GMXBIN listing that can be read, 4.x loading never raises; each entry is a driverless tool under the identifier of one of the names, and every name's identifier is a key |
| Loading.V4LastWriter | gromacs/tools.py:479-499 | 4.x loading succeeds with the registered names, and a key shared by several names holds the tool of the last of them |
| Loading.Dispatch | gromacs/tools.py:533-566 | a configured 5.x-or-later release gives the 5.x result and a configured "4" the 4.x result; with no recognised release the 5.x result is taken when it succeeds and the 4.x result only when 5.x loading failed; a success is well formed and non-empty |
| Loading.DispatchOutcome | gromacs/tools.py:533-566 | with a GMXBIN listing that can be read, loading fails iff a 5.x-or-later release is configured and no driver lists a tool, with that error; a configured "4" and autoloading always succeed |
| Loading.LoadTools | gromacs/tools.py:533-566 | the statements of the dispatch compute exactly the dispatch above, including the fallback from 5.x to 4.x loading only after a failure |
| ToolDict.Dict.Put | gromacs/tools.py:453 | dictionary assignment binds the key and keeps the registry well formed; earlier keys keep their order, an existing key adds no key, and a new one adds only itself |
| ToolDict.PutAll | gromacs/tools.py:453 | a run of dictionary assignments keeps the registry well formed |
| ToolDict.PutAllAppend | gromacs/tools.py:453 | two runs of assignments are one run of both |
| ToolDict.PutAllLast | gromacs/tools.py:453 | the last assignment to a key decides what it holds |
| ToolDict.PutAllUntouched | gromacs/tools.py:453 | a key no assignment names keeps its presence and its value |
| Aliases.TableNamesNonEmpty | gromacs/tools.py:305-330 | no name in NAMES5TO4 is empty |
| Aliases.FirstMatch | gromacs/tools.py:572-577 | the inner loop stops at the first NAMES5TO4 entry whose 5.x name is a prefix of the command name, and no earlier entry is one |
| Aliases.FirstMatchAt | gromacs/tools.py:572-577 | conversely, a prefix entry with no prefix entry before it is the one the loop stops at |
| Aliases.FirstMatchNone | gromacs/tools.py:572-577 | conversely, when no 5.x name is a prefix the loop runs to its end |
| Aliases.AliasKey | gromacs/tools.py:571-588 | nothing is written iff the first matching entry has equal names; with no match the alias is `G_` followed by the key with no upper-case letter (two characters longer than the key); a renamed match gives a non-empty identifier without dashes |
| Aliases.AliasKeyByTable | gromacs/tools.py:571-588 | with no matching entry the alias is `G_` plus the lower-cased key; with an unrenamed first match there is none; with a renamed one it is the identifier of the 4.x name plus the key's suffix |
| Aliases.RenamedAlias | gromacs/tools.py:580-584 | for a renamed tool whose key holds the identifier of its 5.x name, the alias is the 4.x name with the key's suffix |
| Aliases.AliasDefinedForLoadedKey | gromacs/tools.py:583 | a key that starts with the identifier of the command name never makes the split raise IndexError |
| Aliases.AliasList | gromacs/tools.py:571 | one alias decision per entry of the snapshot |
| Aliases.AliasStep | gromacs/tools.py:583-588 | visiting one entry writes nothing without an alias; otherwise it binds the alias to the tool the entry holds now, even over an existing key; it keeps the registry well formed |
| Aliases.AliasesUpTo | gromacs/tools.py:571-588 | adding aliases keeps every key of the snapshot, in order |
| Aliases.AliasPass | gromacs/tools.py:571-588 | the alias pass keeps the registry well formed and keeps the loaded keys in front |
| Aliases.AliasesValid | gromacs/tools.py:571-588 | each step of the pass keeps the registry well formed |
| Aliases.AliasesBindRegisteredTools | gromacs/tools.py:583-588 | every key after the pass is bound to a tool that was loaded; the pass creates no tool |
| Aliases.AliasesComeFromEntries | gromacs/tools.py:571-588 | every new key is the alias of some entry of the snapshot |
| Aliases.AliasesKeepEntries | gromacs/tools.py:571-588 | when no alias collides with a loaded key, every loaded key keeps its tool |
| Aliases.AliasesShareTools | gromacs/tools.py:583-588 | when aliases are fresh and distinct, each alias is bound to the tool of the entry it was made for |
| Aliases.AliasBoundAt | gromacs/tools.py:583-588 | when no alias is a loaded key and no later alias repeats it, one entry's alias stays bound to that entry's tool while later entries are visited |
| Aliases.AliasWritten | gromacs/tools.py:583-588 | when no alias is a loaded key, visiting an entry binds its alias to the tool the entry was loaded with |
| Aliases.AliasStepKeeps | gromacs/tools.py:571-588 | visiting an entry changes no key other than its own alias |
| Registry.KeyedByNameAliasable | gromacs/tools.py:583 | a registry whose keys start with their command names' identifiers passes the alias pass without IndexError |
| Registry.V5KeyedByName | gromacs/tools.py:449-453 | 5.x loading keys each tool by its identifier plus, at most, a suffix |
| Registry.V4KeyedByName | gromacs/tools.py:490-492 | 4.x loading succeeds and keys each tool by its identifier |
| Registry.DispatchKeyedByName | gromacs/tools.py:533-566 | whatever loader the dispatch picks, the loaded registry is well formed and keyed by name |
| Registry.AliasOf | gromacs/tools.py:572-588 | the inner loop with its break and else computes the alias the table dictates |
| Registry.ToolRegistry.AddAliases | gromacs/tools.py:571-588 | looping over a snapshot of the registry and writing aliases in place leaves exactly the alias pass of the old registry |
| Registry.ToolRegistry.PatchMultiIndex | gromacs/tools.py:592-599 | the patch loop leaves exactly the patched old registry |
| Registry.Initialize | gromacs/tools.py:533-599 | module initialization fails iff the dispatch fails, with its error; otherwise the registry is the loaded one, aliased and then patched, and the alias pass cannot raise |
| MultiIndex.PatchOne | gromacs/tools.py:593-599 | an absent 4.x name changes nothing; a present one becomes a multi-index tool with the same command and driver, and a present 5.x name is rebound to it; no key is added or moved, and nothing else changes |
| MultiIndex.PatchUpTo | gromacs/tools.py:592-599 | any prefix of the patch loop keeps every key and the key order, and leaves every entry other than the four patched names as it was |
| MultiIndex.PatchMultiIndexEffect | gromacs/tools.py:592-599 | the patch affects only `G_mindist`/`Mindist` and `G_dist`/`Distance`, in that way, and keeps the keys |
| MultiIndex.IndexFiles | gromacs/tools.py:509-513 | the index files are at most as many as the arguments, and each ends in ".ndx" |
| MultiIndex.OtherFiles | gromacs/tools.py:514-517 | the structure candidates are at most as many as the arguments, and none ends in ".ndx" |
| MultiIndex.IndexFilesAppend | gromacs/tools.py:509-513 | the index files of two runs of arguments are those of the first followed by those of the second, so they keep the arguments' order and repetitions |
| MultiIndex.IndexFilesSingle | gromacs/tools.py:509-513 | one argument is an index file exactly when it ends in ".ndx" |
| MultiIndex.OtherFilesAppend | gromacs/tools.py:514-517 | the structure candidates of two runs of arguments are those of the first followed by those of the second |
| MultiIndex.OtherFilesSingle | gromacs/tools.py:514-517 | one argument is a structure candidate exactly when it does not end in ".ndx" |
| MultiIndex.FilesPartition | gromacs/tools.py:509-517 | an argument is an index file iff it ends in ".ndx" and a structure candidate iff it does not; the two lists together account for every argument |
| MultiIndex.MergeNdx | gromacs/tools.py:502-529 | more than one non-index argument raises ValueError; a missing `Make_ndx` raises KeyError; otherwise `make_ndx` is called with all index files, with the structure file only when it is non-empty, and with the temporary output |
| MultiIndex.NameList.constructor | gromacs/tools.py:356 | a list object holds the given file names |
| MultiIndex.FakeMultiNdx | gromacs/tools.py:355-364 | with a list of more than one index file and an `s` argument, the structure is appended to the caller's list in place and `n` becomes the merged file, or merge_ndx's error; otherwise the arguments and the list are unchanged |
| Releases.HeaderByClasses | gromacs/tools.py:636-637 | a line has the header iff it is "G", then at each of the next six places the letter of "romacs" in either case, then " version:" |
| Releases.VersionGroup | gromacs/tools.py:637 | the version group is a suffix of what follows the header, and starts at a non-space unless it is that text whole |
| Releases.VersionGroupSpec | gromacs/tools.py:637 | after a leading `VERSION` that more text follows, the group starts past that word and the whitespace after it, at a non-space; any other text is the group whole |
| Releases.MatchVersion | gromacs/tools.py:636-653 | a match needs the header and yields a non-empty version without a line break or surrounding whitespace |
| Releases.MatchVersionIsSuffix | gromacs/tools.py:637 | the matched version is how the line ends |
| Releases.ReleaseOfLine | gromacs/tools.py:650-651 | a raw line yields a release only when the stripped line has the header, and that release is well formed |
| Releases.HeaderPrefix | gromacs/tools.py:637 | the header test only reads the first 16 characters |
| Releases.HeaderThenRest | gromacs/tools.py:637 | a header, whitespace and a stripped rest match exactly when the version group of the rest is non-empty and has no line break |
| Releases.VersionRoundTrip | gromacs/tools.py:637 | a header, whitespace and a well-formed version that is not a `VERSION` word give back that version |
| Releases.VersionWordRoundTrip | gromacs/tools.py:637 | a header, whitespace, `VERSION`, whitespace and a well-formed version give back that version |
| Releases.LStripSpaces | gromacs/tools.py:637 | stripping leading whitespace before a word gives the word |
| Releases.FirstOfStep | gromacs/tools.py:649-654 | the first match from line `i` on is line `i`'s when it matches, else the first from `i + 1` on |
| Releases.FirstOfNone | gromacs/tools.py:649-654 | there is no first match iff no line matches |
| Releases.FirstOfIsFirst | gromacs/tools.py:649-654 | a first match comes from a matching line before which no line matches |
| Releases.FirstRelease | gromacs/tools.py:649-654 | the release is unknown iff no output line matches, and a release found is well formed |
| Releases.FirstReleaseSpec | gromacs/tools.py:649-654 | a release found is that of a matching line before which no line matches |
| Releases.ScanRelease | gromacs/tools.py:649-654 | the loop that strips each line and stops at the first match returns the first release |
| Releases.VersionOutputLines | gromacs/tools.py:642-647 | the lines scanned are none when there is no `Grompp`, and otherwise grompp's output and error lines, none holding a line break |
| Releases.Release.constructor | gromacs/tools.py:640-654 | the release is the first match among grompp's stdout lines and then its stderr lines, and unknown when there is no `Grompp` |
| Releases.Release.Call | gromacs/tools.py:656-660 | calling the object returns the release, which is well formed when known |
| Releases.Release.ToString | gromacs/tools.py:677-678 | the text is the release, or "unknown", and never empty |
| Releases.Release.StartsWith | gromacs/tools.py:662-675 | an unknown release gives no answer (Python raises AttributeError); otherwise the answer is true iff one of the prefixes is a prefix of the release |
| Scenarios.ParseGromppLine | gromacs/tools.py:447-449 | a `help commands` line for grompp yields `grompp` |
| Scenarios.SasaEntry | gromacs/tools.py:572-577 | `sasa` first matches the `sasa` entry of NAMES5TO4 |
| Scenarios.SasaRest | gromacs/tools.py:583 | splitting `Sasa` by its own identifier leaves an empty suffix |
| Scenarios.SasaAlias | gromacs/tools.py:580-584 | `Sasa` gets the alias `G_sas` |
| Scenarios.GromppHasNoAlias | gromacs/tools.py:578-579 | `Grompp` gets no alias, because its name did not change |
| Scenarios.ConvertTprEntry | gromacs/tools.py:572-577 | `convert-tpr` first matches the `convert-tpr` entry |
| Scenarios.ConvertTprIdentifier | gromacs/tools.py:383 | the identifier of `convert-tpr` is `Convert_tpr` |
| Scenarios.ConvertTprRest | gromacs/tools.py:583 | `Convert_tpr` starts `Convert_tpr_d`, and splitting by it leaves the suffix `_d` |
| Scenarios.ConvertTprDoubleAlias | gromacs/tools.py:580-584 | the double-precision `Convert_tpr_d` gets the alias `Tpbconv_d`, so the suffix is kept |
| Scenarios.DistanceEntry | gromacs/tools.py:572-577 | `distance` first matches the `distance` entry |
| Scenarios.DistanceRest | gromacs/tools.py:583 | splitting `Distance` by its own identifier leaves an empty suffix |
| Scenarios.DistanceAlias | gromacs/tools.py:580-584 | `Distance` gets the alias `G_dist`, the name the multi-index patch targets |
| Scenarios.RmsNoEntry | gromacs/tools.py:572-577 | no NAMES5TO4 entry matches `rms` |
| Scenarios.RmsAlias | gromacs/tools.py:586-588 | `Rms`, which no entry matches, gets the alias `G_rms` |
| Scenarios.UnmatchedAlias | gromacs/tools.py:586-588 | the key `G_rms`, still holding `rms`, gets the alias `G_g_rms` |
| Scenarios.FirstPassRms | gromacs/tools.py:571-588 | one pass over a registry holding only `Rms` gives `Rms` and `G_rms`, both bound to `rms` |
| Scenarios.SecondPassRms | gromacs/tools.py:571-588 | a pass over that result adds the new key `G_g_rms` |
| Scenarios.AliasPassNotIdempotent | gromacs/tools.py:571-588 | running the alias pass twice differs from running it once |
| Scenarios.HeaderSpellings | gromacs/tools.py:637 | both `GROMACS version:` and `Gromacs version:` are headers |
| Scenarios.Release2023 | gromacs/tools.py:636-638 | `GROMACS version:    2023.2` reads as release `2023.2` |
| Scenarios.ReleaseAfterVersionWord | gromacs/tools.py:636-638 | `Gromacs version:    VERSION 4.6.5` reads as release `4.6.5` |

## Left out

- Running programs is not modelled. `subprocess.check_output`, `grompp(version=True)` and the `make_ndx` run are inputs (`Loading.Host`, the `runVersion` function) or are described by their arguments (`MultiIndex.MakeNdxCall`).
- The file system and the environment are not modelled: `os.listdir`, `os.access`, `os.path.isdir` and `GMXBIN` become fields of `Loading.Host`.
- Temporary files are not modelled: `tempfile.mkstemp`, `os.close` and `atexit.register` are replaced by a given file name.
- `tool_factory` is not modelled. Its dynamic class creation, docstrings and `GromacsCommand` behaviour are reduced to `ToolDict.Tool`: the command name, the driver and a multi-index flag.
- The configuration module is not modelled. It reduces to `Loading.Config`, including the `append_suffix` default of true, which the caller supplies.
- Logging is not modelled: debug messages, and the warning `Release.Call` prints for an unknown release.
- `k8s.py` and the other modules are not part of this model. Neither are the module docstring tables, nor `registry["Release"] = Release` and the export of the registry into the module namespace.
- Non-ASCII help output is not modelled: `line.decode("ascii")` would raise UnicodeDecodeError, which nothing catches. The help output is taken as text.
- Case mapping is ASCII only. Python's `capitalize` and `lower` also map non-ASCII letters.
- `bytes.splitlines` and `str.splitlines` are modelled through their sets of line-break characters. A "\r\n" pair counts as one break.
- Release.StartsWith: the optional `start` and `end` arguments of `str.startswith` are not modelled, and a single prefix is passed as a one-element sequence.
- MultiIndex.FakeMultiNdx: an `n` given as a string or None is modelled, and so is a mutable list. A tuple or other sequence for `n` is not, nor an `s` that is not a string (`Get(kwargs, "n").List?` with `s` present requires `s` to be text).
- Loading.V4Names: `names.extend` appends to the list that `config.get_tool_names()` returned, in place. The model builds a new sequence, so it does not capture that aliasing.
- Registry.ToolRegistry.AddAliases requires that no key makes `fancy.split(...)[1]` raise IndexError. `Registry.Initialize` proves this holds for every registry the loaders produce.
- Aliases.AliasesKeepEntries, Aliases.AliasesShareTools, Aliases.AliasBoundAt and Aliases.AliasWritten require that the aliases do not collide with loaded keys, and (AliasesShareTools, AliasBoundAt) with each other. Without that, a later write can overwrite an earlier one, as the dictionary does. `AliasPass` still models that, and `Aliases.AliasStep` states each write, collisions included.
- Loading.Candidates: `os.listdir` raising for a GMXBIN that is missing, not a directory or unreadable is not modelled. `Loading.Host` gives every GMXBIN a listing, whereas Python's FileNotFoundError, NotADirectoryError or PermissionError is not a GromacsToolLoadingError and would end the import.
- Loading.V4Outcome: its "never raises" holds only for a GMXBIN listing that can be read; see the Loading.Candidates line.
- Loading.DispatchOutcome: its "autoloading always succeeds" holds only for a GMXBIN listing that can be read; see the Loading.Candidates line.
- The error messages of GromacsToolLoadingError are reduced to constructors of `Loading.LoadError`. The 5.x one keeps the tried drivers.
