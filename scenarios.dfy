/**
 * Concrete inputs worked through the model: a line of `gmx help commands`
 * output, the aliases of renamed, unchanged and unlisted tools, a second run
 * of the alias pass, and the release lines of both header spellings.
 */
module Scenarios {
  import opened Wrappers
  import opened Text
  import opened Identifiers
  import opened HelpParsing
  import opened ToolDict
  import opened Aliases
  import opened Releases
  /** A line of `gmx help commands` output names its tool. */
  lemma ParseGromppLine()
    ensures ParseCommandLine("    grompp        Make a run input file") == Some("grompp")
  {
    var name := "grompp";
    var line := "    " + name + "        Make a run input file";
    assert line == "    grompp        Make a run input file";
    assert line[4..10] == name;
    ParseNamesRun(line, name);
  }

  /** The scan for `sasa` stops at the entry (sasa, g_sas): no earlier 5.x name is a prefix of it. */
  lemma SasaEntry()
    ensures FirstMatch("sasa", 0) == Some(20) && Names5To4[20] == ("sasa", "g_sas")
  {
    forall j | 0 <= j < 20
      ensures !(Names5To4[j].0 <= "sasa")
    {
      assert Names5To4[j].0[0] != 's' || Names5To4[j].0[1] != 'a';
    }
    FirstMatchAt("sasa", 0, 20);
  }

  /** The key of `sasa`. */
  lemma SasaIdentifier()
    ensures MakeValidIdentifier("sasa") == "Sasa"
  {
  }

  /** `Sasa` has no suffix after its identifier. */
  lemma SasaRest()
    ensures SplitSecond("Sasa", "Sasa") == ""
  {
    assert FindFrom("Sasa", "Sasa", 4).None?;
  }

  /** The identifier of the 4.x name `g_sas`. */
  lemma GSasIdentifier()
    ensures MakeValidIdentifier("g_sas") == "G_sas"
  {
  }

  /** `sasa` gets its 4.x name `G_sas`. */
  lemma SasaAlias()
    ensures AliasDefined("Sasa", "sasa") && AliasKey("Sasa", "sasa") == Some("G_sas")
  {
    SasaEntry();
    SasaIdentifier();
    SasaRest();
    GSasIdentifier();
    assert FindFrom("Sasa", "Sasa", 0) == Some(0);
    RenamedAlias("Sasa", "sasa", 20);
    assert "g_sas" + "" == "g_sas";
  }

  /** A tool whose name did not change gets no alias. */
  lemma GromppHasNoAlias()
    ensures AliasDefined("Grompp", "grompp") && AliasKey("Grompp", "grompp") == None
  {
    assert Names5To4[0].0 == "grompp";
    assert FirstMatch("grompp", 0) == Some(0);
  }

  /** The scan for `convert-tpr` stops at the entry (convert-tpr, tpbconv). */
  lemma ConvertTprEntry()
    ensures FirstMatch("convert-tpr", 0) == Some(15) && Names5To4[15] == ("convert-tpr", "tpbconv")
  {
    forall j | 0 <= j < 15
      ensures !(Names5To4[j].0 <= "convert-tpr")
    {
      assert Names5To4[j].0[0] != 'c';
    }
    FirstMatchAt("convert-tpr", 0, 15);
  }

  /** The identifier of `convert-tpr`: its dash becomes '_'. */
  lemma ConvertTprIdentifier()
    ensures MakeValidIdentifier("convert-tpr") == "Convert_tpr"
  {
  }

  /** Splitting the double-precision key by that identifier leaves `_d`. */
  lemma ConvertTprRest()
    ensures FindFrom("Convert_tpr_d", "Convert_tpr", 0) == Some(0)
    ensures SplitSecond("Convert_tpr_d", "Convert_tpr") == "_d"
  {
    assert FindFrom("Convert_tpr_d", "Convert_tpr", 11).None?;
    assert "Convert_tpr_d"[11..] == "_d";
  }

  /** The 4.x name with the suffix, made an identifier. */
  lemma TpbconvIdentifier()
    ensures MakeValidIdentifier("tpbconv" + "_d") == "Tpbconv_d"
  {
    assert "tpbconv" + "_d" == "tpbconv_d";
    TpbconvDIdentifier();
  }

  /** The identifier of the double-precision 4.x name. */
  lemma TpbconvDIdentifier()
    ensures MakeValidIdentifier("tpbconv_d") == "Tpbconv_d"
  {
  }

  /** The double-precision suffix of the key survives the renaming. */
  lemma ConvertTprDoubleAlias()
    ensures AliasDefined("Convert_tpr_d", "convert-tpr") && AliasKey("Convert_tpr_d", "convert-tpr") == Some("Tpbconv_d")
  {
    ConvertTprEntry();
    ConvertTprIdentifier();
    ConvertTprRest();
    TpbconvIdentifier();
    RenamedAlias("Convert_tpr_d", "convert-tpr", 15);
  }

  /** The scan for `distance` stops at the entry (distance, g_dist). */
  lemma DistanceEntry()
    ensures FirstMatch("distance", 0) == Some(19) && Names5To4[19] == ("distance", "g_dist")
  {
    forall j | 0 <= j < 19
      ensures !(Names5To4[j].0 <= "distance")
    {
      assert Names5To4[j].0[0] != 'd' || Names5To4[j].0[1] != 'i';
    }
    FirstMatchAt("distance", 0, 19);
  }

  /** The key of `distance`. */
  lemma DistanceIdentifier()
    ensures MakeValidIdentifier("distance") == "Distance"
  {
  }

  /** `Distance` has no suffix after its identifier. */
  lemma DistanceRest()
    ensures FindFrom("Distance", "Distance", 0) == Some(0)
    ensures SplitSecond("Distance", "Distance") == ""
  {
    assert FindFrom("Distance", "Distance", 8).None?;
  }

  /** The identifier of the 4.x name `g_dist`. */
  lemma GDistIdentifier()
    ensures MakeValidIdentifier("g_dist") == "G_dist"
  {
  }

  /** `Distance` gets the legacy key `G_dist`, the one the multi-index patch looks for. */
  lemma DistanceAlias()
    ensures AliasDefined("Distance", "distance") && AliasKey("Distance", "distance") == Some("G_dist")
  {
    DistanceEntry();
    DistanceIdentifier();
    DistanceRest();
    GDistIdentifier();
    RenamedAlias("Distance", "distance", 19);
    assert "g_dist" + "" == "g_dist";
  }

  /** No 5.x name is a prefix of `rms`. */
  lemma RmsNoEntry()
    ensures FirstMatch("rms", 0) == None
  {
    forall j | 0 <= j < |Names5To4|
      ensures !(Names5To4[j].0 <= "rms")
    {
      assert Names5To4[j].0[0] != 'r';
    }
    FirstMatchNone("rms", 0);
  }

  /** A tool no table entry matches gets "G_" and its key in lower case. */
  lemma RmsAlias()
    ensures AliasDefined("Rms", "rms") && AliasKey("Rms", "rms") == Some("G_rms")
  {
    RmsNoEntry();
    RmsLower();
  }

  /** "G_" and `Rms` in lower case. */
  lemma RmsLower()
    ensures "G_" + LowerStr("Rms") == "G_rms"
  {
    assert LowerStr("Rms") == "rms";
  }

  /** The key "G_rms" still holds the tool `rms`, so a second pass aliases it
      once more, to "G_g_rms". */
  lemma UnmatchedAlias()
    ensures AliasDefined("G_rms", "rms") && AliasKey("G_rms", "rms") == Some("G_g_rms")
  {
    RmsNoEntry();
    GRmsLower();
  }

  /** "G_" and `G_rms` in lower case. */
  lemma GRmsLower()
    ensures "G_" + LowerStr("G_rms") == "G_g_rms"
  {
    assert LowerStr("G_rms") == "g_rms";
  }

  const RmsTool := Tool("rms", Some("gmx"), false)

  /** One pass over a registry holding only `Rms` adds `G_rms`. */
  lemma FirstPassRms()
    ensures var d := Dict(["Rms"], map["Rms" := RmsTool]);
      && d.Valid() && Aliasable(d)
      && AliasPass(d) == Dict(["Rms", "G_rms"], map["Rms" := RmsTool, "G_rms" := RmsTool])
  {
    var d := Dict(["Rms"], map["Rms" := RmsTool]);
    RmsAlias();
    assert Aliasable(d);
    assert AliasList(d) == [Some("G_rms")];
  }

  /** A second pass adds `G_g_rms`. */
  lemma SecondPassRms()
    ensures var d := Dict(["Rms", "G_rms"], map["Rms" := RmsTool, "G_rms" := RmsTool]);
      && d.Valid() && Aliasable(d)
      && "G_g_rms" in AliasPass(d).table && "G_g_rms" !in d.table
  {
    var d := Dict(["Rms", "G_rms"], map["Rms" := RmsTool, "G_rms" := RmsTool]);
    RmsAlias();
    UnmatchedAlias();
    assert Aliasable(d);
    var aliases := AliasList(d);
    assert aliases[1] == Some("G_g_rms");
  }

  /** The alias pass is not idempotent: running it twice adds a key the
      first run did not. */
  lemma AliasPassNotIdempotent()
    ensures var d := Dict(["Rms"], map["Rms" := RmsTool]);
      && d.Valid() && Aliasable(d) && Aliasable(AliasPass(d))
      && AliasPass(AliasPass(d)) != AliasPass(d)
  {
    FirstPassRms();
    SecondPassRms();
  }

  /** Both spellings of the header grompp has printed. */
  lemma HeaderSpellings()
    ensures HasHeader("GROMACS version:") && HasHeader("Gromacs version:")
  {
    UpperHeader();
    MixedHeader();
  }

  /** The upper-case spelling. */
  lemma UpperHeader()
    ensures HasHeader("GROMACS version:")
  {
  }

  /** The capitalized spelling. */
  lemma MixedHeader()
    ensures HasHeader("Gromacs version:")
  {
  }

  /** The release line of a 2023 grompp. */
  lemma Release2023()
    ensures MatchVersion("GROMACS version:    2023.2") == Some("2023.2")
  {
    HeaderSpellings();
    var line := "GROMACS version:" + "    " + "2023.2";
    assert line == "GROMACS version:    2023.2";
    VersionRoundTrip("GROMACS version:", "    ", "2023.2");
  }

  /** Older releases print the word VERSION before the number. */
  lemma ReleaseAfterVersionWord()
    ensures MatchVersion("Gromacs version:    VERSION 4.6.5") == Some("4.6.5")
  {
    HeaderSpellings();
    var line := "Gromacs version:" + "    " + ("VERSION" + " " + "4.6.5");
    assert line == "Gromacs version:    VERSION 4.6.5";
    VersionWordRoundTrip("Gromacs version:", "    ", " ", "4.6.5");
  }
}
