// The rule tables of the converter and the two lookups made with them:
// the exclusion check and the ROM-extension test.

module Catalog {
  import opened Text
  import opened GoodPatterns
  import opened Patterns

  /** `_check_exclusions`: the reason of the first exclusion rule that matches at the start of the name. */
  function CheckExclusions(name: string): (r: Option<string>)
    ensures r.Some? <==> exists k :: 0 <= k < |ExcludedPlatforms| && Hits(ExcludedPlatforms[k].pattern, name, AtStart)
  {
    FirstHit(ExcludedPlatforms, name, AtStart)
  }

  /** The first entry of the platform table that matches at the start of the name. */
  function LookupPlatform(name: string): (r: Option<Platform>)
    ensures r.Some? <==> exists k :: 0 <= k < |PlatformMappings| && Hits(PlatformMappings[k].pattern, name, AtStart)
  {
    FirstHit(PlatformMappings, name, AtStart)
  }

  /**
   * `PurePath.suffix` of a file name: from the last dot on, provided that
   * dot is neither the first nor the last character; otherwise empty.
   */
  function Suffix(name: string): (r: string)
    ensures r == [] || (r[0] == '.' && 2 <= |r| < |name| && r == name[|name| - |r|..])
    ensures forall k :: 0 < k < |r| ==> r[k] != '.'
  {
    var i := LastDot(name, |name|);
    if i.Some? && 0 < i.value < |name| - 1 then name[i.value..] else []
  }

  /** `PurePath.stem`: the name without its suffix. */
  function Stem(name: string): (r: string)
    ensures r + Suffix(name) == name
  {
    name[..|name| - |Suffix(name)|]
  }

  /** The index of the last '.' before `end`. */
  function LastDot(name: string, end: nat): (r: Option<nat>)
    requires end <= |name|
    ensures r.Some? ==> r.value < end && name[r.value] == '.' && forall k :: r.value < k < end ==> name[k] != '.'
    ensures r.None? ==> forall k :: 0 <= k < end ==> name[k] != '.'
  {
    if end == 0 then None
    else if name[end - 1] == '.' then Some(end - 1)
    else LastDot(name, end - 1)
  }

  /** `Path(file).suffix.lower() in ROM_EXTENSIONS`. */
  predicate IsRomFile(file: string) {
    LowerStr(Suffix(file)) in RomExtensions
  }

  /** A suffix holds a single dot, so the two-dot entry ".tar.gz" never makes a file count as a ROM. */
  lemma TarGzNeverMatches(file: string)
    ensures LowerStr(Suffix(file)) != ".tar.gz"
  {
    var r := Suffix(file);
    if |r| == 7 {
      assert LowerStr(r)[4] == Lower(r[4]) && r[4] != '.';
    }
  }

  /**
   * The literal each of twelve `PLATFORM_MAPPINGS` entries opens with: GCE
   * Vectrex, Magnavox Odyssey, Watara Supervision, Sharp X68000, Sharp X1,
   * the three Tandy TRS-80 entries, Tiger Gizmondo, the two Pokitto entries
   * and Tsukuda Othello Multivision. Such an entry only matches a name that
   * starts with its literal.
   */
  const ShadowedPrefixes: seq<string> := [
    "GCE" + " " + "Vectrex", "Magnavox" + " " + "Odyssey", "Watara" + " " + "Supervision",
    "Sharp" + " " + "X68000", "Sharp" + " " + "X1", "Tandy " + "TRS-80", "Tiger" + " " + "Gizmondo",
    "" + "Pokitto", "Tsukuda" + " " + "Othello" + " Multivision"]

  /** The shadowed prefixes, spelled out. */
  lemma ShadowedPrefixesSpelled()
    ensures ShadowedPrefixes == ["GCE Vectrex", "Magnavox Odyssey", "Watara Supervision", "Sharp X68000", "Sharp X1",
                                 "Tandy TRS-80", "Tiger Gizmondo", "Pokitto", "Tsukuda Othello Multivision"]
  {
    assert ShadowedPrefixes[0] == "GCE Vectrex";
    assert ShadowedPrefixes[1] == "Magnavox Odyssey";
    assert ShadowedPrefixes[2] == "Watara Supervision";
    assert ShadowedPrefixes[3] == "Sharp X68000";
    assert ShadowedPrefixes[4] == "Sharp X1";
    assert ShadowedPrefixes[5] == "Tandy TRS-80";
    assert ShadowedPrefixes[6] == "Tiger Gizmondo";
    assert ShadowedPrefixes[7] == "Pokitto";
    assert ShadowedPrefixes[8] == "Tsukuda Othello Multivision";
  }

  /**
   * Every name that starts with one of those literals is excluded. The
   * exclusion check runs first, on the same name, so these entries never
   * decide a result for a name that reaches the table unchanged.
   */
  lemma ExclusionShadowsMapping(name: string, n: nat)
    requires n < |ShadowedPrefixes| && StartsWithCI(name, ShadowedPrefixes[n])
    ensures CheckExclusions(name).Some?
  {
    if n < 3 {
      ShadowedConsoles(name, n);
    } else if n < 7 {
      ShadowedComputers(name, n);
    } else {
      ShadowedOthers(name, n);
    }
  }

  lemma ShadowedOthers(name: string, n: nat)
    requires 7 <= n < 9 && StartsWithCI(name, ShadowedPrefixes[n])
    ensures CheckExclusions(name).Some?
  {
    if n == 7 {
      LeadingGapMatch(name, "", "Pokitto");
      assert Hits(ExcludedPlatforms[10].pattern, name, AtStart);
    } else {
      SplitLiteral(name, 0, "Tsukuda" + " " + "Othello", " Multivision");
      ExcludedAfterGap(name, 5, "Tsukuda", " ", "Othello");
    }
  }

  lemma ShadowedConsoles(name: string, n: nat)
    requires n < 3 && StartsWithCI(name, ShadowedPrefixes[n])
    ensures CheckExclusions(name).Some?
  {
    if n == 0 {
      ExcludedAfterGap(name, 7, "GCE", " ", "Vectrex");
    } else if n == 1 {
      ExcludedAfterGap(name, 8, "Magnavox", " ", "Odyssey");
    } else {
      ExcludedAfterGap(name, 6, "Watara", " ", "Supervision");
    }
  }

  lemma ShadowedComputers(name: string, n: nat)
    requires 3 <= n < 7 && StartsWithCI(name, ShadowedPrefixes[n])
    ensures CheckExclusions(name).Some?
  {
    if n == 3 {
      ExcludedAfterGap(name, 0, "Sharp", " ", "X68000");
    } else if n == 4 {
      ExcludedAfterGap(name, 4, "Sharp", " ", "X1");
    } else if n == 5 {
      LeadingGapMatch(name, "Tandy ", "TRS-80");
      assert Hits(ExcludedPlatforms[3].pattern, name, AtStart);
    } else {
      ExcludedAfterGap(name, 1, "Tiger", " ", "Gizmondo");
    }
  }

  /** A name that starts with `a + gap + b` is excluded by the rule `a.*b.*` at index `j`. */
  lemma ExcludedAfterGap(name: string, j: nat, a: string, gap: string, b: string)
    requires j < |ExcludedPlatforms| && ExcludedPlatforms[j].pattern == [Lit(a), AnyRun, Lit(b), AnyRun]
    requires StartsWithCI(name, a + gap + b) && NoLineFeed(gap)
    ensures CheckExclusions(name).Some?
  {
    GapMatch(name, a, gap, b);
    assert Hits(ExcludedPlatforms[j].pattern, name, AtStart);
  }

  /** `PLATFORM_MAPPINGS`, in declaration order; applied with `re.match`. */
  const PlatformMappings: seq<Rule<Platform>> := [
    Rule([Lit("Nintendo"), AnyRun, Lit("Super Nintendo"), AnyRun], Platform("snes", "Super Nintendo Entertainment System")),
    Rule([Lit("Nintendo"), AnyRun, Lit("Super Famicom"), AnyRun], Platform("snes", "Super Nintendo Entertainment System")),
    Rule([Lit("Nintendo"), AnyRun, Lit("Nintendo Entertainment System"), AnyRun], Platform("nes", "Nintendo Entertainment System")),
    Rule([Lit("Nintendo"), AnyRun, Lit("Famicom"), AnyRun, Lit("Entertainment System"), AnyRun], Platform("nes", "Nintendo Entertainment System")),
    Rule([Lit("Nintendo"), AnyRun, Lit("Famicom"), NotAhead(SomeSpace, ["Disk", "&"]), AnyRun], Platform("nes", "Nintendo Entertainment System")),
    Rule([Lit("Nintendo"), AnyRun, Lit("Family Computer"), NotAhead(SomeSpace, ["Disk"]), AnyRun], Platform("nes", "Nintendo Entertainment System")),
    Rule([Lit("Nintendo"), AnyRun, Lit("Family Computer"), AnyRun, Lit("Disk"), AnyRun, Lit("System"), AnyRun], Platform("fds", "Famicom Disk System")),
    Rule([Lit("Nintendo"), AnyRun, Lit("Famicom"), AnyRun, Lit("Disk"), AnyRun, Lit("System"), AnyRun], Platform("fds", "Famicom Disk System")),
    Rule([Lit("Nintendo"), AnyRun, Lit("Game Boy"), NotAhead(SomeSpace, ["Color", "Advance"]), AnyRun], Platform("gb", "Game Boy")),
    Rule([Lit("Nintendo"), AnyRun, Lit("Game Boy Color"), AnyRun], Platform("gbc", "Game Boy Color")),
    Rule([Lit("Nintendo"), AnyRun, Lit("Game Boy Advance"), AnyRun], Platform("gba", "Game Boy Advance")),
    Rule([Lit("Nintendo"), AnyRun, Lit("Nintendo 64DD"), AnyRun], Platform("n64dd", "Nintendo 64DD")),
    Rule([Lit("Nintendo"), AnyRun, Lit("Nintendo 64"), AnyRun], Platform("n64", "Nintendo 64")),
    Rule([Lit("Nintendo"), AnyRun, Lit("GameCube"), AnyRun], Platform("gc", "GameCube")),
    Rule([Lit("Nintendo"), AnyRun, Lit("Wii"), NotAhead(SomeSpace, ["U"]), AnyRun], Platform("wii", "Wii")),
    Rule([Lit("Nintendo"), AnyRun, Lit("Wii U"), AnyRun], Platform("wiiu", "Wii U")),
    Rule([Lit("Nintendo"), AnyRun, Lit("Nintendo DS"), NotAhead(NoSpace, ["i"]), AnyRun], Platform("nds", "Nintendo DS")),
    Rule([Lit("Nintendo"), AnyRun, Lit("Nintendo DSi"), AnyRun], Platform("nds", "Nintendo DS")),
    Rule([Lit("NDS"), AnyRun], Platform("nds", "Nintendo DS")),
    Rule([AnyRun, Lit("Nintendo DS"), AnyRun], Platform("nds", "Nintendo DS")),
    Rule([AnyRun, Lit("Game Boy"), NotAhead(SomeSpace, ["Color", "Advance"]), AnyRun], Platform("gb", "Game Boy")),
    Rule([AnyRun, Lit("GB"), NotAhead(AnySpace, ["C"]), AnyRun], Platform("gb", "Game Boy")),
    Rule([Lit("Nintendo"), AnyRun, Lit("Nintendo 3DS"), AnyRun], Platform("n3ds", "Nintendo 3DS")),
    Rule([Lit("Nintendo"), AnyRun, Lit("Virtual Boy"), AnyRun], Platform("virtualboy", "Virtual Boy")),
    Rule([Lit("Nintendo"), AnyRun, Lit("Pokemon Mini"), AnyRun], Platform("pokemini", "Pokemon Mini")),
    Rule([Lit("Nintendo 64"), EndAnchor], Platform("n64", "Nintendo 64")),
    Rule([Lit("Nintendo Famicom Disk System"), EndAnchor], Platform("fds", "Famicom Disk System")),
    Rule([Lit("Nintendo Game Boy"), EndAnchor], Platform("gb", "Game Boy")),
    Rule([Lit("Nintendo Game Boy Color"), EndAnchor], Platform("gbc", "Game Boy Color")),
    Rule([Lit("Nintendo Game Boy Advance"), EndAnchor], Platform("gba", "Game Boy Advance")),
    Rule([Lit("Nintendo Pokemon Mini"), EndAnchor], Platform("pokemini", "Pokemon Mini")),
    Rule([Lit("Nintendo Virtual Boy"), EndAnchor], Platform("virtualboy", "Virtual Boy")),
    Rule([Lit("Nintendo DS"), EndAnchor], Platform("nds", "Nintendo DS")),
    Rule([Lit("Nintendo Super Famicom & Super Entertainment System"), EndAnchor], Platform("snes", "Super Nintendo Entertainment System")),
    Rule([Lit("Nintendo Famicom & Entertainment System"), EndAnchor], Platform("nes", "Nintendo Entertainment System")),
    Rule([Lit("Sega"), AnyRun, Lit("Master System"), AnyRun], Platform("mastersystem", "Sega Master System")),
    Rule([Lit("Sega"), AnyRun, Lit("Mark III"), AnyRun], Platform("mastersystem", "Sega Master System")),
    Rule([Lit("Sega"), AnyRun, Lit("Mega Drive"), AnyRun], Platform("genesis", "Sega Genesis")),
    Rule([Lit("Sega"), AnyRun, Lit("Genesis"), AnyRun], Platform("genesis", "Sega Genesis")),
    Rule([Lit("Sega"), AnyRun, Lit("Game Gear"), AnyRun], Platform("gamegear", "Sega Game Gear")),
    Rule([Lit("Sega"), AnyRun, Lit("32X"), AnyRun], Platform("sega32x", "Sega 32X")),
    Rule([Lit("Sega"), AnyRun, Lit("Mega"), OptChar, Lit("CD"), AnyRun], Platform("segacd", "Sega CD")),
    Rule([AnyRun, Lit("Genesis"), AnyRun], Platform("genesis", "Sega Genesis")),
    Rule([AnyRun, Lit("Mega Drive"), AnyRun], Platform("genesis", "Sega Genesis")),
    Rule([Lit("Sega"), AnyRun, Lit("Sega CD"), AnyRun], Platform("segacd", "Sega CD")),
    Rule([Lit("Sega"), AnyRun, Lit("Saturn"), AnyRun], Platform("saturn", "Sega Saturn")),
    Rule([Lit("Sega"), AnyRun, Lit("Dreamcast"), AnyRun], Platform("dreamcast", "Sega Dreamcast")),
    Rule([Lit("Sega"), AnyRun, Lit("SG-1000"), AnyRun], Platform("sg1000", "Sega SG-1000")),
    Rule([Lit("Sega 32X"), EndAnchor], Platform("sega32x", "Sega 32X")),
    Rule([Lit("Sega Dreamcast"), EndAnchor], Platform("dreamcast", "Sega Dreamcast")),
    Rule([Lit("Sega Game Gear"), EndAnchor], Platform("gamegear", "Sega Game Gear")),
    Rule([Lit("Sega Mark III & Master System"), EndAnchor], Platform("mastersystem", "Sega Master System")),
    Rule([Lit("Sega Mega Drive & Genesis"), EndAnchor], Platform("megadrive", "Sega Mega Drive")),
    Rule([Lit("Sega Mega-CD & Sega CD"), EndAnchor], Platform("segacd", "Sega CD")),
    Rule([Lit("Sega Saturn"), EndAnchor], Platform("saturn", "Sega Saturn")),
    Rule([Lit("Sega Game 1000"), EndAnchor], Platform("sg1000", "Sega SG-1000")),
    Rule([Lit("Sony"), AnyRun, Lit("PlayStation"), NotAhead(SomeSpace, ["2", "3", "4", "Portable", "Vita"]), AnyRun], Platform("psx", "PlayStation")),
    Rule([Lit("Sony"), AnyRun, Lit("PlayStation 2"), AnyRun], Platform("ps2", "PlayStation 2")),
    Rule([Lit("Sony"), AnyRun, Lit("PlayStation 3"), AnyRun], Platform("ps3", "PlayStation 3")),
    Rule([Lit("Sony"), AnyRun, Lit("PlayStation 4"), AnyRun], Platform("ps4", "PlayStation 4")),
    Rule([Lit("Sony"), AnyRun, Lit("PlayStation Portable"), AnyRun], Platform("psp", "PlayStation Portable")),
    Rule([Lit("Sony"), AnyRun, Lit("PlayStation Vita"), AnyRun], Platform("psvita", "PlayStation Vita")),
    Rule([AnyRun, Lit("PlayStation 1"), AnyRun], Platform("psx", "PlayStation")),
    Rule([AnyRun, Lit("PS1"), AnyRun], Platform("psx", "PlayStation")),
    Rule([AnyRun, Lit("PSX"), AnyRun], Platform("psx", "PlayStation")),
    Rule([Lit("Atari"), AnyRun, Lit("2600"), AnyRun], Platform("atari2600", "Atari 2600")),
    Rule([Lit("Atari"), AnyRun, Lit("5200"), AnyRun], Platform("atari5200", "Atari 5200")),
    Rule([Lit("Atari"), AnyRun, Lit("7800"), AnyRun], Platform("atari7800", "Atari 7800")),
    Rule([Lit("Atari"), AnyRun, Lit("Lynx"), AnyRun], Platform("atarilynx", "Atari Lynx")),
    Rule([Lit("Atari"), AnyRun, Lit("Jaguar"), NotAhead(SomeSpace, ["CD"]), AnyRun], Platform("atarijaguar", "Atari Jaguar")),
    Rule([Lit("Atari"), AnyRun, Lit("Jaguar CD"), AnyRun], Platform("atarijaguarcd", "Atari Jaguar CD")),
    Rule([Lit("Atari"), AnyRun, Lit("8-bit"), AnyRun], Platform("atari800", "Atari 8-bit Family")),
    Rule([Lit("Atari"), AnyRun, Lit("ST"), AnyRun], Platform("atarist", "Atari ST")),
    Rule([Lit("Atari"), AnyRun, Lit("XE"), AnyRun], Platform("atarixe", "Atari XE")),
    Rule([Lit("Atari 8bit"), EndAnchor], Platform("atari800", "Atari 8-bit")),
    Rule([Lit("Atari Lynx"), EndAnchor], Platform("atarilynx", "Atari Lynx")),
    Rule([Lit("Atari ST"), EndAnchor], Platform("atarist", "Atari ST")),
    Rule([Lit("Atari 2600 & VCS"), EndAnchor], Platform("atari2600", "Atari 2600")),
    Rule([Lit("Atari 5200"), EndAnchor], Platform("atari5200", "Atari 5200")),
    Rule([Lit("Atari 7800"), EndAnchor], Platform("atari7800", "Atari 7800")),
    Rule([Lit("DOS"), AnyRun], Platform("pc", "PC (DOS)")),
    Rule([Lit("IBM"), AnyRun, Lit("PC"), AnyRun], Platform("pc", "PC (IBM Compatible)")),
    Rule([AnyRun, Lit("PC and Compatibles"), AnyRun], Platform("pc", "PC (IBM Compatible)")),
    Rule([Lit("Commodore"), AnyRun, Lit("64"), AnyRun], Platform("c64", "Commodore 64")),
    Rule([Lit("Commodore"), AnyRun, Lit("Amiga"), AnyRun], Platform("amiga", "Commodore Amiga")),
    Rule([Lit("Coleco"), AnyRun, Lit("ColecoVision"), AnyRun], Platform("colecovision", "ColecoVision")),
    Rule([Lit("Mattel"), AnyRun, Lit("Intellivision"), AnyRun], Platform("intellivision", "Mattel Intellivision")),
    Rule([Lit("NEC"), AnyRun, Lit("PC Engine"), AnyRun], Platform("pcengine", "PC Engine")),
    Rule([Lit("NEC"), AnyRun, Lit("TurboGrafx"), AnyRun], Platform("pcengine", "TurboGrafx-16")),
    Rule([Lit("SNK"), AnyRun, Lit("Neo"), OptChar, Lit("Geo Pocket"), NotAhead(SomeSpace, ["Color"]), AnyRun], Platform("ngp", "Neo Geo Pocket")),
    Rule([Lit("SNK"), AnyRun, Lit("Neo"), OptChar, Lit("Geo Pocket Color"), AnyRun], Platform("ngpc", "Neo Geo Pocket Color")),
    Rule([Lit("Bandai"), AnyRun, Lit("WonderSwan"), NotAhead(SomeSpace, ["Color"]), AnyRun], Platform("wonderswan", "WonderSwan")),
    Rule([Lit("Bandai"), AnyRun, Lit("WonderSwan Color"), AnyRun], Platform("wonderswancolor", "WonderSwan Color")),
    Rule([Lit("3DO"), AnyRun], Platform("3do", "3DO Interactive Multiplayer")),
    Rule([Lit("Amstrad"), AnyRun, Lit("CPC"), AnyRun], Platform("amstradcpc", "Amstrad CPC")),
    Rule([Lit("Apple"), AnyRun, Lit("Apple II"), AnyRun], Platform("apple2", "Apple II")),
    Rule([AnyRun, Lit("MSX"), NotAhead(NoSpace, ["2"]), AnyRun], Platform("msx", "MSX")),
    Rule([Lit("Sinclair"), AnyRun, Lit("ZX Spectrum"), AnyRun], Platform("zxspectrum", "ZX Spectrum")),
    Rule([Lit("Microsoft"), AnyRun, Lit("Xbox"), NotAhead(SomeSpace, ["360"]), AnyRun], Platform("xbox", "Microsoft Xbox")),
    Rule([Lit("Microsoft"), AnyRun, Lit("Xbox 360"), AnyRun], Platform("xbox360", "Microsoft Xbox 360")),
    Rule([AnyRun, Lit("Macintosh"), AnyRun], Platform("macintosh", "Apple Macintosh")),
    Rule([Lit("3DO Interactive Multiplayer"), EndAnchor], Platform("3do", "3DO Interactive Multiplayer")),
    Rule([AnyRun, Lit("3DO"), AnyRun], Platform("3do", "3DO Interactive Multiplayer")),
    Rule([Lit("Bandai WonderSwan Color"), EndAnchor], Platform("wonderswancolor", "Bandai WonderSwan Color")),
    Rule([Lit("Bandai WonderSwan"), EndAnchor], Platform("wonderswan", "Bandai WonderSwan")),
    Rule([AnyRun, Lit("WonderSwan Color")], Platform("wonderswancolor", "Bandai WonderSwan Color")),
    Rule([AnyRun, Lit("WonderSwan")], Platform("wonderswan", "Bandai WonderSwan")),
    Rule([Lit("Coleco ColecoVision"), EndAnchor], Platform("coleco", "ColecoVision")),
    Rule([AnyRun, Lit("ColecoVision")], Platform("coleco", "ColecoVision")),
    Rule([Lit("GCE Vectrex"), EndAnchor], Platform("vectrex", "GCE Vectrex")),
    Rule([AnyRun, Lit("Vectrex")], Platform("vectrex", "GCE Vectrex")),
    Rule([Lit("Magnavox Odyssey")], Platform("odyssey2", "Magnavox Odyssey 2")),
    Rule([AnyRun, Lit("Odyssey"), AnyRun], Platform("odyssey2", "Magnavox Odyssey 2")),
    Rule([Lit("Mattel Intellivision"), EndAnchor], Platform("intellivision", "Mattel Intellivision")),
    Rule([AnyRun, Lit("Intellivision")], Platform("intellivision", "Mattel Intellivision")),
    Rule([Lit("NEC PC-Engine & TurboGrafx-16"), EndAnchor], Platform("pcengine", "PC Engine")),
    Rule([Lit("NEC SuperGrafx"), EndAnchor], Platform("supergrafx", "PC Engine SuperGrafx")),
    Rule([Lit("NEC PC-8801"), EndAnchor], Platform("pc98", "NEC PC-98")),
    Rule([Lit("SNK Neo-Geo CD"), EndAnchor], Platform("neogeocd", "Neo Geo CD")),
    Rule([Lit("SNK Neo-Geo Pocket Color"), EndAnchor], Platform("ngpc", "Neo Geo Pocket Color")),
    Rule([Lit("SNK Neo-Geo Pocket"), EndAnchor], Platform("ngp", "Neo Geo Pocket")),
    Rule([AnyRun, Lit("Neo-Geo CD")], Platform("neogeocd", "Neo Geo CD")),
    Rule([AnyRun, Lit("Neo-Geo Pocket Color")], Platform("ngpc", "Neo Geo Pocket Color")),
    Rule([AnyRun, Lit("Neo-Geo Pocket")], Platform("ngp", "Neo Geo Pocket")),
    Rule([Lit("Sony PlayStation"), EndAnchor], Platform("psx", "PlayStation")),
    Rule([Lit("Sony PlayStation 2"), EndAnchor], Platform("ps2", "PlayStation 2")),
    Rule([Lit("Sony - PlayStation Portable"), EndAnchor], Platform("psp", "PlayStation Portable")),
    Rule([Lit("Watara Supervision"), EndAnchor], Platform("supervision", "Watara Supervision")),
    Rule([AnyRun, Lit("Supervision")], Platform("supervision", "Watara Supervision")),
    Rule([Lit("Commodore Amiga"), EndAnchor], Platform("amiga", "Commodore Amiga")),
    Rule([AnyRun, Lit("Amiga")], Platform("amiga", "Commodore Amiga")),
    Rule([Lit("Sharp X68000"), EndAnchor], Platform("x68000", "Sharp X68000")),
    Rule([Lit("Sharp X1"), EndAnchor], Platform("x1", "Sharp X1")),
    Rule([AnyRun, Lit("X68000")], Platform("x68000", "Sharp X68000")),
    Rule([Lit("Tandy TRS-80"), AnyRun, Lit("Model I"), EndAnchor], Platform("trs80", "TRS-80")),
    Rule([Lit("Tandy TRS-80"), AnyRun, Lit("Model III"), EndAnchor], Platform("trs80", "TRS-80")),
    Rule([Lit("Tandy TRS-80"), AnyRun, Lit("Color Computer"), EndAnchor], Platform("coco", "TRS-80 Color Computer")),
    Rule([Lit("Tiger Gizmondo"), EndAnchor], Platform("gizmondo", "Tiger Gizmondo")),
    Rule([Lit("Sinclair ZX Spectrum"), EndAnchor], Platform("zxspectrum", "ZX Spectrum")),
    Rule([Lit("Pokitto"), EndAnchor], Platform("pokitto", "Pokitto")),
    Rule([Lit("Pokitto"), AnyRun], Platform("pokitto", "Pokitto")),
    Rule([Lit("Dragon")], Platform("dragon32", "Dragon Data")),
    Rule([Lit("Dragon"), AnyRun], Platform("dragon32", "Dragon Data")),
    Rule([Lit("Tsukuda Othello Multivision"), EndAnchor], Platform("othello", "Othello Multivision")),
    Rule([AnyRun, Lit("Arcade"), AnyRun], Platform("arcade", "Arcade")),
    Rule([Lit("Neo"), OptChar, Lit("Geo"), NotAhead(SomeSpace, ["Pocket"]), AnyRun], Platform("neogeo", "Neo Geo")),
    Rule([Lit("FinalBurn"), AnyRun, Lit("Arcade"), AnyRun], Platform("arcade", "Arcade")),
    Rule([Lit("MAME"), AnyRun], Platform("arcade", "Arcade (MAME)")),
    Rule([AnyRun, Lit("Atomiswave"), AnyRun], Platform("atomiswave", "Atomiswave Arcade")),
    Rule([Lit("Atomiswave"), EndAnchor], Platform("atomiswave", "Atomiswave Arcade")),
    Rule([AnyRun, Lit("Cannonball"), AnyRun], Platform("cannonball", "Cannonball (OutRun Engine)")),
    Rule([Lit("Cannonball"), EndAnchor], Platform("cannonball", "Cannonball (OutRun Engine)")),
    Rule([Lit("GoodNES"), AnyRun], Platform("nes", "Nintendo Entertainment System")),
    Rule([Lit("GoodSNES"), AnyRun], Platform("snes", "Super Nintendo Entertainment System")),
    Rule([Lit("GoodN64"), AnyRun], Platform("n64", "Nintendo 64")),
    Rule([Lit("N64"), AnyRun], Platform("n64", "Nintendo 64")),
    Rule([Lit("GoodGen"), AnyRun], Platform("genesis", "Sega Genesis")),
    Rule([Lit("GoodSMS"), AnyRun], Platform("mastersystem", "Sega Master System")),
    Rule([Lit("GoodGG"), AnyRun], Platform("gamegear", "Sega Game Gear")),
    Rule([Lit("Good32X"), AnyRun], Platform("sega32x", "Sega 32X")),
    Rule([Lit("GoodMCD"), AnyRun], Platform("segacd", "Sega CD")),
    Rule([Lit("GoodSAT"), AnyRun], Platform("saturn", "Sega Saturn")),
    Rule([Lit("GoodPCE"), AnyRun], Platform("pcengine", "PC Engine")),
    Rule([Lit("GoodLynx"), AnyRun], Platform("atarilynx", "Atari Lynx")),
    Rule([Lit("Good5200"), AnyRun], Platform("atari5200", "Atari 5200")),
    Rule([Lit("Good7800"), AnyRun], Platform("atari7800", "Atari 7800")),
    Rule([Lit("Good2600"), AnyRun], Platform("atari2600", "Atari 2600")),
    Rule([Lit("GoodGBC"), AnyRun], Platform("gbc", "Game Boy Color")),
    Rule([Lit("GoodGB"), AnyRun], Platform("gb", "Game Boy")),
    Rule([Lit("GoodGBA"), AnyRun], Platform("gba", "Game Boy Advance")),
    Rule([Lit("GoodA26"), AnyRun], Platform("atari2600", "Atari 2600")),
    Rule([Lit("GoodA78"), AnyRun], Platform("atari7800", "Atari 7800")),
    Rule([Lit("GoodA52"), AnyRun], Platform("atari5200", "Atari 5200")),
    Rule([Lit("GoodCOL"), AnyRun], Platform("coleco", "ColecoVision")),
    Rule([Lit("GoodINTV"), AnyRun], Platform("intellivision", "Mattel Intellivision")),
    Rule([Lit("Good"), AnyRun], Platform("unknown", "Unknown Good Tool Collection")),
    Rule([Lit("FinalBurn Neo - NES Games")], Platform("nes", "Nintendo Entertainment System")),
    Rule([Lit("FinalBurn Neo - SNES Games")], Platform("snes", "Super Nintendo Entertainment System")),
    Rule([Lit("FinalBurn Neo - Genesis Games")], Platform("genesis", "Sega Genesis")),
    Rule([Lit("FinalBurn Neo - Master System Games")], Platform("mastersystem", "Sega Master System")),
    Rule([Lit("FinalBurn Neo - Game Gear Games")], Platform("gamegear", "Sega Game Gear")),
    Rule([Lit("FinalBurn Neo - PC Engine Games")], Platform("pcengine", "PC Engine")),
    Rule([Lit("FinalBurn Neo - Neo Geo Games")], Platform("neogeo", "Neo Geo")),
    Rule([Lit("FinalBurn Neo - CPS Games")], Platform("arcade", "Arcade (CPS)")),
    Rule([Lit("FinalBurn Neo - "), AnyRun], Platform("arcade", "Arcade (FinalBurn Neo)"))
  ]

  /** `EXCLUDED_PLATFORMS`, in declaration order; applied with `re.match`. */
  const ExcludedPlatforms: seq<Rule<string>> := [
    Rule([Lit("Sharp"), AnyRun, Lit("X68000"), AnyRun], "X68000 not supported by EmulationStation"),
    Rule([Lit("Tiger"), AnyRun, Lit("Gizmondo"), AnyRun], "Gizmondo not supported by EmulationStation"),
    Rule([Lit("Dragon Data"), AnyRun, Lit("Dragon"), AnyRun], "Dragon Data systems not supported by EmulationStation"),
    Rule([AnyRun, Lit("TRS-80"), AnyRun], "TRS-80 systems not supported by EmulationStation"),
    Rule([Lit("Sharp"), AnyRun, Lit("X1"), AnyRun], "Sharp X1 not supported by EmulationStation"),
    Rule([Lit("Tsukuda"), AnyRun, Lit("Othello"), AnyRun], "Othello Multivision not supported by EmulationStation"),
    Rule([Lit("Watara"), AnyRun, Lit("Supervision"), AnyRun], "Watara Supervision not supported by EmulationStation"),
    Rule([Lit("GCE"), AnyRun, Lit("Vectrex"), AnyRun], "Vectrex support limited in EmulationStation"),
    Rule([Lit("Magnavox"), AnyRun, Lit("Odyssey"), AnyRun], "Odyssey systems support limited in EmulationStation"),
    Rule([Lit("Philips"), AnyRun, Lit("Videopac"), AnyRun], "Videopac support limited in EmulationStation"),
    Rule([AnyRun, Lit("Pokitto"), AnyRun], "Pokitto not supported by EmulationStation")
  ]

  /** `ROM_EXTENSIONS`. */
  const RomExtensions: set<string> := {
    ".32x", ".3ds", ".3dsx", ".7z", ".a26", ".a52", ".a78", ".adf", ".adz", ".bin", ".bsx", ".bz2",
    ".cas", ".ccd", ".chd", ".cia", ".ciso", ".col", ".crt", ".cso", ".cue", ".d64", ".dms",
    ".dsk", ".ecm", ".fds", ".fig", ".g64", ".gb", ".gba", ".gbc", ".gcm", ".gen", ".gg", ".gz",
    ".hdf", ".img", ".int", ".iso", ".j64", ".jag", ".lnx", ".lyx", ".m3u", ".md", ".mdf", ".mds",
    ".min", ".n64", ".n64dd", ".nde", ".nds", ".nes", ".nez", ".ngc", ".ngp", ".nrg", ".nsf",
    ".nsp", ".pbp", ".pc2", ".pce", ".prg", ".rar", ".rom", ".rvz", ".sbi", ".sfc", ".sg", ".sgb",
    ".sgd", ".smc", ".smd", ".sms", ".srl", ".st", ".sub", ".sv", ".swc", ".t64", ".tar.gz",
    ".unf", ".v64", ".vb", ".vpk", ".wad", ".wbfs", ".ws", ".wsc", ".xci", ".z64", ".zip"
  }
}
