// The specialised matchers for GoodTools, FinalBurn Neo and MAME folder
// names (good_pattern_handler.py), tried in priority order before the
// general catalogue of platform patterns.

module GoodPatterns {
  import opened Text

  /** A `(shortcode, display_name)` pair. */
  datatype Platform = Platform(shortcode: string, displayName: string)

  /** `GoodPatternHandler.GOOD_TOOL_MAPPINGS`. */
  const GoodToolMappings: map<string, Platform> := map[
    "NES" := Platform("nes", "Nintendo Entertainment System"),
    "SNES" := Platform("snes", "Super Nintendo Entertainment System"),
    "N64" := Platform("n64", "Nintendo 64"),
    "Gen" := Platform("genesis", "Sega Genesis"),
    "SMS" := Platform("mastersystem", "Sega Master System"),
    "GG" := Platform("gamegear", "Sega Game Gear"),
    "32X" := Platform("sega32x", "Sega 32X"),
    "MCD" := Platform("segacd", "Sega CD"),
    "SAT" := Platform("saturn", "Sega Saturn"),
    "PCE" := Platform("pcengine", "PC Engine"),
    "Lynx" := Platform("atarilynx", "Atari Lynx"),
    "5200" := Platform("atari5200", "Atari 5200"),
    "7800" := Platform("atari7800", "Atari 7800"),
    "2600" := Platform("atari2600", "Atari 2600"),
    "A26" := Platform("atari2600", "Atari 2600"),
    "A78" := Platform("atari7800", "Atari 7800"),
    "A52" := Platform("atari5200", "Atari 5200"),
    "GBC" := Platform("gbc", "Game Boy Color"),
    "GB" := Platform("gb", "Game Boy"),
    "GBA" := Platform("gba", "Game Boy Advance"),
    "COL" := Platform("coleco", "ColecoVision"),
    "INTV" := Platform("intellivision", "Mattel Intellivision")
  ]

  /** `MAMEPatternHandler.FINALBURN_MAPPINGS`, looked up with exact case. */
  const FinalBurnMappings: map<string, Platform> := map[
    "NES Games" := Platform("nes", "Nintendo Entertainment System"),
    "SNES Games" := Platform("snes", "Super Nintendo Entertainment System"),
    "Genesis Games" := Platform("genesis", "Sega Genesis"),
    "Master System Games" := Platform("mastersystem", "Sega Master System"),
    "Game Gear Games" := Platform("gamegear", "Sega Game Gear"),
    "PC Engine Games" := Platform("pcengine", "PC Engine"),
    "Neo Geo Games" := Platform("neogeo", "Neo Geo"),
    "CPS Games" := Platform("arcade", "Arcade (CPS)"),
    "Arcade Games" := Platform("arcade", "Arcade")
  ]

  const GoodPrefix := "Good"
  const FinalBurnPrefix := "FinalBurn Neo - "
  const MamePrefix := "MAME"

  /**
   * The platform code that `^Good([A-Z0-9]+)\b.*` (ignoring case) captures,
   * upper-cased: the longest run of letters and digits after "Good", which
   * must be followed by the end of the name or a non-word character.
   * Shorter runs never help, since `\b` cannot fall between two letters.
   */
  function GoodCode(name: string): (r: Option<string>)
    ensures r.Some? ==> StartsWithCI(name, GoodPrefix) && |r.value| >= 1
    ensures r.Some? ==> forall k :: 0 <= k < |r.value| ==> IsAsciiAlnum(r.value[k]) && !('a' <= r.value[k] <= 'z')
  {
    if !StartsWithCI(name, GoodPrefix) then None
    else
      var e := AlnumEnd(name, 4);
      if e > 4 && (e == |name| || !IsWordChar(name[e])) then
        var code := UpperStr(name[4..e]);
        assert forall k :: 0 <= k < |code| ==> IsAsciiAlnum(name[4..e][k]);
        Some(code)
      else None
  }

  /** `GoodPatternHandler.match_good_pattern`. */
  function MatchGoodPattern(name: string): (r: Option<Platform>)
    ensures r.Some? <==> GoodCode(name).Some?
    ensures r.Some? && GoodCode(name).value in GoodToolMappings ==> r.value == GoodToolMappings[GoodCode(name).value]
    ensures r.Some? && GoodCode(name).value !in GoodToolMappings ==>
      r.value == Platform("unknown", "Good " + GoodCode(name).value + " Collection")
  {
    match GoodCode(name)
    case None => None
    case Some(code) =>
      if code in GoodToolMappings then Some(GoodToolMappings[code])
      else Some(Platform("unknown", "Good " + code + " Collection"))
  }

  /** `MAMEPatternHandler.match_finalburn_pattern`: `^FinalBurn Neo - (.+)$`, ignoring case. */
  function MatchFinalBurnPattern(name: string): (r: Option<Platform>)
    ensures r.Some? <==> StartsWithCI(name, FinalBurnPrefix) && LineBody(name[|FinalBurnPrefix|..]).Some?
    ensures r.Some? ==>
      var desc := LineBody(name[|FinalBurnPrefix|..]).value;
      r.value == if desc in FinalBurnMappings then FinalBurnMappings[desc]
                 else Platform("arcade", "Arcade (FinalBurn Neo " + desc + ")")
  {
    if !StartsWithCI(name, FinalBurnPrefix) then None
    else
      match LineBody(name[|FinalBurnPrefix|..])
      case None => None
      case Some(desc) =>
        if desc in FinalBurnMappings then Some(FinalBurnMappings[desc])
        else Some(Platform("arcade", "Arcade (FinalBurn Neo " + desc + ")"))
  }

  /** `MAMEPatternHandler.match_mame_pattern`: `^MAME.*`, ignoring case. */
  function MatchMamePattern(name: string): (r: Option<Platform>)
    ensures r.Some? <==> StartsWithCI(name, MamePrefix)
    ensures r.Some? ==> r.value == Platform("arcade", "Arcade (MAME)")
  {
    if StartsWithCI(name, MamePrefix) then Some(Platform("arcade", "Arcade (MAME)")) else None
  }

  /** Which handler of `SpecializedPatternProcessor` produced the result. */
  datatype Handler = GoodTools | FinalBurnNeo | Mame

  /** The `pattern_type` entry that goes with each handler in the context. */
  function PatternType(h: Handler): string {
    match h
    case GoodTools => "good_collection"
    case FinalBurnNeo => "finalburn_collection"
    case Mame => "mame_collection"
  }

  /** The result of `process` with the `handler_used` entry of its context. */
  datatype Specialized = Specialized(result: Option<Platform>, handlerUsed: Option<Handler>)

  /** `SpecializedPatternProcessor.process`: Good tools, then FinalBurn Neo, then MAME. */
  function ProcessSpecialized(name: string): (r: Specialized)
    ensures r.result.Some? <==> r.handlerUsed.Some?
    ensures r.handlerUsed == Some(GoodTools) <==> MatchGoodPattern(name).Some?
    ensures r.handlerUsed == Some(FinalBurnNeo) <==>
      MatchGoodPattern(name).None? && MatchFinalBurnPattern(name).Some?
    ensures r.handlerUsed == Some(Mame) <==>
      MatchGoodPattern(name).None? && MatchFinalBurnPattern(name).None? && MatchMamePattern(name).Some?
    ensures r.handlerUsed == Some(GoodTools) ==> r.result == MatchGoodPattern(name)
    ensures r.handlerUsed == Some(FinalBurnNeo) ==> r.result == MatchFinalBurnPattern(name)
    ensures r.handlerUsed == Some(Mame) ==> r.result == MatchMamePattern(name)
  {
    var good := MatchGoodPattern(name);
    if good.Some? then Specialized(good, Some(GoodTools))
    else
      var fb := MatchFinalBurnPattern(name);
      if fb.Some? then Specialized(fb, Some(FinalBurnNeo))
      else
        var mame := MatchMamePattern(name);
        if mame.Some? then Specialized(mame, Some(Mame))
        else Specialized(None, None)
  }

  // ---------------------------------------------------------------------
  // Properties of the matchers

  /** A "Good" name with a run of letters and digits ending at a word boundary always yields a result. */
  lemma GoodNameAlwaysMatches(name: string, e: nat)
    requires StartsWithCI(name, GoodPrefix)
    requires 4 < e <= |name| && forall k :: 4 <= k < e ==> IsAsciiAlnum(name[k])
    requires e == |name| || !IsWordChar(name[e])
    ensures MatchGoodPattern(name).Some?
    ensures GoodCode(name) == Some(UpperStr(name[4..e]))
  {
    assert AlnumEnd(name, 4) == e by {
      AlnumEndIs(name, 4, e);
    }
  }

  lemma {:induction false} AlnumEndIs(s: string, i: nat, e: nat)
    requires i <= e <= |s|
    requires forall k :: i <= k < e ==> IsAsciiAlnum(s[k])
    requires e == |s| || !IsAsciiAlnum(s[e])
    ensures AlnumEnd(s, i) == e
    decreases e - i
  {
    if i < e {
      AlnumEndIs(s, i + 1, e);
    }
  }

  /**
   * Every upper-case key of the table is reachable: "Good" + key followed by
   * the end of the name or a non-word character gives that key's entry.
   */
  lemma GoodKnownCode(key: string, rest: string)
    requires key in GoodToolMappings && UpperStr(key) == key
    requires rest == [] || !IsWordChar(rest[0])
    ensures MatchGoodPattern(GoodPrefix + key + rest) == Some(GoodToolMappings[key])
  {
    var name := GoodPrefix + key + rest;
    assert forall k :: 0 <= k < |key| ==> IsAsciiAlnum(key[k]) by {
      forall k | 0 <= k < |key| ensures IsAsciiAlnum(key[k]) {
        assert key[k] == name[4 + k];
      }
    }
    GoodNameAlwaysMatches(name, 4 + |key|);
    assert name[4..4 + |key|] == key;
  }

  /**
   * The keys "Gen" and "Lynx" contain lower-case letters while the captured
   * code is upper-cased, so the Good matcher never yields their entries.
   */
  lemma GoodMixedCaseKeysUnreachable(name: string)
    ensures MatchGoodPattern(name) != Some(GoodToolMappings["Gen"])
    ensures MatchGoodPattern(name) != Some(GoodToolMappings["Lynx"])
  {
    assert 'a' <= "Gen"[1] <= 'z' && 'a' <= "Lynx"[1] <= 'z';
    assert GoodToolMappings["Gen"].shortcode == "genesis" && GoodToolMappings["Lynx"].shortcode == "atarilynx";
  }

  /** "GoodGen v1": the code GEN is not a key, so the folder is an unknown Good collection. */
  lemma GoodGenIsUnknown()
    ensures MatchGoodPattern("GoodGen v1") == Some(Platform("unknown", "Good GEN Collection"))
  {
    var name := "GoodGen v1";
    assert EqCI(name[0..4], GoodPrefix);
    AlnumEndIs(name, 4, 7);
    assert !IsWordChar(name[7]);
    assert name[4..7] == "Gen";
    var code := UpperStr(name[4..7]);
    assert code == "GEN";
    assert code !in GoodToolMappings;
    assert GoodCode(name) == Some(code);
    assert "Good " + code + " Collection" == "Good GEN Collection";
  }

  /** Every shortcode the specialised handlers return is a table value, "unknown" or "arcade". */
  lemma SpecializedShortcodes(name: string)
    ensures ProcessSpecialized(name).result.Some? ==>
      var code := ProcessSpecialized(name).result.value.shortcode;
      code == "unknown" || code == "arcade"
      || (exists k :: k in GoodToolMappings && GoodToolMappings[k].shortcode == code)
      || (exists k :: k in FinalBurnMappings && FinalBurnMappings[k].shortcode == code)
  {
  }

  /**
   * The three prefixes start with different letters, so at most one matcher
   * applies to any name: the priority order never decides between two hits.
   */
  lemma SpecializedMatchersDisjoint(name: string)
    ensures !(MatchGoodPattern(name).Some? && MatchFinalBurnPattern(name).Some?)
    ensures !(MatchGoodPattern(name).Some? && MatchMamePattern(name).Some?)
    ensures !(MatchFinalBurnPattern(name).Some? && MatchMamePattern(name).Some?)
  {
    if |name| > 0 {
      assert StartsWithCI(name, GoodPrefix) ==> Lower(name[0]) == 'g';
      assert StartsWithCI(name, FinalBurnPrefix) ==> Lower(name[0]) == 'f';
      assert StartsWithCI(name, MamePrefix) ==> Lower(name[0]) == 'm';
    }
  }

  /** The sample name "Regular DAT folder" is left to the general catalogue. */
  lemma RegularFolderNotSpecialized()
    ensures ProcessSpecialized("Regular DAT folder") == Specialized(None, None)
  {
    var name := "Regular DAT folder";
    assert Lower(name[0]) == 'r';
    assert !StartsWithCI(name, GoodPrefix) by { assert Lower(GoodPrefix[0]) == 'g'; }
    assert !StartsWithCI(name, FinalBurnPrefix) by { assert Lower(FinalBurnPrefix[0]) == 'f'; }
    assert !StartsWithCI(name, MamePrefix) by { assert Lower(MamePrefix[0]) == 'm'; }
  }

  /**
   * A FinalBurn Neo name with a one-line description looks the description
   * up with its exact case, and falls back to a generic arcade entry.
   */
  lemma FinalBurnDescriptionLookup(prefix: string, desc: string)
    requires EqCI(prefix, FinalBurnPrefix) && |desc| >= 1 && NoLineFeed(desc)
    ensures MatchFinalBurnPattern(prefix + desc) ==
      Some(if desc in FinalBurnMappings then FinalBurnMappings[desc]
           else Platform("arcade", "Arcade (FinalBurn Neo " + desc + ")"))
  {
    var name := prefix + desc;
    assert name[..|FinalBurnPrefix|] == prefix;
    assert name[|FinalBurnPrefix|..] == desc;
  }
}
