// RegionalPreferenceEngine: which platform folder a detected platform ends
// up in, depending on whether regional variants are consolidated or kept
// apart, and the display name shown for it. Its patterns are applied with
// `re.search`, so they may match anywhere in the name.

module Regional {
  import opened Text
  import opened Patterns

  /** The two values `--regional-mode` accepts. */
  datatype RegionalMode = Consolidated | Regional

  /** `always_separate`, flattened in dict order (platform by platform, pattern by pattern). */
  const AlwaysSeparateRules: seq<Rule<string>> := [
    Rule([AnyRun, Lit("Family Computer"), AnyRun, Lit("Disk"), AnyRun, Lit("System"), AnyRun], "fds"),
    Rule([AnyRun, Lit("Famicom"), AnyRun, Lit("Disk"), AnyRun, Lit("System"), AnyRun], "fds"),
    Rule([AnyRun, Lit("Nintendo 64DD"), AnyRun], "n64dd"),
    Rule([AnyRun, Lit("Sega"), AnyRun, Lit("CD"), AnyRun], "segacd"),
    Rule([AnyRun, Lit("Mega"), OptChar, Lit("CD"), AnyRun], "segacd"),
    Rule([AnyRun, Lit("PC Engine"), AnyRun, Lit("CD"), AnyRun], "pcenginecd"),
    Rule([AnyRun, Lit("TurboGrafx"), AnyRun, Lit("CD"), AnyRun], "turbografxcd")
  ]

  /** `regional_mappings["regional"]`, flattened in dict order. */
  const RegionalRules: seq<Rule<string>> := [
    Rule([AnyRun, Lit("Super Nintendo"), AnyRun], "snes"),
    Rule([AnyRun, Lit("Super Famicom"), AnyRun], "sfc"),
    Rule([AnyRun, Lit("Nintendo Entertainment System"), AnyRun], "nes"),
    Rule([AnyRun, Lit("Famicom"), NotAhead(SomeSpace, ["Disk", "&"]), AnyRun], "famicom"),
    Rule([AnyRun, Lit("Family Computer"), NotAhead(SomeSpace, ["Disk"]), AnyRun], "famicom"),
    Rule([AnyRun, Lit("PC Engine"), NotAhead(SomeSpace, ["CD"]), AnyRun], "pcengine"),
    Rule([AnyRun, Lit("TurboGrafx"), AnyRun, NotAhead(SomeSpace, ["CD"]), AnyRun], "turbografx")
  ]

  /** `RegionalPreferenceEngine`: only the mode varies; the tables are constants. */
  datatype RegionalEngine = RegionalEngine(mode: RegionalMode)
  {
    /**
     * `get_target_platform`: an always-separate variant wins regardless of
     * mode; otherwise consolidated mode keeps the detected platform and
     * regional mode takes the first regional hit, or else the detected one.
     */
    function GetTargetPlatform(folderName: string, detected: string): (r: string)
      ensures (exists k :: 0 <= k < |AlwaysSeparateRules| && Hits(AlwaysSeparateRules[k].pattern, folderName, Anywhere))
                ==> r == FirstHit(AlwaysSeparateRules, folderName, Anywhere).value
      ensures FirstHit(AlwaysSeparateRules, folderName, Anywhere).None? && mode == Consolidated ==> r == detected
      ensures FirstHit(AlwaysSeparateRules, folderName, Anywhere).None? && mode == Regional ==>
        r == (match FirstHit(RegionalRules, folderName, Anywhere) case Some(p) => p case None => detected)
    {
      match FirstHit(AlwaysSeparateRules, folderName, Anywhere)
      case Some(variant) => variant
      case None =>
        if mode == Regional then
          match FirstHit(RegionalRules, folderName, Anywhere)
          case Some(p) => p
          case None => detected
        else detected
    }

    /**
     * `get_display_name`: in consolidated mode nes, snes and pcengine carry a
     * note about the variants they include; otherwise the display table,
     * falling back to the code itself.
     */
    function GetDisplayName(platform: string): (r: string)
      ensures mode == Consolidated && platform in ConsolidatedNames ==> r == ConsolidatedNames[platform]
      ensures (mode == Regional || platform !in ConsolidatedNames) && platform in DisplayMapping ==> r == DisplayMapping[platform]
      ensures platform !in ConsolidatedNames && platform !in DisplayMapping ==> r == platform
    {
      if mode == Consolidated && platform in ConsolidatedNames then ConsolidatedNames[platform]
      else if platform in DisplayMapping then DisplayMapping[platform]
      else platform
    }
  }

  /** The codes the two tables can produce. */
  lemma TargetPlatformCodes(engine: RegionalEngine, folderName: string, detected: string)
    ensures var r := engine.GetTargetPlatform(folderName, detected);
      r == detected || r in {"fds", "n64dd", "segacd", "pcenginecd", "turbografxcd"}
      || (engine.mode == Regional && r in {"snes", "sfc", "nes", "famicom", "pcengine", "turbografx"})
  {
    AlwaysSeparateCodes(folderName);
    RegionalCodes(folderName);
  }

  lemma AlwaysSeparateCodes(folderName: string)
    ensures var a := FirstHit(AlwaysSeparateRules, folderName, Anywhere);
      a.Some? ==> a.value in {"fds", "n64dd", "segacd", "pcenginecd", "turbografxcd"}
  {
    var a := FirstHit(AlwaysSeparateRules, folderName, Anywhere);
    if a.Some? {
      var k :| 0 <= k < |AlwaysSeparateRules| && Hits(AlwaysSeparateRules[k].pattern, folderName, Anywhere) && a.value == AlwaysSeparateRules[k].result;
    }
  }

  lemma RegionalCodes(folderName: string)
    ensures var b := FirstHit(RegionalRules, folderName, Anywhere);
      b.Some? ==> b.value in {"snes", "sfc", "nes", "famicom", "pcengine", "turbografx"}
  {
    var b := FirstHit(RegionalRules, folderName, Anywhere);
    if b.Some? {
      var k :| 0 <= k < |RegionalRules| && Hits(RegionalRules[k].pattern, folderName, Anywhere) && b.value == RegionalRules[k].result;
    }
  }

  // ---------------------------------------------------------------------
  // The engine's behavioural test names. Each is written as the pieces its
  // matching rule looks for, and comes with the set of its characters
  // (lower-cased), from which the words it lacks follow.

  const NintendoPrefix := "Nintendo - "
  const NecPrefix := "NEC - "
  /** The tags every test name ends with, opening with " (". */
  const Tags := " (" + "Parent-Clone) (Retool)"

  const SegaGap := " - Sega "
  const MegaGap := " - Mega "

  lemma PrefixesHoldNoLineFeed()
    ensures NoLineFeed(NintendoPrefix) && NoLineFeed(NecPrefix) && NoLineFeed(SegaGap) && NoLineFeed(MegaGap)
  {
  }

  const FdsName := NintendoPrefix + "Family Computer" + " " + "Disk" + " " + "System" + (" (FDS)" + Tags)
  const FdsLetters: set<char> := {' ', '(', ')', '-', 'a', 'c', 'd', 'e', 'f', 'i', 'k', 'l', 'm', 'n', 'o', 'p', 'r', 's', 't', 'u', 'y'}

  const N64ddName := NintendoPrefix + "Nintendo 64DD" + Tags
  const N64ddLetters: set<char> := {' ', '(', ')', '-', '4', '6', 'a', 'c', 'd', 'e', 'i', 'l', 'n', 'o', 'p', 'r', 't'}

  const SegaCdName := "Sega" + SegaGap + "CD" + Tags
  const SegaCdLetters: set<char> := {' ', '(', ')', '-', 'a', 'c', 'd', 'e', 'g', 'l', 'n', 'o', 'p', 'r', 's', 't'}

  const MegaCdName := "Sega" + MegaGap + "CD" + Tags
  const MegaCdLetters: set<char> := {' ', '(', ')', '-', 'a', 'c', 'd', 'e', 'g', 'l', 'm', 'n', 'o', 'p', 'r', 's', 't'}

  const FamicomName := NintendoPrefix + "Famicom" + Tags
  const FamicomLetters: set<char> := {' ', '(', ')', '-', 'a', 'c', 'd', 'e', 'f', 'i', 'l', 'm', 'n', 'o', 'p', 'r', 't'}

  const SuperFamicomName := NintendoPrefix + "Super Famicom" + Tags
  const SuperFamicomLetters: set<char> := {' ', '(', ')', '-', 'a', 'c', 'd', 'e', 'f', 'i', 'l', 'm', 'n', 'o', 'p', 'r', 's', 't', 'u'}

  const PcEngineName := NecPrefix + "PC Engine" + Tags
  const PcEngineLetters: set<char> := {' ', '(', ')', '-', 'a', 'c', 'e', 'g', 'i', 'l', 'n', 'o', 'p', 'r', 't'}

  const TurboGrafxName := NecPrefix + "TurboGrafx" + ("-16" + Tags)
  const TurboGrafxLetters: set<char> := {' ', '(', ')', '-', '1', '6', 'a', 'b', 'c', 'e', 'f', 'g', 'l', 'n', 'o', 'p', 'r', 't', 'u', 'x'}

  lemma FdsLetterSet()
    ensures LettersWithin(FdsName, FdsLetters)
  {
  }

  lemma N64ddLetterSet()
    ensures LettersWithin(N64ddName, N64ddLetters)
  {
  }

  lemma SegaCdLetterSet()
    ensures LettersWithin(SegaCdName, SegaCdLetters)
  {
  }

  lemma MegaCdLetterSet()
    ensures LettersWithin(MegaCdName, MegaCdLetters)
  {
  }

  lemma FamicomLetterSet()
    ensures LettersWithin(FamicomName, FamicomLetters)
  {
  }

  lemma SuperFamicomLetterSet()
    ensures LettersWithin(SuperFamicomName, SuperFamicomLetters)
  {
  }

  lemma PcEngineLetterSet()
    ensures LettersWithin(PcEngineName, PcEngineLetters)
  {
  }

  lemma TurboGrafxLetterSet()
    ensures LettersWithin(TurboGrafxName, TurboGrafxLetters)
  {
  }


  lemma N64ddMissesFamilyComputerDisk()
    ensures !Hits(AlwaysSeparateRules[0].pattern, N64ddName, Anywhere)
  {
    N64ddLetterSet();
    RuleLacksLetter(AlwaysSeparateRules, 0, 1, "Family Computer", N64ddName, N64ddLetters, 0, 'f');
  }

  lemma N64ddMissesFamicomDisk()
    ensures !Hits(AlwaysSeparateRules[1].pattern, N64ddName, Anywhere)
  {
    N64ddLetterSet();
    RuleLacksLetter(AlwaysSeparateRules, 1, 1, "Famicom", N64ddName, N64ddLetters, 0, 'f');
  }

  /** The 64DD name misses both disk-system rules. */
  lemma N64ddMissesDiskRules()
    ensures forall k :: 0 <= k < 2 ==> !Hits(AlwaysSeparateRules[k].pattern, N64ddName, Anywhere)
  {
    N64ddMissesFamilyComputerDisk();
    N64ddMissesFamicomDisk();
  }

  lemma SegaCdMissesFamilyComputerDisk()
    ensures !Hits(AlwaysSeparateRules[0].pattern, SegaCdName, Anywhere)
  {
    SegaCdLetterSet();
    RuleLacksLetter(AlwaysSeparateRules, 0, 1, "Family Computer", SegaCdName, SegaCdLetters, 0, 'f');
  }

  lemma SegaCdMissesFamicomDisk()
    ensures !Hits(AlwaysSeparateRules[1].pattern, SegaCdName, Anywhere)
  {
    SegaCdLetterSet();
    RuleLacksLetter(AlwaysSeparateRules, 1, 1, "Famicom", SegaCdName, SegaCdLetters, 0, 'f');
  }

  lemma SegaCdMissesN64dd()
    ensures !Hits(AlwaysSeparateRules[2].pattern, SegaCdName, Anywhere)
  {
    SegaCdLetterSet();
    RuleLacksLetter(AlwaysSeparateRules, 2, 1, "Nintendo 64DD", SegaCdName, SegaCdLetters, 1, 'i');
  }

  /** The Sega CD name misses the three rules before the Sega CD one. */
  lemma SegaCdMissesEarlierRules()
    ensures forall k :: 0 <= k < 3 ==> !Hits(AlwaysSeparateRules[k].pattern, SegaCdName, Anywhere)
  {
    SegaCdMissesFamilyComputerDisk();
    SegaCdMissesFamicomDisk();
    SegaCdMissesN64dd();
  }

  lemma MegaCdMissesFamilyComputerDisk()
    ensures !Hits(AlwaysSeparateRules[0].pattern, MegaCdName, Anywhere)
  {
    MegaCdLetterSet();
    RuleLacksLetter(AlwaysSeparateRules, 0, 1, "Family Computer", MegaCdName, MegaCdLetters, 0, 'f');
  }

  lemma MegaCdMissesFamicomDisk()
    ensures !Hits(AlwaysSeparateRules[1].pattern, MegaCdName, Anywhere)
  {
    MegaCdLetterSet();
    RuleLacksLetter(AlwaysSeparateRules, 1, 1, "Famicom", MegaCdName, MegaCdLetters, 0, 'f');
  }

  lemma MegaCdMissesN64dd()
    ensures !Hits(AlwaysSeparateRules[2].pattern, MegaCdName, Anywhere)
  {
    MegaCdLetterSet();
    RuleLacksLetter(AlwaysSeparateRules, 2, 1, "Nintendo 64DD", MegaCdName, MegaCdLetters, 1, 'i');
  }

  /** The Mega CD name misses the three rules before the Sega CD one. */
  lemma MegaCdMissesEarlierRules()
    ensures forall k :: 0 <= k < 3 ==> !Hits(AlwaysSeparateRules[k].pattern, MegaCdName, Anywhere)
  {
    MegaCdMissesFamilyComputerDisk();
    MegaCdMissesFamicomDisk();
    MegaCdMissesN64dd();
  }

  lemma FamicomMissesFamilyComputerDisk()
    ensures !Hits(AlwaysSeparateRules[0].pattern, FamicomName, Anywhere)
  {
    FamicomLetterSet();
    RuleLacksLetter(AlwaysSeparateRules, 0, 1, "Family Computer", FamicomName, FamicomLetters, 5, 'y');
  }

  lemma FamicomMissesFamicomDisk()
    ensures !Hits(AlwaysSeparateRules[1].pattern, FamicomName, Anywhere)
  {
    FamicomLetterSet();
    RuleLacksLetter(AlwaysSeparateRules, 1, 3, "Disk", FamicomName, FamicomLetters, 2, 's');
  }

  lemma FamicomMissesN64dd()
    ensures !Hits(AlwaysSeparateRules[2].pattern, FamicomName, Anywhere)
  {
    FamicomLetterSet();
    RuleLacksLetter(AlwaysSeparateRules, 2, 1, "Nintendo 64DD", FamicomName, FamicomLetters, 9, '6');
  }

  /** The Famicom name misses the disk-system and 64DD rules. */
  lemma FamicomMissesDiskRules()
    ensures forall k :: 0 <= k < 3 ==> !Hits(AlwaysSeparateRules[k].pattern, FamicomName, Anywhere)
  {
    FamicomMissesFamilyComputerDisk();
    FamicomMissesFamicomDisk();
    FamicomMissesN64dd();
  }

  lemma FamicomMissesSegaCd()
    ensures !Hits(AlwaysSeparateRules[3].pattern, FamicomName, Anywhere)
  {
    FamicomLetterSet();
    RuleLacksLetter(AlwaysSeparateRules, 3, 1, "Sega", FamicomName, FamicomLetters, 0, 's');
  }

  lemma FamicomMissesMegaCd()
    ensures !Hits(AlwaysSeparateRules[4].pattern, FamicomName, Anywhere)
  {
    FamicomLetterSet();
    RuleLacksLetter(AlwaysSeparateRules, 4, 1, "Mega", FamicomName, FamicomLetters, 2, 'g');
  }

  lemma FamicomMissesPcEngineCd()
    ensures !Hits(AlwaysSeparateRules[5].pattern, FamicomName, Anywhere)
  {
    FamicomLetterSet();
    RuleLacksLetter(AlwaysSeparateRules, 5, 1, "PC Engine", FamicomName, FamicomLetters, 5, 'g');
  }

  lemma FamicomMissesTurboGrafxCd()
    ensures !Hits(AlwaysSeparateRules[6].pattern, FamicomName, Anywhere)
  {
    FamicomLetterSet();
    RuleLacksLetter(AlwaysSeparateRules, 6, 1, "TurboGrafx", FamicomName, FamicomLetters, 1, 'u');
  }

  /** The Famicom name misses the four CD rules. */
  lemma FamicomMissesCdRules()
    ensures forall k :: 3 <= k < 7 ==> !Hits(AlwaysSeparateRules[k].pattern, FamicomName, Anywhere)
  {
    FamicomMissesSegaCd();
    FamicomMissesMegaCd();
    FamicomMissesPcEngineCd();
    FamicomMissesTurboGrafxCd();
  }

  lemma SuperFamicomMissesFamilyComputerDisk()
    ensures !Hits(AlwaysSeparateRules[0].pattern, SuperFamicomName, Anywhere)
  {
    SuperFamicomLetterSet();
    RuleLacksLetter(AlwaysSeparateRules, 0, 1, "Family Computer", SuperFamicomName, SuperFamicomLetters, 5, 'y');
  }

  lemma SuperFamicomMissesFamicomDisk()
    ensures !Hits(AlwaysSeparateRules[1].pattern, SuperFamicomName, Anywhere)
  {
    SuperFamicomLetterSet();
    RuleLacksLetter(AlwaysSeparateRules, 1, 3, "Disk", SuperFamicomName, SuperFamicomLetters, 3, 'k');
  }

  lemma SuperFamicomMissesN64dd()
    ensures !Hits(AlwaysSeparateRules[2].pattern, SuperFamicomName, Anywhere)
  {
    SuperFamicomLetterSet();
    RuleLacksLetter(AlwaysSeparateRules, 2, 1, "Nintendo 64DD", SuperFamicomName, SuperFamicomLetters, 9, '6');
  }

  /** The Super Famicom name misses the disk-system and 64DD rules. */
  lemma SuperFamicomMissesDiskRules()
    ensures forall k :: 0 <= k < 3 ==> !Hits(AlwaysSeparateRules[k].pattern, SuperFamicomName, Anywhere)
  {
    SuperFamicomMissesFamilyComputerDisk();
    SuperFamicomMissesFamicomDisk();
    SuperFamicomMissesN64dd();
  }

  lemma SuperFamicomMissesSegaCd()
    ensures !Hits(AlwaysSeparateRules[3].pattern, SuperFamicomName, Anywhere)
  {
    SuperFamicomLetterSet();
    RuleLacksLetter(AlwaysSeparateRules, 3, 1, "Sega", SuperFamicomName, SuperFamicomLetters, 2, 'g');
  }

  lemma SuperFamicomMissesMegaCd()
    ensures !Hits(AlwaysSeparateRules[4].pattern, SuperFamicomName, Anywhere)
  {
    SuperFamicomLetterSet();
    RuleLacksLetter(AlwaysSeparateRules, 4, 1, "Mega", SuperFamicomName, SuperFamicomLetters, 2, 'g');
  }

  lemma SuperFamicomMissesPcEngineCd()
    ensures !Hits(AlwaysSeparateRules[5].pattern, SuperFamicomName, Anywhere)
  {
    SuperFamicomLetterSet();
    RuleLacksLetter(AlwaysSeparateRules, 5, 1, "PC Engine", SuperFamicomName, SuperFamicomLetters, 5, 'g');
  }

  lemma SuperFamicomMissesTurboGrafxCd()
    ensures !Hits(AlwaysSeparateRules[6].pattern, SuperFamicomName, Anywhere)
  {
    SuperFamicomLetterSet();
    RuleLacksLetter(AlwaysSeparateRules, 6, 1, "TurboGrafx", SuperFamicomName, SuperFamicomLetters, 3, 'b');
  }

  /** The Super Famicom name misses the four CD rules. */
  lemma SuperFamicomMissesCdRules()
    ensures forall k :: 3 <= k < 7 ==> !Hits(AlwaysSeparateRules[k].pattern, SuperFamicomName, Anywhere)
  {
    SuperFamicomMissesSegaCd();
    SuperFamicomMissesMegaCd();
    SuperFamicomMissesPcEngineCd();
    SuperFamicomMissesTurboGrafxCd();
  }

  lemma PcEngineMissesFamilyComputerDisk()
    ensures !Hits(AlwaysSeparateRules[0].pattern, PcEngineName, Anywhere)
  {
    PcEngineLetterSet();
    RuleLacksLetter(AlwaysSeparateRules, 0, 1, "Family Computer", PcEngineName, PcEngineLetters, 0, 'f');
  }

  lemma PcEngineMissesFamicomDisk()
    ensures !Hits(AlwaysSeparateRules[1].pattern, PcEngineName, Anywhere)
  {
    PcEngineLetterSet();
    RuleLacksLetter(AlwaysSeparateRules, 1, 1, "Famicom", PcEngineName, PcEngineLetters, 0, 'f');
  }

  lemma PcEngineMissesN64dd()
    ensures !Hits(AlwaysSeparateRules[2].pattern, PcEngineName, Anywhere)
  {
    PcEngineLetterSet();
    RuleLacksLetter(AlwaysSeparateRules, 2, 1, "Nintendo 64DD", PcEngineName, PcEngineLetters, 6, 'd');
  }

  /** The PC Engine name misses the disk-system and 64DD rules. */
  lemma PcEngineMissesDiskRules()
    ensures forall k :: 0 <= k < 3 ==> !Hits(AlwaysSeparateRules[k].pattern, PcEngineName, Anywhere)
  {
    PcEngineMissesFamilyComputerDisk();
    PcEngineMissesFamicomDisk();
    PcEngineMissesN64dd();
  }

  lemma PcEngineMissesSegaCd()
    ensures !Hits(AlwaysSeparateRules[3].pattern, PcEngineName, Anywhere)
  {
    PcEngineLetterSet();
    RuleLacksLetter(AlwaysSeparateRules, 3, 1, "Sega", PcEngineName, PcEngineLetters, 0, 's');
  }

  lemma PcEngineMissesMegaCd()
    ensures !Hits(AlwaysSeparateRules[4].pattern, PcEngineName, Anywhere)
  {
    PcEngineLetterSet();
    RuleLacksLetter(AlwaysSeparateRules, 4, 1, "Mega", PcEngineName, PcEngineLetters, 0, 'm');
  }

  lemma PcEngineMissesPcEngineCd()
    ensures !Hits(AlwaysSeparateRules[5].pattern, PcEngineName, Anywhere)
  {
    PcEngineLetterSet();
    RuleLacksLetter(AlwaysSeparateRules, 5, 3, "CD", PcEngineName, PcEngineLetters, 1, 'd');
  }

  lemma PcEngineMissesTurboGrafxCd()
    ensures !Hits(AlwaysSeparateRules[6].pattern, PcEngineName, Anywhere)
  {
    PcEngineLetterSet();
    RuleLacksLetter(AlwaysSeparateRules, 6, 1, "TurboGrafx", PcEngineName, PcEngineLetters, 1, 'u');
  }

  /** The PC Engine name misses the four CD rules. */
  lemma PcEngineMissesCdRules()
    ensures forall k :: 3 <= k < 7 ==> !Hits(AlwaysSeparateRules[k].pattern, PcEngineName, Anywhere)
  {
    PcEngineMissesSegaCd();
    PcEngineMissesMegaCd();
    PcEngineMissesPcEngineCd();
    PcEngineMissesTurboGrafxCd();
  }

  lemma TurboGrafxMissesFamilyComputerDisk()
    ensures !Hits(AlwaysSeparateRules[0].pattern, TurboGrafxName, Anywhere)
  {
    TurboGrafxLetterSet();
    RuleLacksLetter(AlwaysSeparateRules, 0, 1, "Family Computer", TurboGrafxName, TurboGrafxLetters, 2, 'm');
  }

  lemma TurboGrafxMissesFamicomDisk()
    ensures !Hits(AlwaysSeparateRules[1].pattern, TurboGrafxName, Anywhere)
  {
    TurboGrafxLetterSet();
    RuleLacksLetter(AlwaysSeparateRules, 1, 1, "Famicom", TurboGrafxName, TurboGrafxLetters, 2, 'm');
  }

  lemma TurboGrafxMissesN64dd()
    ensures !Hits(AlwaysSeparateRules[2].pattern, TurboGrafxName, Anywhere)
  {
    TurboGrafxLetterSet();
    RuleLacksLetter(AlwaysSeparateRules, 2, 1, "Nintendo 64DD", TurboGrafxName, TurboGrafxLetters, 1, 'i');
  }

  /** The TurboGrafx name misses the disk-system and 64DD rules. */
  lemma TurboGrafxMissesDiskRules()
    ensures forall k :: 0 <= k < 3 ==> !Hits(AlwaysSeparateRules[k].pattern, TurboGrafxName, Anywhere)
  {
    TurboGrafxMissesFamilyComputerDisk();
    TurboGrafxMissesFamicomDisk();
    TurboGrafxMissesN64dd();
  }

  lemma TurboGrafxMissesSegaCd()
    ensures !Hits(AlwaysSeparateRules[3].pattern, TurboGrafxName, Anywhere)
  {
    TurboGrafxLetterSet();
    RuleLacksLetter(AlwaysSeparateRules, 3, 1, "Sega", TurboGrafxName, TurboGrafxLetters, 0, 's');
  }

  lemma TurboGrafxMissesMegaCd()
    ensures !Hits(AlwaysSeparateRules[4].pattern, TurboGrafxName, Anywhere)
  {
    TurboGrafxLetterSet();
    RuleLacksLetter(AlwaysSeparateRules, 4, 1, "Mega", TurboGrafxName, TurboGrafxLetters, 0, 'm');
  }

  lemma TurboGrafxMissesPcEngineCd()
    ensures !Hits(AlwaysSeparateRules[5].pattern, TurboGrafxName, Anywhere)
  {
    TurboGrafxLetterSet();
    RuleLacksLetter(AlwaysSeparateRules, 5, 1, "PC Engine", TurboGrafxName, TurboGrafxLetters, 6, 'i');
  }

  lemma TurboGrafxMissesTurboGrafxCd()
    ensures !Hits(AlwaysSeparateRules[6].pattern, TurboGrafxName, Anywhere)
  {
    TurboGrafxLetterSet();
    RuleLacksLetter(AlwaysSeparateRules, 6, 3, "CD", TurboGrafxName, TurboGrafxLetters, 1, 'd');
  }

  /** The TurboGrafx name misses the four CD rules. */
  lemma TurboGrafxMissesCdRules()
    ensures forall k :: 3 <= k < 7 ==> !Hits(AlwaysSeparateRules[k].pattern, TurboGrafxName, Anywhere)
  {
    TurboGrafxMissesSegaCd();
    TurboGrafxMissesMegaCd();
    TurboGrafxMissesPcEngineCd();
    TurboGrafxMissesTurboGrafxCd();
  }

  lemma FamicomMissesSuperNintendo()
    ensures !Hits(RegionalRules[0].pattern, FamicomName, Anywhere)
  {
    FamicomLetterSet();
    RuleLacksLetter(RegionalRules, 0, 1, "Super Nintendo", FamicomName, FamicomLetters, 0, 's');
  }

  lemma FamicomMissesSuperFamicom()
    ensures !Hits(RegionalRules[1].pattern, FamicomName, Anywhere)
  {
    FamicomLetterSet();
    RuleLacksLetter(RegionalRules, 1, 1, "Super Famicom", FamicomName, FamicomLetters, 0, 's');
  }

  lemma FamicomMissesNes()
    ensures !Hits(RegionalRules[2].pattern, FamicomName, Anywhere)
  {
    FamicomLetterSet();
    RuleLacksLetter(RegionalRules, 2, 1, "Nintendo Entertainment System", FamicomName, FamicomLetters, 23, 's');
  }

  /** The Famicom name misses the regional rules before the Famicom one. */
  lemma FamicomMissesEarlierRegional()
    ensures forall k :: 0 <= k < 3 ==> !Hits(RegionalRules[k].pattern, FamicomName, Anywhere)
  {
    FamicomMissesSuperNintendo();
    FamicomMissesSuperFamicom();
    FamicomMissesNes();
  }

  lemma PcEngineMissesSuperNintendo()
    ensures !Hits(RegionalRules[0].pattern, PcEngineName, Anywhere)
  {
    PcEngineLetterSet();
    RuleLacksLetter(RegionalRules, 0, 1, "Super Nintendo", PcEngineName, PcEngineLetters, 0, 's');
  }

  lemma PcEngineMissesSuperFamicom()
    ensures !Hits(RegionalRules[1].pattern, PcEngineName, Anywhere)
  {
    PcEngineLetterSet();
    RuleLacksLetter(RegionalRules, 1, 1, "Super Famicom", PcEngineName, PcEngineLetters, 0, 's');
  }

  lemma PcEngineMissesNes()
    ensures !Hits(RegionalRules[2].pattern, PcEngineName, Anywhere)
  {
    PcEngineLetterSet();
    RuleLacksLetter(RegionalRules, 2, 1, "Nintendo Entertainment System", PcEngineName, PcEngineLetters, 6, 'd');
  }

  lemma PcEngineMissesFamicom()
    ensures !Hits(RegionalRules[3].pattern, PcEngineName, Anywhere)
  {
    PcEngineLetterSet();
    RuleLacksLetter(RegionalRules, 3, 1, "Famicom", PcEngineName, PcEngineLetters, 0, 'f');
  }

  lemma PcEngineMissesFamilyComputer()
    ensures !Hits(RegionalRules[4].pattern, PcEngineName, Anywhere)
  {
    PcEngineLetterSet();
    RuleLacksLetter(RegionalRules, 4, 1, "Family Computer", PcEngineName, PcEngineLetters, 0, 'f');
  }

  /** The PC Engine name misses the regional rules before the PC Engine one. */
  lemma PcEngineMissesEarlierRegional()
    ensures forall k :: 0 <= k < 5 ==> !Hits(RegionalRules[k].pattern, PcEngineName, Anywhere)
  {
    PcEngineMissesSuperNintendo();
    PcEngineMissesSuperFamicom();
    PcEngineMissesNes();
    PcEngineMissesFamicom();
    PcEngineMissesFamilyComputer();
  }

  lemma TurboGrafxMissesSuperNintendo()
    ensures !Hits(RegionalRules[0].pattern, TurboGrafxName, Anywhere)
  {
    TurboGrafxLetterSet();
    RuleLacksLetter(RegionalRules, 0, 1, "Super Nintendo", TurboGrafxName, TurboGrafxLetters, 0, 's');
  }

  lemma TurboGrafxMissesSuperFamicom()
    ensures !Hits(RegionalRules[1].pattern, TurboGrafxName, Anywhere)
  {
    TurboGrafxLetterSet();
    RuleLacksLetter(RegionalRules, 1, 1, "Super Famicom", TurboGrafxName, TurboGrafxLetters, 0, 's');
  }

  lemma TurboGrafxMissesNes()
    ensures !Hits(RegionalRules[2].pattern, TurboGrafxName, Anywhere)
  {
    TurboGrafxLetterSet();
    RuleLacksLetter(RegionalRules, 2, 1, "Nintendo Entertainment System", TurboGrafxName, TurboGrafxLetters, 1, 'i');
  }

  lemma TurboGrafxMissesFamicom()
    ensures !Hits(RegionalRules[3].pattern, TurboGrafxName, Anywhere)
  {
    TurboGrafxLetterSet();
    RuleLacksLetter(RegionalRules, 3, 1, "Famicom", TurboGrafxName, TurboGrafxLetters, 2, 'm');
  }

  lemma TurboGrafxMissesFamilyComputer()
    ensures !Hits(RegionalRules[4].pattern, TurboGrafxName, Anywhere)
  {
    TurboGrafxLetterSet();
    RuleLacksLetter(RegionalRules, 4, 1, "Family Computer", TurboGrafxName, TurboGrafxLetters, 2, 'm');
  }

  lemma TurboGrafxMissesPcEngine()
    ensures !Hits(RegionalRules[5].pattern, TurboGrafxName, Anywhere)
  {
    TurboGrafxLetterSet();
    RuleLacksLetter(RegionalRules, 5, 1, "PC Engine", TurboGrafxName, TurboGrafxLetters, 6, 'i');
  }

  /** The TurboGrafx name misses the regional rules before the TurboGrafx one. */
  lemma TurboGrafxMissesEarlierRegional()
    ensures forall k :: 0 <= k < 6 ==> !Hits(RegionalRules[k].pattern, TurboGrafxName, Anywhere)
  {
    TurboGrafxMissesSuperNintendo();
    TurboGrafxMissesSuperFamicom();
    TurboGrafxMissesNes();
    TurboGrafxMissesFamicom();
    TurboGrafxMissesFamilyComputer();
    TurboGrafxMissesPcEngine();
  }

  /** The Family Computer Disk System stays apart in both modes. */
  lemma FdsAlwaysSeparate(mode: RegionalMode, detected: string)
    ensures RegionalEngine(mode).GetTargetPlatform(FdsName, detected) == "fds"
  {
    FdsPatternHits();
    FirstHitAt(AlwaysSeparateRules, FdsName, Anywhere, 0);
  }

  lemma FdsPatternHits()
    ensures Hits(AlwaysSeparateRules[0].pattern, FdsName, Anywhere)
  {
    PrefixesHoldNoLineFeed();
    ThreeLiteralsHitIn(NintendoPrefix, "Family Computer", " ", "Disk", " ", "System", " (FDS)" + Tags);
  }

  /** The 64DD: both Famicom disk patterns lack a word, the third rule hits. */
  lemma N64ddAlwaysSeparate(mode: RegionalMode, detected: string)
    ensures RegionalEngine(mode).GetTargetPlatform(N64ddName, detected) == "n64dd"
  {
    N64ddMissesDiskRules();
    N64ddPatternHits();
    FirstHitAt(AlwaysSeparateRules, N64ddName, Anywhere, 2);
  }

  lemma N64ddPatternHits()
    ensures Hits(AlwaysSeparateRules[2].pattern, N64ddName, Anywhere)
  {
    PrefixesHoldNoLineFeed();
    LiteralHitsIn(NintendoPrefix, "Nintendo 64DD", Tags);
  }

  /** Sega CD and its Japanese name Mega CD both go to segacd in both modes. */
  lemma SegaCdAlwaysSeparate(mode: RegionalMode, detected: string)
    ensures RegionalEngine(mode).GetTargetPlatform(SegaCdName, detected) == "segacd"
    ensures RegionalEngine(mode).GetTargetPlatform(MegaCdName, detected) == "segacd"
  {
    SegaCdFirstHit();
    MegaCdFirstHit();
  }

  lemma SegaCdFirstHit()
    ensures FirstHit(AlwaysSeparateRules, SegaCdName, Anywhere) == Some("segacd")
  {
    SegaCdMissesEarlierRules();
    SegaCdPatternHits();
    FirstHitAt(AlwaysSeparateRules, SegaCdName, Anywhere, 3);
  }

  lemma SegaCdPatternHits()
    ensures Hits(AlwaysSeparateRules[3].pattern, SegaCdName, Anywhere)
  {
    PrefixesHoldNoLineFeed();
    TwoLiteralsHitIn("Sega", SegaGap, "CD", Tags);
  }

  lemma MegaCdFirstHit()
    ensures FirstHit(AlwaysSeparateRules, MegaCdName, Anywhere) == Some("segacd")
  {
    MegaCdMissesEarlierRules();
    MegaCdPatternHits();
    FirstHitAt(AlwaysSeparateRules, MegaCdName, Anywhere, 3);
  }

  lemma MegaCdPatternHits()
    ensures Hits(AlwaysSeparateRules[3].pattern, MegaCdName, Anywhere)
  {
    PrefixesHoldNoLineFeed();
    TwoLiteralsHitIn("Sega", MegaGap, "CD", Tags);
  }

  /** Famicom stays with the detected platform when consolidated, and becomes famicom when regional. */
  lemma FamicomByMode(detected: string)
    ensures RegionalEngine(Consolidated).GetTargetPlatform(FamicomName, detected) == detected
    ensures RegionalEngine(Regional).GetTargetPlatform(FamicomName, detected) == "famicom"
  {
    FamicomMissesDiskRules();
    FamicomMissesCdRules();
    FamicomMissesEarlierRegional();
    FamicomPatternHits();
    FirstHitAt(RegionalRules, FamicomName, Anywhere, 3);
  }

  /** "Famicom" followed by " (" is not followed by "Disk" or "&". */
  lemma FamicomPatternHits()
    ensures Hits(RegionalRules[3].pattern, FamicomName, Anywhere)
  {
    PrefixesHoldNoLineFeed();
    NotAheadBeforeParen(NintendoPrefix + "Famicom", "Parent-Clone) (Retool)", ["Disk", "&"]);
    LiteralNotAheadHitsIn(NintendoPrefix, "Famicom", Tags, SomeSpace, ["Disk", "&"]);
  }

  /** "Nintendo - Super Famicom (Parent-Clone) (Retool)" is no variant and becomes sfc when regional. */
  lemma SuperFamicomByMode(detected: string)
    ensures RegionalEngine(Consolidated).GetTargetPlatform(SuperFamicomName, detected) == detected
    ensures RegionalEngine(Regional).GetTargetPlatform(SuperFamicomName, detected) == "sfc"
  {
    SuperFamicomMissesDiskRules();
    SuperFamicomMissesCdRules();
    SuperFamicomSeparated();
  }

  lemma SuperFamicomSeparated()
    ensures FirstHit(RegionalRules, SuperFamicomName, Anywhere) == Some("sfc")
  {
    SuperFamicomMissesSuperNintendo();
    SuperFamicomPatternHits();
    FirstHitAt(RegionalRules, SuperFamicomName, Anywhere, 1);
  }

  lemma SuperFamicomPatternHits()
    ensures Hits(RegionalRules[1].pattern, SuperFamicomName, Anywhere)
  {
    PrefixesHoldNoLineFeed();
    LiteralHitsIn(NintendoPrefix, "Super Famicom", Tags);
  }

  /** The only `u` of the Super Famicom name is the one of "Super". */
  lemma SuperFamicomOneU()
    ensures forall k :: 0 <= k < |SuperFamicomName| && Lower(SuperFamicomName[k]) == 'u' ==> k == 12
  {
  }

  /** "Super Nintendo" would need its `u` at index 12, and an `n` where the name has `a`. */
  lemma SuperFamicomMissesSuperNintendo()
    ensures forall k :: 0 <= k < 1 ==> !Hits(RegionalRules[k].pattern, SuperFamicomName, Anywhere)
  {
    SuperFamicomOneU();
    LetterOnlyAt(SuperFamicomName, "Super Nintendo", 1, 'u', 12, 6);
    MissingLiteral(RegionalRules[0].pattern, SuperFamicomName, 1, Anywhere);
  }

  /** "NEC - PC Engine (Parent-Clone) (Retool)" is no variant and becomes pcengine when regional. */
  lemma PcEngineRegional(detected: string)
    ensures RegionalEngine(Consolidated).GetTargetPlatform(PcEngineName, detected) == detected
    ensures RegionalEngine(Regional).GetTargetPlatform(PcEngineName, detected) == "pcengine"
  {
    PcEngineMissesDiskRules();
    PcEngineMissesCdRules();
    PcEngineMissesEarlierRegional();
    PcEnginePatternHits();
    FirstHitAt(RegionalRules, PcEngineName, Anywhere, 5);
  }

  /** "PC Engine" followed by " (" is not followed by "CD". */
  lemma PcEnginePatternHits()
    ensures Hits(RegionalRules[5].pattern, PcEngineName, Anywhere)
  {
    PrefixesHoldNoLineFeed();
    NotAheadBeforeParen(NecPrefix + "PC Engine", "Parent-Clone) (Retool)", ["CD"]);
    LiteralNotAheadHitsIn(NecPrefix, "PC Engine", Tags, SomeSpace, ["CD"]);
  }

  /** "NEC - TurboGrafx-16 (Parent-Clone) (Retool)" is no variant and becomes turbografx when regional. */
  lemma TurboGrafxRegional(detected: string)
    ensures RegionalEngine(Consolidated).GetTargetPlatform(TurboGrafxName, detected) == detected
    ensures RegionalEngine(Regional).GetTargetPlatform(TurboGrafxName, detected) == "turbografx"
  {
    TurboGrafxMissesDiskRules();
    TurboGrafxMissesCdRules();
    TurboGrafxMissesEarlierRegional();
    TurboGrafxPatternHits();
    FirstHitAt(RegionalRules, TurboGrafxName, Anywhere, 6);
  }

  /** "TurboGrafx" is followed by '-', so no whitespace-and-CD lookahead succeeds there. */
  lemma TurboGrafxPatternHits()
    ensures Hits(RegionalRules[6].pattern, TurboGrafxName, Anywhere)
  {
    PrefixesHoldNoLineFeed();
    NotAheadBeforeNonSpace(NecPrefix + "TurboGrafx", "-16" + Tags, ["CD"]);
    LiteralRunNotAheadHitsIn(NecPrefix, "TurboGrafx", "-16" + Tags, SomeSpace, ["CD"]);
  }

  /** `consolidated_names` of `get_display_name`. */
  const ConsolidatedNames: map<string, string> := map[
    "nes" := "Nintendo Entertainment System (includes Famicom)",
    "snes" := "Super Nintendo Entertainment System (includes Super Famicom)",
    "pcengine" := "PC Engine (includes TurboGrafx-16)"
  ]

  /** `display_mapping` of `get_display_name`. */
  const DisplayMapping: map<string, string> := map[
    "3do" := "3DO Interactive Multiplayer",
    "amiga" := "Commodore Amiga",
    "amstradcpc" := "Amstrad CPC",
    "apple2" := "Apple II",
    "arcade" := "Arcade (FinalBurn Neo)",
    "atari2600" := "Atari 2600",
    "atari5200" := "Atari 5200",
    "atari7800" := "Atari 7800",
    "atari800" := "Atari 8-bit Family",
    "atarijaguar" := "Atari Jaguar",
    "atarijaguarcd" := "Atari Jaguar CD",
    "atarilynx" := "Atari Lynx",
    "atarist" := "Atari ST",
    "atarixe" := "Atari XE",
    "atomiswave" := "Atomiswave Arcade",
    "c64" := "Commodore 64",
    "cannonball" := "Cannonball (OutRun Engine)",
    "coco" := "TRS-80 Color Computer",
    "coleco" := "ColecoVision",
    "colecovision" := "ColecoVision",
    "dragon32" := "Dragon Data",
    "dreamcast" := "Sega Dreamcast",
    "fds" := "Famicom Disk System",
    "famicom" := "Nintendo Famicom",
    "gamegear" := "Sega Game Gear",
    "gb" := "Game Boy",
    "gba" := "Game Boy Advance",
    "gbc" := "Game Boy Color",
    "gc" := "GameCube",
    "genesis" := "Sega Genesis",
    "gizmondo" := "Tiger Gizmondo",
    "intellivision" := "Mattel Intellivision",
    "macintosh" := "Apple Macintosh",
    "mastersystem" := "Sega Master System",
    "megadrive" := "Sega Mega Drive",
    "msx" := "MSX",
    "n3ds" := "Nintendo 3DS",
    "n64" := "Nintendo 64",
    "n64dd" := "Nintendo 64DD",
    "nds" := "Nintendo DS",
    "neogeo" := "Neo Geo",
    "neogeocd" := "Neo Geo CD",
    "nes" := "Nintendo Entertainment System",
    "ngp" := "Neo Geo Pocket",
    "ngpc" := "Neo Geo Pocket Color",
    "odyssey2" := "Magnavox Odyssey 2",
    "othello" := "Othello Multivision",
    "pc" := "PC (IBM Compatible)",
    "pc98" := "NEC PC-98",
    "pcengine" := "PC Engine",
    "pcenginecd" := "PC Engine CD",
    "pokemini" := "Pokemon Mini",
    "pokitto" := "Pokitto",
    "ps2" := "PlayStation 2",
    "ps3" := "PlayStation 3",
    "ps4" := "PlayStation 4",
    "psp" := "PlayStation Portable",
    "psvita" := "PlayStation Vita",
    "psx" := "PlayStation",
    "saturn" := "Sega Saturn",
    "sega32x" := "Sega 32X",
    "segacd" := "Sega CD",
    "sfc" := "Super Famicom",
    "sg1000" := "Sega SG-1000",
    "snes" := "Super Nintendo Entertainment System",
    "supergrafx" := "PC Engine SuperGrafx",
    "supervision" := "Watara Supervision",
    "trs80" := "TRS-80",
    "turbografx" := "TurboGrafx-16",
    "turbografxcd" := "TurboGrafx-16 CD",
    "unknown" := "Unknown Good Tool Collection",
    "vectrex" := "GCE Vectrex",
    "virtualboy" := "Virtual Boy",
    "wii" := "Wii",
    "wiiu" := "Wii U",
    "wonderswan" := "Bandai WonderSwan",
    "wonderswancolor" := "Bandai WonderSwan Color",
    "x1" := "Sharp X1",
    "x68000" := "Sharp X68000",
    "xbox" := "Microsoft Xbox",
    "xbox360" := "Microsoft Xbox 360",
    "zxspectrum" := "ZX Spectrum"
  ]
}
