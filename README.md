# DAT-to-shortcode ROM organiser: a verified model of its core

The converter sorts a ROM collection laid out in DAT-named folders (such as
"Nintendo - Super Famicom (Parent-Clone) (Retool)") into folders named by
platform shortcodes ("snes", "sfc", "n64", ...). This project models the
decisions behind that, in Dafny:

- **Folder analysis.** `PlatformAnalyzer.analyze_directory` walks the
  top-level folders. For each folder it:
  - skips the target directory;
  - finds the ROM files by extension;
  - applies the exclusion table;
  - identifies the platform, trying in order the specialised Good-tools,
    FinalBurn Neo and MAME handlers, then the subcategory preprocessing
    chain, then the platform table;
  - tallies the results.
- **Regional preferences.** `RegionalPreferenceEngine` keeps or separates
  regional variants (consolidated or regional mode).
- **`FormatHandler`.** Sub-folders for the n64 byte orders and the nds
  encryption states.
- **Target choice and copying.** A unique target is chosen for each file
  (`extract_folder_hint`, `get_unique_target_path`). The copy is compared
  (`should_copy_file`) and then made by a CRC-checked copy with retries.
  The counting is done by:
  - the per-folder pass `process_folder_files`;
  - `AsyncFileCopyEngine`: its strategy choice and its single-threaded pass.
- **Platform selection.** The interactive selection parser `_parse_selection`.

**Representation.**
- Regular expressions are modelled by the subset the tables use (`Patterns`).
- The filesystem is a value: a map from paths to contents.
- Everything that is not a decision becomes a parameter:
  - digests;
  - the outcome of each copy attempt;
  - shutdown requests;
  - the directory listing.

**Modules, one per concern of the source:**
- `Text`: character and string helpers.
- `Patterns`: the regex subset, and the search for the first rule that hits.
- `GoodPatterns`: the specialised handlers.
- `Subcategory`: the handler chain.
- `Catalog`: the platform, exclusion and extension tables.
- `Regional`: the regional engine.
- `FormatHandling`: the format sub-folders.
- `Analyzer`: identification and the directory scan.
- `Copying`: the file-level copy functions.
- `FolderHints`: the folder hint.
- `UniquePaths`: the choice of target path.
- `FolderCopy`: the per-folder pass.
- `CopyEngine`: the engine's strategy and single-threaded pass.
- `Selection`: the selection parser.

**Form of the model.**
- Pure functions of the source are Dafny functions, with lemmas about them.
- Source loops are methods with loop invariants. Each is proved equal to
  the function that specifies it. Examples: `FindFirst`,
  `ExtractFolderHint`, `FirstFreeNumber`, `CopyFileWithRetry`,
  `ParseSelectionLoop`.
- Objects whose fields the source updates are classes:
  - `SubcategoryProcessor`, with its statistics;
  - `PlatformAnalyzer`, which advances the processor's counters;
  - `ProcessingStats` and the shared totals `RunTotals`;
  - `RomProcessor` and `AsyncFileCopyEngine`.

## Model

| member | source | states |
|---|---|---|
| GoodPatterns.GoodCode | good_pattern_handler.py:52-55 | The captured code exists only for names starting "Good" (any case), is non-empty, and is made of upper-case letters and digits. |
| GoodPatterns.MatchGoodPattern | good_pattern_handler.py:46-65 | A result exactly when the pattern matches; a known code gives its table entry, an unknown one ("unknown", "Good <CODE> Collection"). |
| GoodPatterns.MatchFinalBurnPattern | good_pattern_handler.py:90-109 | A result exactly when the name starts "FinalBurn Neo - " and a one-line description follows; the description is looked up, or falls back to ("arcade", "Arcade (FinalBurn Neo <desc>)"). |
| GoodPatterns.MatchMamePattern | good_pattern_handler.py:111-120 | A result exactly for names starting "MAME" in any case, always ("arcade", "Arcade (MAME)"). |
| GoodPatterns.ProcessSpecialized | good_pattern_handler.py:134-181 | The handler used is Good tools, then FinalBurn Neo, then MAME, each only when the earlier ones fail, and the result is that handler's. |
| GoodPatterns.GoodNameAlwaysMatches | good_pattern_handler.py:52-55 | A "Good" name followed by letters and digits up to a word boundary always matches, with that run upper-cased as the code. |
| GoodPatterns.GoodKnownCode | good_pattern_handler.py:18-41 | Every upper-case key of the Good table is reached by "Good" + key at a word boundary. |
| GoodPatterns.GoodMixedCaseKeysUnreachable | good_pattern_handler.py:22-57 | The mixed-case keys "Gen" and "Lynx" can never be returned, because the captured code is upper-cased before the lookup. |
| GoodPatterns.GoodGenIsUnknown | good_pattern_handler.py:55-63 | "GoodGen v1" is reported as the unknown collection "Good GEN Collection". |
| GoodPatterns.SpecializedShortcodes | good_pattern_handler.py:46-120 | Every shortcode the specialised handlers return is "unknown", "arcade" or a value of one of the two tables. |
| GoodPatterns.SpecializedMatchersDisjoint | good_pattern_handler.py:134-181 | No name matches two of the three handlers, so the priority order never has to choose. |
| GoodPatterns.RegularFolderNotSpecialized | good_pattern_handler.py:202-212 | The sample "Regular DAT folder" matches no specialised handler. |
| GoodPatterns.FinalBurnDescriptionLookup | good_pattern_handler.py:95-107 | A FinalBurn Neo name uses its exact-case description as the key, with the arcade fallback. |
| Subcategory.SeparatorEnd | subcategory_handler.py:44-52 | `\s+-\s+` at a position: it starts with whitespace, a dash follows the run, and the match ends after the longest whitespace run behind the dash. |
| Subcategory.LineFeedEndsGroup | subcategory_handler.py:44-52 | The `(.+?)` group never extends past a line feed. |
| Subcategory.LazyGroupEnd | subcategory_handler.py:44-52 | The lazy group ends at the smallest position from which the rest of the pattern matches, or there is none. |
| Subcategory.SubcategoryGroupEnd | subcategory_handler.py:58-60 | `re.match` succeeds exactly when some group end lets the rest match, and returns the smallest such end. |
| Subcategory.FirstSubcategoryMatch | subcategory_handler.py:58-60 | The first subcategory pattern in declared order that matches, with its group end; none when no pattern matches. |
| Subcategory.ConsolidateSubcategory | subcategory_handler.py:54-76 | A consolidation happens exactly when one of the subcategory patterns matches, and its result is strictly shorter than the name. |
| Subcategory.CloseIndex | subcategory_handler.py:88-89 | The lazy `.+?` in brackets stops at the first closing bracket at least one character on, with no line feed before it. |
| Subcategory.FormatMatchAt | subcategory_handler.py:87-91 | A format-pattern match at a position is non-empty and, past the leading whitespace, starts with its dash, bracket or parenthesis; the parenthesis form runs to the end. |
| Subcategory.BracketFrom | subcategory_handler.py:88-89 | A bracketed tag starts with '[' and ends after it. |
| Subcategory.ParenToEnd | subcategory_handler.py:90 | A trailing parenthesis group closes at a ')' followed only by whitespace up to the end. |
| Subcategory.SubAllFromBound | subcategory_handler.py:97-99 | `re.sub` with an empty replacement never lengthens the name. |
| Subcategory.SubAllFromShorter | subcategory_handler.py:97-99 | A match anywhere makes the substitution strictly shorter. |
| Subcategory.SubAllFromUnchanged | subcategory_handler.py:97-99 | Without a match the substitution returns the name unchanged. |
| Subcategory.SubAllChangesIffMatch | subcategory_handler.py:97-102 | The substitution changes the name exactly when the pattern matches somewhere, and then shortens it. |
| Subcategory.ApplyFormatPatterns | subcategory_handler.py:97-104 | The `format_stripped` flag is set exactly when some pattern changed the name it was applied to. |
| Subcategory.ApplyFormatPatternsShortens | subcategory_handler.py:97-104 | The format loop never lengthens the name, and shortens it when it sets the flag. |
| Subcategory.StripFormatIndicators | subcategory_handler.py:93-107 | `format_stripped` is set exactly when the name changed, and then the name is shorter. |
| Subcategory.MsxRewrite | subcategory_handler.py:118-123 | The MSX rewrite applies only to names starting "Microsoft", and leaves the shorter rest from "MSX" on. |
| Subcategory.NormalizePublisher | subcategory_handler.py:125-140 | `publisher_normalized` is set exactly when the rewrite applies, which is exactly when the name changed. |
| Subcategory.PublisherOnlyMicrosoft | subcategory_handler.py:118-140 | Names not starting with "Microsoft" pass the publisher step unchanged and unflagged. |
| Subcategory.HandleOne | subcategory_handler.py:54-140 | Each handler keeps the context's original name. |
| Subcategory.RunChain | subcategory_handler.py:19-33 | Passing down the chain keeps the original name. |
| Subcategory.Counted | subcategory_handler.py:178-189 | One `process` call adds one to the processed count and one to each counter whose flag is set; "unchanged" grows exactly when the output equals the input. |
| Subcategory.ChainComposition | subcategory_handler.py:146-176 | The chain runs subcategory, format, then publisher, each on the previous output; the flags and `original_subcategory` record which steps changed the name. |
| Subcategory.KeywordAfterOneSeparator | subcategory_handler.py:44-76 | `name - Keyword rest`, with no other dash, consolidates to the name: the patterns that need a second separator fail, and the last one ends the group at the only separator. |
| Subcategory.KeywordBracketConsolidates | subcategory_handler.py:44-76 | `name - Keyword - [tag] rest` consolidates to the name, through the third pattern. |
| Subcategory.NoSubcategoryOneSeparator | subcategory_handler.py:44-76 | `name - rest`, with one separator and no keyword after it, is not consolidated. |
| Subcategory.NoSubcategoryTwoSeparators | subcategory_handler.py:44-76 | `name - middle - rest`, with no keyword after either separator, is not consolidated. |
| Subcategory.OneSeparatorTagUnconsolidated | subcategory_handler.py:44-76 | `name - word (tag)`, with no keyword after the separator, is not consolidated. |
| Subcategory.TwoSeparatorTagUnconsolidated | subcategory_handler.py:44-76 | `name - middle - word (tag)`, with no keyword after either separator, is not consolidated. |
| Subcategory.TrailingTagStripped | subcategory_handler.py:93-107 | A name without brackets or parentheses loses its trailing parenthesised tag and nothing else, and the format flag is set. |
| Subcategory.KeywordNameProcessed | subcategory_handler.py:166-189 | `name - Keyword rest` comes out of the processor as the name. |
| Subcategory.KeywordBracketNameProcessed | subcategory_handler.py:166-189 | `name - Keyword - [tag] rest` comes out of the processor as the name. |
| Subcategory.TaggedNameProcessed | subcategory_handler.py:166-189 | A name the subcategory step leaves alone and that does not start "Microsoft" comes out without its trailing tag. |
| Subcategory.MsxTaggedProcessed | subcategory_handler.py:118-189 | `Microsoft - MSX... (tag)`, left alone by the subcategory step, comes out as `MSX...`. |
| Subcategory.OneSeparatorNameProcessed | subcategory_handler.py:166-189 | `name - word (tag)` with no keyword after the separator keeps `name - word` and loses only the tag. |
| Subcategory.TwoSeparatorNameProcessed | subcategory_handler.py:166-189 | `name - middle - word (tag)` with no keyword after either separator keeps everything but the tag. |
| Subcategory.MsxNameProcessed | subcategory_handler.py:118-189 | `Microsoft - MSX... (tag)` comes out as `MSX...`. |
| Subcategory.KeywordExample | subcategory_handler.py:214 | "Atari 2600 & VCS - Games (Retool)" becomes "Atari 2600 & VCS". |
| Subcategory.ApplicationsExample | subcategory_handler.py:215 | "Nintendo Game Boy - Applications (Retool)" becomes "Nintendo Game Boy". |
| Subcategory.FirmwareExample | subcategory_handler.py:216 | "Sega Mark III & Master System - Firmware (Retool)" becomes "Sega Mark III & Master System". |
| Subcategory.KeywordBracketExample | subcategory_handler.py:219 | "Atari 8bit - Games - [BIN] (Retool)" becomes "Atari 8bit". |
| Subcategory.FamicomBracketExample | subcategory_handler.py:220 | "Nintendo Famicom & Entertainment System - Games - [NES] (Retool)" becomes "Nintendo Famicom & Entertainment System". |
| Subcategory.MsxExample | subcategory_handler.py:223 | "Microsoft - MSX (Parent-Clone) (Retool)" becomes "MSX". |
| Subcategory.Msx2Example | subcategory_handler.py:224 | "Microsoft - MSX2 (Retool)" becomes "MSX2". |
| Subcategory.WonderSwanExample | subcategory_handler.py:227 | "Bandai WonderSwan - Applications (Retool)" becomes "Bandai WonderSwan". |
| Subcategory.ThreeDoExample | subcategory_handler.py:228 | "3DO 3DO Interactive Multiplayer - Firmware (Retool)" becomes "3DO 3DO Interactive Multiplayer". |
| Subcategory.OneSeparatorExample | subcategory_handler.py:231 | "Nintendo - Nintendo Entertainment System (Retool)" becomes "Nintendo - Nintendo Entertainment System". |
| Subcategory.TwoSeparatorExample | subcategory_handler.py:232 | "Sega - Mega Drive - Genesis (Retool)" becomes "Sega - Mega Drive - Genesis". |
| Subcategory.SubcategoryProcessor.constructor | subcategory_handler.py:146-164 | A new processor has the three-handler chain and zero counters. |
| Subcategory.SubcategoryProcessor.Process | subcategory_handler.py:166-189 | `process` returns the chain's output and context, and updates the counters as `Counted` says. |
| Subcategory.SubcategoryProcessor.GetStatistics | subcategory_handler.py:191-193 | `get_statistics` returns a copy of the current counters. |
| Patterns.FirstHitFrom | dat_to_shortcode_converter.py:2664-2669 | The index of the first rule, from a position on, whose pattern hits, and no earlier rule hits; none when no rule does. |
| Patterns.FirstHit | dat_to_shortcode_converter.py:688-695 | A result exactly when some rule hits, and it is the result of a rule that hits. |
| Patterns.FirstHitAt | dat_to_shortcode_converter.py:688-695 | A rule that hits decides when no earlier rule hits. |
| Patterns.FindFirst | dat_to_shortcode_converter.py:2743-2771 | The loop over a rule table in order returns the first hit's result. |
| Patterns.AnchoredHitsAnywhere | dat_to_shortcode_converter.py:2664-2669 | A `re.match` hit is also a `re.search` hit. |
| Patterns.LiteralOccurs | dat_to_shortcode_converter.py:2743-2771 | Every literal of a pattern occurs, ignoring case, in any name the pattern matches. |
| Patterns.MissingLiteral | dat_to_shortcode_converter.py:2743-2771 | A pattern never hits a name that lacks one of its literals. |
| Catalog.CheckExclusions | dat_to_shortcode_converter.py:2664-2669 | An exclusion reason exactly when some exclusion pattern matches the start of the name. |
| Catalog.LookupPlatform | dat_to_shortcode_converter.py:2743-2771 | A table entry exactly when some platform pattern matches the start of the name. |
| Catalog.Suffix | dat_to_shortcode_converter.py:2529 | The suffix is empty or a final ".x..." segment with a single dot that is neither the first nor the last character. |
| Catalog.Stem | dat_to_shortcode_converter.py:1511-1513 | Stem followed by suffix gives the name back. |
| Catalog.LastDot | dat_to_shortcode_converter.py:2529 | The last dot before a position, or none. |
| Catalog.TarGzNeverMatches | dat_to_shortcode_converter.py:590-636 | The entry ".tar.gz" never makes a file a ROM, because a suffix holds one dot. |
| Catalog.ExclusionShadowsMapping | dat_to_shortcode_converter.py:356-587 | Nine platform-table prefixes (GCE Vectrex, Magnavox Odyssey, Watara Supervision, Sharp X68000, Sharp X1, Tandy TRS-80, Tiger Gizmondo, Pokitto, Tsukuda Othello Multivision) are always excluded first. |
| Catalog.ShadowedPrefixesSpelled | dat_to_shortcode_converter.py:356-587 | The nine shadowed prefixes are exactly "GCE Vectrex", "Magnavox Odyssey", "Watara Supervision", "Sharp X68000", "Sharp X1", "Tandy TRS-80", "Tiger Gizmondo", "Pokitto" and "Tsukuda Othello Multivision". |
| Catalog.ExcludedAfterGap | dat_to_shortcode_converter.py:575-587 | A name starting `a`, a one-line gap, then `b` is excluded by an `a.*b.*` rule. |
| Regional.RegionalEngine.GetTargetPlatform | dat_to_shortcode_converter.py:672-695 | An always-separate variant wins in both modes; otherwise consolidated mode keeps the detected code and regional mode takes the first regional hit or the detected code. |
| Regional.RegionalEngine.GetDisplayName | dat_to_shortcode_converter.py:697-794 | Consolidated mode gives nes, snes and pcengine their notes; otherwise the display table, falling back to the code. |
| Regional.TargetPlatformCodes | dat_to_shortcode_converter.py:645-695 | The final code is the detected one or one of the five always-separate codes, or (regional mode) a regional code. |
| Regional.AlwaysSeparateCodes | dat_to_shortcode_converter.py:645-651 | The always-separate table yields only fds, n64dd, segacd, pcenginecd or turbografxcd. |
| Regional.RegionalCodes | dat_to_shortcode_converter.py:654-670 | The regional table yields only snes, sfc, nes, famicom, pcengine or turbografx. |
| Regional.FdsAlwaysSeparate | dat_to_shortcode_converter.py:3934 | The Family Computer Disk System folder goes to fds in both modes. |
| Regional.N64ddAlwaysSeparate | dat_to_shortcode_converter.py:3935 | The Nintendo 64DD folder goes to n64dd in both modes. |
| Regional.SegaCdAlwaysSeparate | dat_to_shortcode_converter.py:3936-3937 | The Sega CD and Mega CD folders go to segacd in both modes. |
| Regional.FamicomByMode | dat_to_shortcode_converter.py:3922-3955 | The Famicom folder keeps the detected code when consolidated and becomes famicom when regional. |
| Regional.SuperFamicomByMode | dat_to_shortcode_converter.py:3922-3955 | The Super Famicom folder keeps the detected code when consolidated and becomes sfc when regional. |
| Regional.PcEngineRegional | dat_to_shortcode_converter.py:3951 | The PC Engine folder keeps the detected code when consolidated and becomes pcengine when regional. |
| Regional.TurboGrafxRegional | dat_to_shortcode_converter.py:3952 | The TurboGrafx-16 folder keeps the detected code when consolidated and becomes turbografx when regional. |
| FormatHandling.DetectN64Format | dat_to_shortcode_converter.py:2791-2799 | "bigendian" exactly when the lower-cased name contains it; "byteswapped" exactly when it contains that and not the first; otherwise "standard". |
| FormatHandling.DetectNdsFormat | dat_to_shortcode_converter.py:2801-2809 | "encrypted" exactly when the lower-cased name contains it; "decrypted" exactly when only that is named; otherwise "standard". |
| FormatHandling.TargetPath | dat_to_shortcode_converter.py:2811-2820 | The platform folder under the base, plus the detected format folder for n64 and nds only. |
| FormatHandling.LowerStrIdempotent | dat_to_shortcode_converter.py:2793 | Lower-casing twice is lower-casing once. |
| FormatHandling.FormatsIgnoreCase | dat_to_shortcode_converter.py:2791-2809 | Format detection does not depend on the case of the folder name. |
| FormatHandling.BigEndianAnywhere | dat_to_shortcode_converter.py:2794-2795 | "bigendian" in any case and position selects the big-endian folder. |
| FormatHandling.EncryptedAnywhere | dat_to_shortcode_converter.py:2804-2805 | "encrypted" anywhere wins, even when "decrypted" is also named. |
| Analyzer.Identify | dat_to_shortcode_converter.py:2671-2778 | A result exactly when a specialised handler matches the raw name or a table entry matches the start of the preprocessed name; the display name is the engine's for the final code. |
| Analyzer.SpecializedFirst | dat_to_shortcode_converter.py:2683-2715 | A specialised match decides alone: preprocessing does not matter and the regional engine sees the raw name. |
| Analyzer.TableDecides | dat_to_shortcode_converter.py:2721-2771 | Without a specialised match the first table entry matching the preprocessed name decides, and the engine maps its code. |
| Analyzer.IdentifiedCodes | dat_to_shortcode_converter.py:2700-2771 | The final code is the detected one or one of the regional tables' codes. |
| Analyzer.IdentifyStats | dat_to_shortcode_converter.py:2721-2723 | The subcategory processor counts a name exactly when it has no specialised match and preprocessing is on. |
| Analyzer.RomFiles | dat_to_shortcode_converter.py:2527-2536 | Every file of the ROM list passes the ROM test, and the list is no longer than the file list. |
| Analyzer.RomFilesMembers | dat_to_shortcode_converter.py:2527-2536 | The ROM files are exactly the listed files whose suffix is a ROM extension. |
| Analyzer.RomFilesAllOrNone | dat_to_shortcode_converter.py:2527-2536 | When every file is a ROM the list is the whole listing; when none is, it is empty. |
| Analyzer.RomFilesInOrder | dat_to_shortcode_converter.py:2527-2536 | The ROM list equals the reference filter `KeepRoms`: the ROM files in listing order. |
| Analyzer.Classify | dat_to_shortcode_converter.py:2517-2601 | The target is skipped first, then a folder without ROM files (unless empty ones are included), then excluded folders, and only then identification. |
| Analyzer.IndexOf | dat_to_shortcode_converter.py:2580 | The position of the entry for a code, or none when no entry has it. |
| Analyzer.Analyze | dat_to_shortcode_converter.py:2491-2502 | A listing failure returns empty results with three statistics entries; otherwise the statistics include the target count. |
| Analyzer.ScanCounts | dat_to_shortcode_converter.py:2655-2660 | Every directory counts as processed; the target, the ROM-less and the ROM-holding directories are counted by what they are. |
| Analyzer.ScanUnknown | dat_to_shortcode_converter.py:2599-2601 | The unknown list holds exactly the unidentified folders, in listing order. |
| Analyzer.ScanExcluded | dat_to_shortcode_converter.py:2554-2567 | The excluded dictionary has a key for exactly the excluded folders, with reason and ROM count, the last one winning. |
| Analyzer.ScanPlatforms | dat_to_shortcode_converter.py:2573-2598 | One entry per identified code, no duplicates: the display name of its first folder, its folders in order, their count and their ROM total. |
| Analyzer.ScanEntries | dat_to_shortcode_converter.py:2573-2598 | Each platform entry's folders are exactly the folders identified as its code. |
| Analyzer.RecordFolder | dat_to_shortcode_converter.py:2580-2597 | The dictionary update creates a missing entry and then grows it, as the reference `AddFolder` says. |
| Analyzer.DecidersFor | dat_to_shortcode_converter.py:2554-2573 | The scan's exclusion decision is the exclusion table's first hit, and its identification is `Identify`. |
| Analyzer.PlatformAnalyzer.constructor | dat_to_shortcode_converter.py:2426-2442 | Without an engine the consolidated one is used; the subcategory processor exists exactly when enabled. |
| Analyzer.PlatformAnalyzer.CheckExclusions | dat_to_shortcode_converter.py:2664-2669 | `_check_exclusions` returns the first exclusion hit's reason. |
| Analyzer.PlatformAnalyzer.CollectRomFiles | dat_to_shortcode_converter.py:2527-2536 | The walk's ROM list is `RomFiles`. |
| Analyzer.PlatformAnalyzer.IdentifyPlatform | dat_to_shortcode_converter.py:2671-2778 | `_identify_platform` returns `Identify` and advances the processor's counters as `IdentifyStats` says. |
| Analyzer.PlatformAnalyzer.ClassifyDirectory | dat_to_shortcode_converter.py:2517-2601 | One directory's outcome is `Classify`, and the counters advance only for folders that reach identification. |
| Analyzer.PlatformAnalyzer.VisitDirectory | dat_to_shortcode_converter.py:2506-2601 | One loop iteration is one `Step` of the scan. |
| Analyzer.PlatformAnalyzer.AnalyzeDirectory | dat_to_shortcode_converter.py:2444-2662 | `analyze_directory` returns `Analyze` of the listing, and the processor has counted each folder that reached identification. |
| Copying.Sha1 | dat_to_shortcode_converter.py:886-915 | A digest exactly when the file exists and can be read. |
| Copying.Without | dat_to_shortcode_converter.py:1064-1079 | Unlinking removes the target and nothing else. |
| Copying.SkipExactlyWhenIdentical | dat_to_shortcode_converter.py:917-970 | A file is left alone exactly when both sides read and agree in size and digest, and that is the "identical_hash" reason. |
| Copying.SkipKeepsOnlyEqualContent | dat_to_shortcode_converter.py:936-960 | With a collision-free digest, a skipped target holds the source's bytes. |
| Copying.NewFileExactlyWhenAbsent | dat_to_shortcode_converter.py:926-970 | The reason is "new_file" exactly when the target is absent. |
| Copying.Hex | dat_to_shortcode_converter.py:1068-1070 | `{n:08X}` writes exactly eight digits. |
| Copying.CopyWithVerification | dat_to_shortcode_converter.py:1044-1079 | One attempt changes only the target; success leaves a copy with the source's CRC32, failure leaves no target. |
| Copying.Attempts | dat_to_shortcode_converter.py:1087-1108 | The attempts stop at the first success and number the retry limit on failure. |
| Copying.RetriesLeaveVerifiedCopyOrNothing | dat_to_shortcode_converter.py:1081-1108 | After the retries, a success leaves a verified copy, a failure no target, and no other file changed. |
| Copying.EarlierAttemptsFailed | dat_to_shortcode_converter.py:1087-1093 | The result is decided by the attempt that ends the run. |
| Copying.BackoffMs | dat_to_shortcode_converter.py:1085-1102 | The delays are 0.1 s, 0.3 s, then 0.7 s for every later attempt. |
| Copying.Pauses | dat_to_shortcode_converter.py:1087-1102 | One pause fewer than attempts. |
| Copying.PausesAreDelays | dat_to_shortcode_converter.py:1099-1102 | The i-th pause is the delay for attempt i. |
| Copying.CopyFileWithRetry | dat_to_shortcode_converter.py:1081-1108 | The loop makes the attempts `Attempts` describes and pauses as `Pauses` says. |
| Copying.CopyFileAtomic | dat_to_shortcode_converter.py:1110-1116 | Three attempts, with an error message only on failure. |
| FolderHints.FirstIndexOf | dat_to_shortcode_converter.py:1465-1466 | The first occurrence of a closing character from a position on, or none. |
| FolderHints.Delimited | dat_to_shortcode_converter.py:1465-1466 | A bracketed or parenthesised hint has one to eight characters, none of them the closing one. |
| FolderHints.ShortWordFrom | dat_to_shortcode_converter.py:1469 | A short-word hint has two to four word characters. |
| FolderHints.Leftmost | dat_to_shortcode_converter.py:1473 | `re.search` finds the leftmost start that matches, or none. |
| FolderHints.FirstHint | dat_to_shortcode_converter.py:1472-1482 | The hint comes from a pattern at or after the current one; none when no pattern gives an acceptable hint. |
| FolderHints.FolderHint | dat_to_shortcode_converter.py:1443-1482 | Any hint returned is not a stop word and has one to eight characters. |
| FolderHints.ExtractFolderHint | dat_to_shortcode_converter.py:1443-1482 | The loop over the patterns computes `FolderHint`. |
| FolderHints.FirstPatternDecides | dat_to_shortcode_converter.py:1462-1479 | The dash-suffix pattern decides whenever its hint is acceptable. |
| FolderHints.DashSearch | dat_to_shortcode_converter.py:1462-1475 | `-(\w{1,8})$` finds the word after the last dash. |
| FolderHints.DashSuffixHint | dat_to_shortcode_converter.py:1443-1482 | A name ending in a dash and one to eight word characters that are not a stop word (such as "NES-1") takes those characters as its hint. |
| FolderHints.SecondPatternDecides | dat_to_shortcode_converter.py:1462-1479 | When the dash pattern finds nothing, the underscore pattern decides whenever its hint is acceptable. |
| FolderHints.ThirdPatternDecides | dat_to_shortcode_converter.py:1462-1479 | When neither suffix pattern finds anything, the parentheses decide whenever their hint is acceptable. |
| FolderHints.UnderscoreSuffixHint | dat_to_shortcode_converter.py:1443-1482 | A name ending in an underscore and one to eight word characters that are not a stop word (such as "NES_v2") takes those characters as its hint. |
| FolderHints.ParenHint | dat_to_shortcode_converter.py:1443-1482 | A name whose first parenthesis holds one to eight characters that are not a stop word (such as "NES (Alt)") takes them as its hint. |
| FolderHints.DashNumberExample | dat_to_shortcode_converter.py:1446 | "NES-1" gives "1". |
| FolderHints.DashWordExample | dat_to_shortcode_converter.py:1447 | "NES-USA" gives "USA". |
| FolderHints.ParenRegionExample | dat_to_shortcode_converter.py:1448 | "Nintendo Entertainment System (Europe)" gives "Europe". |
| FolderHints.ParenExample | dat_to_shortcode_converter.py:1449 | "NES (Alt)" gives "Alt". |
| FolderHints.UnderscoreExample | dat_to_shortcode_converter.py:1450 | "NES_v2" gives "v2". |
| UniquePaths.FreeNumberFrom | dat_to_shortcode_converter.py:1548-1557 | The first number from 2 to 99 whose name is free, and every lower one is taken; none when all are taken. |
| UniquePaths.HintOf | dat_to_shortcode_converter.py:1537-1538 | A hint only for a non-empty folder name, and then the folder hint of one to eight characters. |
| UniquePaths.GetUniqueTargetPath | dat_to_shortcode_converter.py:1484-1561 | Computes the reference choice `UniqueTargetPath`. |
| UniquePaths.ChooseTarget | dat_to_shortcode_converter.py:1519-1561 | The body after the hint is known computes `UniqueTargetPathWithHint`. |
| UniquePaths.FirstFreeNumber | dat_to_shortcode_converter.py:1548-1557 | The counter loop finds `FreeNumberFrom` from 2. |
| UniquePaths.KeptExactlyWhenFree | dat_to_shortcode_converter.py:1519-1521 | The plain name is kept exactly when no earlier file claimed it and it is not on disk. |
| UniquePaths.SkippedExactlyWhenIdentical | dat_to_shortcode_converter.py:1523-1529 | "skip_identical" exactly when the taken plain target exists and both digests are present and equal. |
| UniquePaths.FreeUnlessSkippedOrExhausted | dat_to_shortcode_converter.py:1519-1561 | The path returned is free unless the file is skipped or all names are used, and in those two cases it is the plain target. |
| UniquePaths.StaysInPlatformFolder | dat_to_shortcode_converter.py:1519-1561 | Every path lies directly in the platform folder, and a rename differs from the plain name. |
| UniquePaths.HintBeforeLowestNumber | dat_to_shortcode_converter.py:1537-1557 | A hint rename uses the folder hint; a number rename uses the lowest free number, after the hint name was taken or missing. |
| UniquePaths.ExhaustedOnlyWhenAllTaken | dat_to_shortcode_converter.py:1548-1561 | "too_many_duplicates" only when all of 2 to 99 are taken. |
| UniquePaths.CopyIsNewUnlessExhausted | dat_to_shortcode_converter.py:1484-1561 | Comparing with the chosen path finds a new file unless it was skipped or exhausted. |
| FolderCopy.FolderOf | dat_to_shortcode_converter.py:1790-1798 | The first source folder that holds the file, in order; none when none does. |
| FolderCopy.PlatformOf | dat_to_shortcode_converter.py:1787-1800 | The first platform with a non-empty code and a folder holding the file; earlier ones have an empty code or no such folder. |
| FolderCopy.Locate | dat_to_shortcode_converter.py:1784-1804 | The code and folder of the first platform holding the file, or else the parent folder's name, lower-cased for the code. |
| FolderCopy.StepClaimsFreshTarget | dat_to_shortcode_converter.py:1817-1827 | Each file claims its target at once; a kept or renamed target was claimed by no earlier file and is not on disk. |
| FolderCopy.CopiedKeepsRenamed | dat_to_shortcode_converter.py:1875-1888 | A copy never changes the count of renames. |
| FolderCopy.DecidedCountsRename | dat_to_shortcode_converter.py:1830-1915 | Once its target is chosen, a renamed file adds `RenameWeight` to the renames (two in a dry run as written, one otherwise) and any other file none. |
| FolderCopy.RenamedCountsRenames | dat_to_shortcode_converter.py:1817-1915 | Each file adds to the renames exactly when its target is renamed, by `RenameWeight`. |
| FolderCopy.DryRunRenameCountedTwice | dat_to_shortcode_converter.py:1830-1915 | As written, the dry run adds two renames for one renamed file; corrected, one. |
| FolderCopy.DryRunCountingsDiffer | dat_to_shortcode_converter.py:1909-1915 | The two dry-run countings differ exactly on renamed files. |
| FolderCopy.DryRunDecided | dat_to_shortcode_converter.py:1830-1915 | In a dry run, a file whose target is chosen changes nothing on disk and is counted once, or `RenameWeight` times when renamed. |
| FolderCopy.DryRunStep | dat_to_shortcode_converter.py:1779-1925 | In a dry run, a file changes nothing on disk, is counted once (twice at most as written, exactly once corrected), and adds one to the processed count. |
| FolderCopy.DryRunCountsEachFileOnce | dat_to_shortcode_converter.py:1765-1935 | A dry run writes nothing, never stops, processes every file and counts none as an error; corrected it counts each file exactly once, as written between once and twice. |
| FolderCopy.CopiedVerifiesOrNamesReplaced | dat_to_shortcode_converter.py:1867-1888 | A copy changes only its target; one counted as copied is a verified copy unless the error text named "replaced". |
| FolderCopy.LiveDecided | dat_to_shortcode_converter.py:1848-1903 | In a live run, a file whose target is chosen changes only that target, with the same exception. |
| FolderCopy.LiveStepTouchesOnlyTarget | dat_to_shortcode_converter.py:1779-1925 | In a live run, a file leaves every path but its chosen target as it was. |
| FolderCopy.FirstFolder | dat_to_shortcode_converter.py:1790-1798 | The inner loop computes `FolderOf`. |
| FolderCopy.FindPlatform | dat_to_shortcode_converter.py:1784-1804 | The platform search with its fallback computes `Locate`. |
| FolderCopy.RunTotals.constructor | dat_to_shortcode_converter.py:1719-1724 | The shared totals start at zero. |
| FolderCopy.RomProcessor.constructor | dat_to_shortcode_converter.py:1576-1600 | The processor keeps the source directory and the dry-run flag. |
| FolderCopy.RunTotals.Add | dat_to_shortcode_converter.py:1928-1933 | Adding a folder's counters adds each of the five to the shared totals and leaves `files_processed` alone. |
| FolderCopy.RomProcessor.CopyAndCount | dat_to_shortcode_converter.py:1867-1900 | A live copy with `copy_file_atomic` is counted as `Copied` says, and a success records the target's folder. |
| FolderCopy.RomProcessor.HandleTarget | dat_to_shortcode_converter.py:1830-1915 | A file whose target is chosen is handled as `Decided` says, including the shutdown check. |
| FolderCopy.RomProcessor.ProcessFile | dat_to_shortcode_converter.py:1779-1925 | One file is handled as `FileStep` says, with the counting as written, and adds one to the processed count. |
| FolderCopy.RomProcessor.Advance | dat_to_shortcode_converter.py:1779-1925 | One loop iteration is one step of `FolderRun`. |
| FolderCopy.RomProcessor.RunFiles | dat_to_shortcode_converter.py:1779-1925 | The loop over the folder's files computes `FolderRun`, stopping at a shutdown. |
| FolderCopy.RomProcessor.ProcessFolderFiles | dat_to_shortcode_converter.py:1765-1935 | `process_folder_files` computes `FolderRun` with the counting as written and a claimed-target set of its own, and adds the folder's counters to the totals unless a shutdown ended it. |
| CopyEngine.ProcessingStats.constructor | dat_to_shortcode_converter.py:331-348 | All counters start at zero, with no selected platforms and no created folders. |
| CopyEngine.SelectStrategy | dat_to_shortcode_converter.py:2033-2058 | One worker exactly under WSL2, with that strategy's retry settings; otherwise eight workers with the high-concurrency ones. |
| CopyEngine.ProgressUpdateFrequency | dat_to_shortcode_converter.py:2077-2086 | The frequency is 10, 100, 500 or 1000. |
| CopyEngine.FrequencyMonotone | dat_to_shortcode_converter.py:2077-2086 | More files never mean more frequent updates. |
| CopyEngine.FewerThanHundredUpdates | dat_to_shortcode_converter.py:2077-2086 | Below 50000 files there are fewer than a hundred progress updates. |
| CopyEngine.EngineBackoffMs | dat_to_shortcode_converter.py:2414 | The engine's delay is at least 100 ms. |
| CopyEngine.EngineBackoffDoubles | dat_to_shortcode_converter.py:2412-2415 | Each pause of the engine's retry loop doubles the previous one. |
| CopyEngine.SingleStepCountsOnce | dat_to_shortcode_converter.py:2132-2180 | A file adds at most `StepBound` to copied plus renamed (two as written, one corrected), and is counted somewhere exactly when its platform is selected. |
| CopyEngine.UniqueFilesBounded | dat_to_shortcode_converter.py:2088-2228 | `total_unique_files` never exceeds the number of selected files when corrected, and twice that number as written. |
| CopyEngine.RenamedCopyCountedTwice | dat_to_shortcode_converter.py:2153-2178 | As written, a renamed file that copies adds two to `total_unique_files`; corrected, one. |
| CopyEngine.CountingsDifferOnlyOnRenamedCopies | dat_to_shortcode_converter.py:2173-2178 | The two countings differ exactly on successful copies of renamed files. |
| CopyEngine.AsyncFileCopyEngine.constructor | dat_to_shortcode_converter.py:1991-2003 | The engine takes its strategy from the WSL2 check and its worker count from that strategy. |
| CopyEngine.AsyncFileCopyEngine.CopyWithRetry | dat_to_shortcode_converter.py:2398-2421 | Up to `max_retries` verified copies with doubling pauses; no attempt when it is zero. |
| CopyEngine.AsyncFileCopyEngine.CopyAndCount | dat_to_shortcode_converter.py:2150-2178 | A file whose target is chosen is claimed, then skipped or copied and counted. |
| CopyEngine.AsyncFileCopyEngine.CopyFile | dat_to_shortcode_converter.py:2158-2178 | A file not skipped is counted as renamed if it was renamed, copied with retries, then counted as copied or as an error. |
| CopyEngine.AsyncFileCopyEngine.CountRename | dat_to_shortcode_converter.py:2158-2159 | A renamed file adds one to `files_renamed_duplicates`; other counters stay. |
| CopyEngine.AsyncFileCopyEngine.CountOutcome | dat_to_shortcode_converter.py:2173-2177 | The copy outcome is counted as written: a success adds to `files_copied`, a failure to `errors`. |
| CopyEngine.AsyncFileCopyEngine.ProcessFile | dat_to_shortcode_converter.py:2132-2180 | One file is handled as `SingleStep` says with the counting as written; files of unselected platforms are passed over. |
| CopyEngine.AsyncFileCopyEngine.ProcessSingleThreaded | dat_to_shortcode_converter.py:2088-2228 | The pass over all folders' files in order computes `SingleRun` with the counting as written and a global claimed-target set, and leaves the other counters at zero. |
| CopyEngine.AsyncFileCopyEngine.CopyFilesAdaptive | dat_to_shortcode_converter.py:2060-2075 | With one worker (exactly under WSL2) the run is the single-threaded pass; otherwise the concurrent pass, which is not modelled. |
| Selection.Split | dat_to_shortcode_converter.py:2914 | `str.split` always gives at least one piece. |
| Selection.SplitJoin | dat_to_shortcode_converter.py:2914 | Joining the pieces gives the string back, and no piece holds the separator. |
| Selection.ParseInt | dat_to_shortcode_converter.py:2916-2924 | `int()` reads only non-blank text. |
| Selection.ParsePart | dat_to_shortcode_converter.py:2915-2924 | A part is read as a range only when it holds a dash, and as a single number only when it does not. |
| Selection.ParseSelection | dat_to_shortcode_converter.py:2909-2931 | A successful selection is non-empty and holds only platform codes. |
| Selection.AddRange | dat_to_shortcode_converter.py:2919-2921 | The range loop adds exactly the codes at positions start to end that exist. |
| Selection.AddPart | dat_to_shortcode_converter.py:2915-2926 | One part adds exactly the codes it picks. |
| Selection.ParseSelectionLoop | dat_to_shortcode_converter.py:2909-2931 | The loop over the comma-separated parts computes `ParseSelection`. |
| Selection.ParseNumeral | dat_to_shortcode_converter.py:2924 | Decimal text is read back as its number. |
| Selection.OnePart | dat_to_shortcode_converter.py:2914-2931 | A selection of one readable part picks that part's codes, or raises `ValueError` when it picks none. |
| Selection.SingleNumberPicks | dat_to_shortcode_converter.py:2923-2926 | "n" picks the n-th code when there is one, and raises `ValueError` otherwise. |
| Selection.RangePicks | dat_to_shortcode_converter.py:2916-2921 | "a-b" picks exactly the codes at positions a to b that exist, and raises `ValueError` when there are none. |
| Selection.UnreadablePartRejects | dat_to_shortcode_converter.py:2914-2924 | One unreadable part makes the whole selection raise `ValueError`. |

## Left out

- **Logging, output and progress.** Logging, printing, the progress display, the performance monitor, the extension `Counter` and the debug output change no decision and are not modelled.
- **Extension statistics.** The extension statistics of `analyze_directory` are left out, because only the ROM test influences the results.
- **Table sizes.** `get_stats` (table sizes) and `log_statistics` are not modelled.
- **Threads and time.** The thread pool and the orchestration of `process_files_concurrent` and `_process_concurrent` are not modelled; neither are the 1000-file chunks, the recovery pauses, `os.sync`, `mkdir` and time. A folder's pass is modelled on its own. Shutdown requests are a parameter, `shutdown(i)`.
- **The outside world.** Filesystem errors are abstracted to "the file cannot be read". An unlink is assumed to succeed. Digests, CRC outcomes and copy results are parameters (`Digests`, `CopyIo`). The WSL2 detection is the boolean `isWsl2`. `copy_file_simple_wsl2` and the legacy WSL2 copy are not modelled.
- **Regular expressions.** They are modelled by the subset the tables use: literals, `.*`, optional characters, `$`, and negative lookaheads of whitespace and words. Case folding and `\w` are ASCII only. Names are strings of characters with no Unicode case rules.
- **Paths.** A path is a list of components, and `str(path)` sets are sets of such lists. Windows paths and `resolve()` are not modelled; the target-directory check is the flag `isTarget`.
- **Exceptions.** Unexpected exceptions inside `process_folder_files` are not modelled. The mode strings other than "consolidated" and "regional" are not modelled.
- **Format folder in the per-folder pass.** `process_folder_files` computes `target_platform_dir` with the format handler but never uses it; the model leaves it out, because it does not change behaviour.
- **Dry run in the single-threaded pass.** The pass ignores `dry_run`; the model does the same.
- Copying.CopyFileWithRetry: requires at least one attempt, because with `max_retries` of zero the source raises `UnboundLocalError`, and that crash is not modelled.
- CopyEngine.AsyncFileCopyEngine.CopyFilesAdaptive: returns `None` for the multi-worker case, because the concurrent pass is not modelled.
- Selection.ParseSelection: does not model the following:
  - `int()` accepting underscores and non-ASCII digits;
  - the sorting of the platform codes, which are passed in already sorted;
  - the order of `list(selected)`, which is modelled as a set.
- **Interactive selection.** The prompts and display of `InteractiveSelector` are not modelled.
- Analyzer.Analyze: the order of the excluded dictionary is not modelled, because a map has none.
- **Display-name lookup.** The display-name table contents enter only through `GetDisplayName`; their values are not restated.

## Findings

| source | as written | input that shows it | evidently intended | confidence | as-written member | corrected member |
|---|---|---|---|---|---|---|
| dat_to_shortcode_converter.py:1830-1915 | In a dry run a renamed file is counted in `folder_renamed` once when its target is chosen, and once more in the dry-run branch | a dry run where a file's plain target is taken, so it is renamed with a hint: `files_renamed` grows by 2 | counted once, as in the live branch (line 1884 notes renamed files are already counted) | not executed | FolderCopy.DryRunRenameCountedTwice | FolderCopy.DryRunCountsEachFileOnce |
| dat_to_shortcode_converter.py:2153-2178 | `_process_single_threaded` counts a renamed file in `files_renamed_duplicates` and, once copied, again in `files_copied`, so `total_unique_files` counts it twice | one file whose plain target already exists with different content, copied successfully: `total_unique_files` is 2 | a renamed copy counted once, as `process_folder_files` does at line 1884 | not executed | CopyEngine.RenamedCopyCountedTwice | CopyEngine.UniqueFilesBounded |

Both countings are kept in the model as the `Counting` parameter
(`AsWritten`, `Corrected`). The processor methods (`RomProcessor`,
`AsyncFileCopyEngine`) count as the code is written, and the lemmas above
state what each counting gives.
