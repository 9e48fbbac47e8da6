// PlatformAnalyzer: which platform a top-level folder belongs to, and the
// scan of the source directory that sorts every folder into platforms,
// exclusions and unknowns.

module Analyzer {
  import opened Text
  import opened Patterns
  import opened GoodPatterns
  import opened Subcategory
  import opened Regional
  import Catalog

  /**
   * What identification consults besides the name: the specialized pattern
   * processor, the regional engine's choice of final code and of display
   * name, whether a subcategory processor preprocesses names, and the
   * platform table.
   */
  datatype Config = Config(
    specialize: string -> Specialized,
    targetPlatform: (string, string) -> string,
    displayName: string -> string,
    preprocess: bool,
    mappings: seq<Rule<Platform>>)

  /** The configuration `PlatformAnalyzer` builds: its own processors, `engine`, and the platform table. */
  function StandardConfig(engine: RegionalEngine, preprocess: bool): Config {
    Config(
      ProcessSpecialized,
      (folderName, detected) => engine.GetTargetPlatform(folderName, detected),
      platform => engine.GetDisplayName(platform),
      preprocess,
      Catalog.PlatformMappings)
  }

  /** The name the platform table sees: the subcategory chain's output when enabled. */
  function Preprocessed(name: string, preprocess: bool): string {
    if preprocess then RunChain(Chain, name, InitialContext(name)).0 else name
  }

  /**
   * `_identify_platform`: a specialized match (Good tools, FinalBurn Neo,
   * MAME) on the raw name wins; otherwise the first table entry matching the
   * start of the preprocessed name. Either way the regional engine picks the
   * final code from the name it was matched on, and the display name is the
   * engine's name for that final code.
   */
  function Identify(name: string, cfg: Config): (r: Option<(string, string)>)
    ensures r.Some? <==>
      cfg.specialize(name).result.Some? || FirstHit(cfg.mappings, Preprocessed(name, cfg.preprocess), AtStart).Some?
    ensures r.Some? ==> r.value.1 == cfg.displayName(r.value.0)
  {
    match cfg.specialize(name).result
    case Some(p) =>
      var final := cfg.targetPlatform(name, p.shortcode);
      Some((final, cfg.displayName(final)))
    case None =>
      var n := Preprocessed(name, cfg.preprocess);
      match FirstHit(cfg.mappings, n, AtStart)
      case Some(p) =>
        var final := cfg.targetPlatform(n, p.shortcode);
        Some((final, cfg.displayName(final)))
      case None => None
  }

  /** `cfg` picks final codes with the regional engine `engine`, as `StandardConfig(engine, _)` does. */
  ghost predicate RegionalChoice(cfg: Config, engine: RegionalEngine) {
    forall folderName, detected :: cfg.targetPlatform(folderName, detected) == engine.GetTargetPlatform(folderName, detected)
  }

  /**
   * A specialized match decides alone: neither the table nor preprocessing
   * is consulted, and the regional engine sees the raw name.
   */
  lemma SpecializedFirst(name: string, cfg: Config, other: bool)
    requires cfg.specialize(name).result.Some?
    ensures Identify(name, cfg) == Identify(name, cfg.(preprocess := other))
    ensures Identify(name, cfg).value.0 == cfg.targetPlatform(name, cfg.specialize(name).result.value.shortcode)
  {
  }

  /**
   * Without a specialized match, the table entry that decides is the first
   * one matching the preprocessed name, and with a consolidated engine the
   * code is that entry's own unless an always-separate variant matches.
   */
  lemma TableDecides(name: string, cfg: Config, engine: RegionalEngine)
    requires RegionalChoice(cfg, engine)
    requires cfg.specialize(name).result.None?
    ensures var n := Preprocessed(name, cfg.preprocess);
      var hit := FirstHit(cfg.mappings, n, AtStart);
      (hit.Some? && engine.mode == Consolidated && FirstHit(AlwaysSeparateRules, n, Anywhere).None?)
        ==> Identify(name, cfg).value.0 == hit.value.shortcode
  {
  }

  /** The final code is the detected one or one of the regional tables' codes. */
  lemma IdentifiedCodes(name: string, cfg: Config, engine: RegionalEngine)
    requires RegionalChoice(cfg, engine)
    requires Identify(name, cfg).Some?
    ensures var code := Identify(name, cfg).value.0;
      var detected := if cfg.specialize(name).result.Some? then cfg.specialize(name).result.value.shortcode
        else FirstHit(cfg.mappings, Preprocessed(name, cfg.preprocess), AtStart).value.shortcode;
      code == detected || code in {"fds", "n64dd", "segacd", "pcenginecd", "turbografxcd"}
      || (engine.mode == Regional && code in {"snes", "sfc", "nes", "famicom", "pcengine", "turbografx"})
  {
    var s := cfg.specialize(name).result;
    if s.Some? {
      TargetPlatformCodes(engine, name, s.value.shortcode);
    } else {
      var n := Preprocessed(name, cfg.preprocess);
      TargetPlatformCodes(engine, n, FirstHit(cfg.mappings, n, AtStart).value.shortcode);
    }
  }

  /** The effect of one identification on the subcategory processor's counters. */
  function IdentifyStats(s: Stats, name: string, cfg: Config): (r: Stats)
    ensures cfg.specialize(name).result.Some? || !cfg.preprocess ==> r == s
    ensures cfg.specialize(name).result.None? && cfg.preprocess ==> r.processedCount == s.processedCount + 1
  {
    if cfg.specialize(name).result.Some? || !cfg.preprocess then s
    else
      var (processed, ctx) := RunChain(Chain, name, InitialContext(name));
      Counted(s, name, processed, ctx)
  }

  // ---------------------------------------------------------------------
  // The directory scan

  /**
   * One top-level directory of the source: its name, whether it resolves to
   * the target directory, and the names of all files below it in walk order.
   */
  datatype DirEntry = DirEntry(name: string, isTarget: bool, files: seq<string>)

  /** Listing the source directory either yields its top-level directories or fails. */
  datatype Listing = Listed(dirs: seq<DirEntry>) | ListingFailed

  /** `PlatformInfo`. */
  datatype PlatformInfo = PlatformInfo(
    shortcode: string,
    displayName: string,
    folderCount: nat,
    fileCount: nat,
    sourceFolders: seq<string>)

  /**
   * The directory statistics dictionary; `targetDirectoriesSkipped` is absent
   * from the one returned when the source cannot be listed.
   */
  datatype DirectoryStats = DirectoryStats(
    totalProcessed: nat,
    directoriesWithRoms: nat,
    emptyDirectories: nat,
    targetDirectoriesSkipped: Option<nat>)

  /**
   * What `analyze_directory` returns. The platforms dictionary keeps its
   * insertion order, so it is a sequence with distinct shortcodes.
   */
  datatype Analysis = Analysis(
    platforms: seq<PlatformInfo>,
    excluded: map<string, (string, nat)>,
    unknown: seq<string>,
    stats: DirectoryStats)

  /**
   * The decisions the scan delegates: the ROM-extension test of a file,
   * the exclusion check of a folder name, its identification, and the
   * effect of that identification on the subcategory processor's counters.
   * `PlatformAnalyzer` binds them to `IsRomFile`, `CheckExclusions`,
   * `Identify` and `IdentifyStats`.
   */
  datatype Deciders = Deciders(
    isRom: string -> bool,
    exclusion: string -> Option<string>,
    identify: string -> Option<(string, string)>,
    counted: (Stats, string) -> Stats)

  /** Every file in `files` passes the ROM test. */
  predicate AllRoms(files: seq<string>, isRom: string -> bool) {
    forall i :: 0 <= i < |files| ==> isRom(files[i])
  }

  /** No file in `files` passes the ROM test. */
  predicate NoRoms(files: seq<string>, isRom: string -> bool) {
    forall i :: 0 <= i < |files| ==> !isRom(files[i])
  }

  /** The ROM files below a directory, in walk order. */
  function RomFiles(files: seq<string>, isRom: string -> bool): (r: seq<string>)
    ensures |r| <= |files|
    ensures AllRoms(r, isRom)
  {
    if files == [] then []
    else
      var last := files[|files| - 1];
      RomFiles(files[..|files| - 1], isRom) + (if isRom(last) then [last] else [])
  }

  /** A directory of ROM files keeps them all; one with none keeps nothing. */
  lemma {:induction false} RomFilesAllOrNone(files: seq<string>, isRom: string -> bool)
    ensures AllRoms(files, isRom) ==> RomFiles(files, isRom) == files
    ensures NoRoms(files, isRom) ==> RomFiles(files, isRom) == []
  {
    if files != [] {
      var init := files[..|files| - 1];
      RomFilesAllOrNone(init, isRom);
      assert files == init + [files[|files| - 1]];
    }
  }

  /** The ROM files are exactly the listed files that pass the test. */
  lemma {:induction false} RomFilesMembers(files: seq<string>, isRom: string -> bool)
    ensures forall f :: f in RomFiles(files, isRom) <==> f in files && isRom(f)
  {
    if files != [] {
      RomFilesMembers(files[..|files| - 1], isRom);
      assert files == files[..|files| - 1] + [files[|files| - 1]];
    }
  }

  /** The filter written from the front: each file, if it passes the test, then the rest. */
  function KeepRoms(files: seq<string>, isRom: string -> bool): seq<string> {
    if files == [] then []
    else (if isRom(files[0]) then [files[0]] else []) + KeepRoms(files[1..], isRom)
  }

  /** Filtering a list with one more file at its end. */
  lemma {:induction false} KeepRomsAppend(files: seq<string>, f: string, isRom: string -> bool)
    ensures KeepRoms(files + [f], isRom) == KeepRoms(files, isRom) + (if isRom(f) then [f] else [])
  {
    if files != [] {
      assert (files + [f])[1..] == files[1..] + [f];
      KeepRomsAppend(files[1..], f, isRom);
    }
  }

  /** The ROM files are the files that pass the test, in the order of the walk. */
  lemma {:induction false} RomFilesInOrder(files: seq<string>, isRom: string -> bool)
    ensures RomFiles(files, isRom) == KeepRoms(files, isRom)
  {
    if files != [] {
      var init := files[..|files| - 1];
      RomFilesInOrder(init, isRom);
      KeepRomsAppend(init, files[|files| - 1], isRom);
      assert files == init + [files[|files| - 1]];
    }
  }

  /** Where one directory ends up. */
  datatype Outcome =
    | SkippedTarget
    | SkippedEmpty
    | Excluded(reason: string)
    | Identified(code: string, display: string)
    | Unidentified

  /**
   * The target directory is skipped first, then a directory without ROM
   * files unless empty ones are included; the exclusion check runs on the
   * raw name before any identification.
   */
  function Classify(d: DirEntry, includeEmpty: bool, dec: Deciders): (r: Outcome)
    ensures r == SkippedTarget <==> d.isTarget
    ensures r == SkippedEmpty <==> !d.isTarget && RomFiles(d.files, dec.isRom) == [] && !includeEmpty
    ensures r.Excluded? <==> !r.SkippedTarget? && !r.SkippedEmpty? && dec.exclusion(d.name).Some?
    ensures r.Identified? ==> dec.exclusion(d.name).None? && dec.identify(d.name) == Some((r.code, r.display))
    ensures r.Unidentified? <==>
      !r.SkippedTarget? && !r.SkippedEmpty? && dec.exclusion(d.name).None? && dec.identify(d.name).None?
  {
    if d.isTarget then SkippedTarget
    else if RomFiles(d.files, dec.isRom) == [] && !includeEmpty then SkippedEmpty
    else match dec.exclusion(d.name)
      case Some(reason) => Excluded(reason)
      case None =>
        match dec.identify(d.name)
        case Some((code, display)) => Identified(code, display)
        case None => Unidentified
  }

  /** The index of the entry for `code`, if any. */
  function IndexOf(ps: seq<PlatformInfo>, code: string): (r: Option<nat>)
    ensures r.Some? ==> r.value < |ps| && ps[r.value].shortcode == code
    ensures r.None? ==> forall i :: 0 <= i < |ps| ==> ps[i].shortcode != code
  {
    if ps == [] then None
    else if ps[|ps| - 1].shortcode == code then Some(|ps| - 1)
    else IndexOf(ps[..|ps| - 1], code)
  }

  /**
   * Record one more folder for `code`: a new entry keeps the display name
   * given now; an existing one keeps its first display name and grows.
   */
  function AddFolder(ps: seq<PlatformInfo>, code: string, display: string, folder: string, roms: nat): seq<PlatformInfo> {
    match IndexOf(ps, code)
    case None => ps + [PlatformInfo(code, display, 1, roms, [folder])]
    case Some(i) =>
      ps[i := Grown(ps[i], folder, roms)]
  }

  /** An entry with one more folder and its ROM files counted in. */
  function Grown(p: PlatformInfo, folder: string, roms: nat): PlatformInfo {
    PlatformInfo(p.shortcode, p.displayName, p.folderCount + 1, p.fileCount + roms, p.sourceFolders + [folder])
  }

  /** The results before the first directory. */
  function Initial(): Analysis {
    Analysis([], map[], [], DirectoryStats(0, 0, 0, Some(0)))
  }

  function Bumped(n: Option<nat>): Option<nat> {
    Some((if n.Some? then n.value else 0) + 1)
  }

  /** One iteration of the scan loop. */
  function Step(a: Analysis, d: DirEntry, includeEmpty: bool, dec: Deciders): Analysis {
    var roms := RomFiles(d.files, dec.isRom);
    var st := a.stats.(totalProcessed := a.stats.totalProcessed + 1);
    var counted := st.(directoriesWithRoms := st.directoriesWithRoms + (if roms != [] then 1 else 0));
    match Classify(d, includeEmpty, dec)
    case SkippedTarget => a.(stats := st.(targetDirectoriesSkipped := Bumped(st.targetDirectoriesSkipped)))
    case SkippedEmpty => a.(stats := st.(emptyDirectories := st.emptyDirectories + 1))
    case Excluded(reason) => a.(excluded := a.excluded[d.name := (reason, |roms|)], stats := counted)
    case Identified(code, display) =>
      a.(platforms := AddFolder(a.platforms, code, display, d.name, |roms|), stats := counted)
    case Unidentified => a.(unknown := a.unknown + [d.name], stats := counted)
  }

  /** The scan over the directories, in listing order. */
  function Scan(dirs: seq<DirEntry>, includeEmpty: bool, dec: Deciders): Analysis {
    if dirs == [] then Initial()
    else Step(Scan(dirs[..|dirs| - 1], includeEmpty, dec), dirs[|dirs| - 1], includeEmpty, dec)
  }

  /** `analyze_directory`: a listing failure yields empty results and the three-entry statistics. */
  function Analyze(listing: Listing, includeEmpty: bool, dec: Deciders): (r: Analysis)
    ensures listing.ListingFailed? ==> r == Analysis([], map[], [], DirectoryStats(0, 0, 0, None))
    ensures listing.Listed? ==> r.stats.targetDirectoriesSkipped.Some?
  {
    match listing
    case ListingFailed => Analysis([], map[], [], DirectoryStats(0, 0, 0, None))
    case Listed(dirs) => ScanCounts(dirs, includeEmpty, dec); Scan(dirs, includeEmpty, dec)
  }

  /** The subcategory processor's counters after one directory: only identified or unknown folders are preprocessed. */
  function StatsAfter(s: Stats, d: DirEntry, includeEmpty: bool, dec: Deciders): Stats {
    match Classify(d, includeEmpty, dec)
    case Identified(_, _) => dec.counted(s, d.name)
    case Unidentified => dec.counted(s, d.name)
    case _ => s
  }

  /** The subcategory processor's counters after the scan. */
  function ScanStats(dirs: seq<DirEntry>, includeEmpty: bool, dec: Deciders, s: Stats): Stats {
    if dirs == [] then s
    else StatsAfter(ScanStats(dirs[..|dirs| - 1], includeEmpty, dec, s), dirs[|dirs| - 1], includeEmpty, dec)
  }

  /** Extending the scanned prefix by one directory is one more step of each fold. */
  lemma ScanExtend(dirs: seq<DirEntry>, i: nat, includeEmpty: bool, dec: Deciders, s: Stats)
    requires i < |dirs|
    ensures Scan(dirs[..i + 1], includeEmpty, dec) == Step(Scan(dirs[..i], includeEmpty, dec), dirs[i], includeEmpty, dec)
    ensures ScanStats(dirs[..i + 1], includeEmpty, dec, s) ==
      StatsAfter(ScanStats(dirs[..i], includeEmpty, dec, s), dirs[i], includeEmpty, dec)
  {
    assert dirs[..i + 1][..i] == dirs[..i];
  }

  // ---------------------------------------------------------------------
  // What the scan computes, stated by independent definitions

  /** The number of directories that resolve to the target directory. */
  function TargetCount(dirs: seq<DirEntry>): (r: nat)
    ensures r <= |dirs|
  {
    if dirs == [] then 0
    else TargetCount(dirs[..|dirs| - 1]) + (if dirs[|dirs| - 1].isTarget then 1 else 0)
  }

  /** The number of directories, other than the target, that hold no ROM file. */
  function RomlessCount(dirs: seq<DirEntry>, dec: Deciders): (r: nat)
    ensures r <= |dirs|
  {
    if dirs == [] then 0
    else
      var d := dirs[|dirs| - 1];
      RomlessCount(dirs[..|dirs| - 1], dec) + (if !d.isTarget && RomFiles(d.files, dec.isRom) == [] then 1 else 0)
  }

  /** The number of directories, other than the target, that hold a ROM file. */
  function WithRomsCount(dirs: seq<DirEntry>, dec: Deciders): (r: nat)
    ensures r <= |dirs|
  {
    if dirs == [] then 0
    else
      var d := dirs[|dirs| - 1];
      WithRomsCount(dirs[..|dirs| - 1], dec) + (if !d.isTarget && RomFiles(d.files, dec.isRom) != [] then 1 else 0)
  }

  /** What one step adds to each counter. */
  lemma StepStats(a: Analysis, d: DirEntry, includeEmpty: bool, dec: Deciders)
    requires a.stats.targetDirectoriesSkipped.Some?
    ensures var st := Step(a, d, includeEmpty, dec).stats;
      var roms := RomFiles(d.files, dec.isRom);
      st.totalProcessed == a.stats.totalProcessed + 1
      && st.targetDirectoriesSkipped == Some(a.stats.targetDirectoriesSkipped.value + (if d.isTarget then 1 else 0))
      && st.emptyDirectories == a.stats.emptyDirectories + (if !d.isTarget && roms == [] && !includeEmpty then 1 else 0)
      && st.directoriesWithRoms == a.stats.directoriesWithRoms + (if !d.isTarget && roms != [] then 1 else 0)
  {
  }

  /**
   * Every directory is counted as processed; the target directory, the
   * directories skipped for lack of ROM files, and those holding ROM files
   * are counted by what they are.
   */
  lemma {:induction false} ScanCounts(dirs: seq<DirEntry>, includeEmpty: bool, dec: Deciders)
    ensures var st := Scan(dirs, includeEmpty, dec).stats;
      st.totalProcessed == |dirs|
      && st.targetDirectoriesSkipped == Some(TargetCount(dirs))
      && st.emptyDirectories == (if includeEmpty then 0 else RomlessCount(dirs, dec))
      && st.directoriesWithRoms == WithRomsCount(dirs, dec)
  {
    if dirs != [] {
      var init := dirs[..|dirs| - 1];
      ScanCounts(init, includeEmpty, dec);
      StepStats(Scan(init, includeEmpty, dec), dirs[|dirs| - 1], includeEmpty, dec);
    }
  }

  // ---------------------------------------------------------------------
  // Where each folder lands, stated by independent definitions

  /** The folders left unidentified, in listing order. */
  function UnknownNames(dirs: seq<DirEntry>, includeEmpty: bool, dec: Deciders): seq<string> {
    if dirs == [] then []
    else
      var d := dirs[|dirs| - 1];
      UnknownNames(dirs[..|dirs| - 1], includeEmpty, dec)
      + (if Classify(d, includeEmpty, dec).Unidentified? then [d.name] else [])
  }

  /** The unknown list holds exactly the unidentified folders, in listing order. */
  lemma {:induction false} ScanUnknown(dirs: seq<DirEntry>, includeEmpty: bool, dec: Deciders)
    ensures Scan(dirs, includeEmpty, dec).unknown == UnknownNames(dirs, includeEmpty, dec)
  {
    if dirs != [] {
      ScanUnknown(dirs[..|dirs| - 1], includeEmpty, dec);
    }
  }

  /** The reason and ROM count of the last excluded folder called `name`. */
  function LastExcluded(dirs: seq<DirEntry>, name: string, includeEmpty: bool, dec: Deciders): Option<(string, nat)> {
    if dirs == [] then None
    else
      var d := dirs[|dirs| - 1];
      var o := Classify(d, includeEmpty, dec);
      if d.name == name && o.Excluded? then Some((o.reason, |RomFiles(d.files, dec.isRom)|))
      else LastExcluded(dirs[..|dirs| - 1], name, includeEmpty, dec)
  }

  /**
   * The excluded dictionary has a key for exactly the excluded folders, each
   * with its exclusion reason and ROM count (the last one wins for a
   * repeated name).
   */
  lemma {:induction false} ScanExcluded(dirs: seq<DirEntry>, includeEmpty: bool, dec: Deciders)
    ensures var ex := Scan(dirs, includeEmpty, dec).excluded;
      forall name :: (name in ex ==> LastExcluded(dirs, name, includeEmpty, dec) == Some(ex[name]))
        && (name !in ex ==> LastExcluded(dirs, name, includeEmpty, dec) == None)
  {
    if dirs != [] {
      ScanExcluded(dirs[..|dirs| - 1], includeEmpty, dec);
      forall name
        ensures var ex := Scan(dirs, includeEmpty, dec).excluded;
          (name in ex ==> LastExcluded(dirs, name, includeEmpty, dec) == Some(ex[name]))
          && (name !in ex ==> LastExcluded(dirs, name, includeEmpty, dec) == None)
      {
        ScanExcludedStep(dirs, name, includeEmpty, dec);
      }
    }
  }

  /** One step of `ScanExcluded`, for one name. */
  lemma ScanExcludedStep(dirs: seq<DirEntry>, name: string, includeEmpty: bool, dec: Deciders)
    requires dirs != []
    requires var init := dirs[..|dirs| - 1];
      var ex := Scan(init, includeEmpty, dec).excluded;
      (name in ex ==> LastExcluded(init, name, includeEmpty, dec) == Some(ex[name]))
      && (name !in ex ==> LastExcluded(init, name, includeEmpty, dec) == None)
    ensures var ex := Scan(dirs, includeEmpty, dec).excluded;
      (name in ex ==> LastExcluded(dirs, name, includeEmpty, dec) == Some(ex[name]))
      && (name !in ex ==> LastExcluded(dirs, name, includeEmpty, dec) == None)
  {
  }

  /** The folders identified as `code`, in listing order. */
  function FoldersFor(dirs: seq<DirEntry>, code: string, includeEmpty: bool, dec: Deciders): seq<string> {
    if dirs == [] then []
    else
      var d := dirs[|dirs| - 1];
      var o := Classify(d, includeEmpty, dec);
      FoldersFor(dirs[..|dirs| - 1], code, includeEmpty, dec) + (if o.Identified? && o.code == code then [d.name] else [])
  }

  /** The ROM files of the folders identified as `code`. */
  function RomsFor(dirs: seq<DirEntry>, code: string, includeEmpty: bool, dec: Deciders): (r: nat)
    ensures FoldersFor(dirs, code, includeEmpty, dec) == [] ==> r == 0
  {
    if dirs == [] then 0
    else
      var d := dirs[|dirs| - 1];
      var o := Classify(d, includeEmpty, dec);
      RomsFor(dirs[..|dirs| - 1], code, includeEmpty, dec) + (if o.Identified? && o.code == code then |RomFiles(d.files, dec.isRom)| else 0)
  }

  /** The display name given with the first folder identified as `code`. */
  function FirstDisplay(dirs: seq<DirEntry>, code: string, includeEmpty: bool, dec: Deciders): (r: Option<string>)
    ensures r.None? <==> FoldersFor(dirs, code, includeEmpty, dec) == []
  {
    if dirs == [] then None
    else
      var d := dirs[|dirs| - 1];
      var o := Classify(d, includeEmpty, dec);
      var earlier := FirstDisplay(dirs[..|dirs| - 1], code, includeEmpty, dec);
      if earlier.Some? then earlier
      else if o.Identified? && o.code == code then Some(o.display)
      else None
  }

  /** What the platforms dictionary should say about `code`. */
  function Summary(dirs: seq<DirEntry>, code: string, includeEmpty: bool, dec: Deciders): Option<PlatformInfo> {
    match FirstDisplay(dirs, code, includeEmpty, dec)
    case None => None
    case Some(display) =>
      var folders := FoldersFor(dirs, code, includeEmpty, dec);
      Some(PlatformInfo(code, display, |folders|, RomsFor(dirs, code, includeEmpty, dec), folders))
  }

  /** No shortcode has two entries. */
  predicate Distinct(ps: seq<PlatformInfo>) {
    forall i, j :: 0 <= i < j < |ps| ==> ps[i].shortcode != ps[j].shortcode
  }

  /** The entry for `code`, if any. */
  function Entry(ps: seq<PlatformInfo>, code: string): Option<PlatformInfo> {
    match IndexOf(ps, code)
    case None => None
    case Some(i) => Some(ps[i])
  }

  /** The lookup depends on the shortcodes alone. */
  lemma {:induction false} IndexOfShortcodes(ps: seq<PlatformInfo>, qs: seq<PlatformInfo>, code: string)
    requires |ps| == |qs| && forall k :: 0 <= k < |ps| ==> ps[k].shortcode == qs[k].shortcode
    ensures IndexOf(ps, code) == IndexOf(qs, code)
  {
    if ps != [] {
      IndexOfShortcodes(ps[..|ps| - 1], qs[..|qs| - 1], code);
    }
  }

  /** Adding a folder touches the entry for its code only and keeps shortcodes distinct. */
  lemma AddFolderEntry(ps: seq<PlatformInfo>, code: string, display: string, folder: string, roms: nat, c: string)
    requires Distinct(ps)
    ensures Distinct(AddFolder(ps, code, display, folder, roms))
    ensures Entry(AddFolder(ps, code, display, folder, roms), c) ==
      if c != code then Entry(ps, c)
      else match Entry(ps, code)
        case None => Some(PlatformInfo(code, display, 1, roms, [folder]))
        case Some(p) => Some(Grown(p, folder, roms))
  {
    var qs := AddFolder(ps, code, display, folder, roms);
    match IndexOf(ps, code)
    case None =>
      assert qs[..|ps|] == ps;
    case Some(i) =>
      IndexOfShortcodes(ps, qs, c);
  }

  /**
   * The platforms dictionary has one entry per identified shortcode, in
   * order of first identification: its folders are the folders identified
   * as that code, in listing order; its folder count is their number; its
   * file count is the sum of their ROM files; its display name is the one
   * given with the first of them.
   */
  lemma {:induction false} ScanPlatforms(dirs: seq<DirEntry>, includeEmpty: bool, dec: Deciders)
    ensures Distinct(Scan(dirs, includeEmpty, dec).platforms)
    ensures forall code :: Entry(Scan(dirs, includeEmpty, dec).platforms, code) == Summary(dirs, code, includeEmpty, dec)
  {
    if dirs != [] {
      ScanPlatforms(dirs[..|dirs| - 1], includeEmpty, dec);
      forall code
        ensures Distinct(Scan(dirs, includeEmpty, dec).platforms)
        ensures Entry(Scan(dirs, includeEmpty, dec).platforms, code) == Summary(dirs, code, includeEmpty, dec)
      {
        ScanPlatformsStep(dirs, code, includeEmpty, dec);
      }
      ScanPlatformsStep(dirs, "", includeEmpty, dec);
    }
  }

  /** What one more folder does to the entry for `code`. */
  function Recorded(e: Option<PlatformInfo>, code: string, d: DirEntry, includeEmpty: bool, dec: Deciders): Option<PlatformInfo> {
    match Classify(d, includeEmpty, dec)
    case Identified(c, display) =>
      if c != code then e
      else
        var roms := |RomFiles(d.files, dec.isRom)|;
        (match e
         case None => Some(PlatformInfo(code, display, 1, roms, [d.name]))
         case Some(p) => Some(Grown(p, d.name, roms)))
    case _ => e
  }

  /** The reference summary grows as `Recorded` says. */
  lemma SummaryStep(dirs: seq<DirEntry>, code: string, includeEmpty: bool, dec: Deciders)
    requires dirs != []
    ensures Summary(dirs, code, includeEmpty, dec) ==
      Recorded(Summary(dirs[..|dirs| - 1], code, includeEmpty, dec), code, dirs[|dirs| - 1], includeEmpty, dec)
  {
    var o := Classify(dirs[|dirs| - 1], includeEmpty, dec);
    if o.Identified? && o.code == code {
      SummaryStepHit(dirs, code, includeEmpty, dec);
    } else {
      SummaryStepMiss(dirs, code, includeEmpty, dec);
    }
  }

  lemma SummaryStepHit(dirs: seq<DirEntry>, code: string, includeEmpty: bool, dec: Deciders)
    requires dirs != []
    requires var o := Classify(dirs[|dirs| - 1], includeEmpty, dec); o.Identified? && o.code == code
    ensures Summary(dirs, code, includeEmpty, dec) ==
      Recorded(Summary(dirs[..|dirs| - 1], code, includeEmpty, dec), code, dirs[|dirs| - 1], includeEmpty, dec)
  {
    var init := dirs[..|dirs| - 1];
    var d := dirs[|dirs| - 1];
    var display := Classify(d, includeEmpty, dec).display;
    HitParts(dirs, code, includeEmpty, dec);
    RecordedHit(Summary(init, code, includeEmpty, dec), code, d, includeEmpty, dec, display);
    if FirstDisplay(init, code, includeEmpty, dec).None? {
      SummaryStepFirst(dirs, init, d, code, includeEmpty, dec, display);
    } else {
      SummaryStepGrown(dirs, init, d, code, includeEmpty, dec, Summary(init, code, includeEmpty, dec).value);
    }
  }

  /** The first folder identified as `code` creates its entry. */
  lemma SummaryStepFirst(dirs: seq<DirEntry>, init: seq<DirEntry>, d: DirEntry, code: string, includeEmpty: bool,
                         dec: Deciders, display: string)
    requires FirstDisplay(init, code, includeEmpty, dec).None?
    requires FoldersFor(dirs, code, includeEmpty, dec) == FoldersFor(init, code, includeEmpty, dec) + [d.name]
    requires RomsFor(dirs, code, includeEmpty, dec) == RomsFor(init, code, includeEmpty, dec) + |RomFiles(d.files, dec.isRom)|
    requires FirstDisplay(dirs, code, includeEmpty, dec) == Some(display)
    ensures Summary(dirs, code, includeEmpty, dec) ==
      Some(PlatformInfo(code, display, 1, |RomFiles(d.files, dec.isRom)|, [d.name]))
  {
    var folders := FoldersFor(init, code, includeEmpty, dec);
    assert folders + [d.name] == [d.name];
    SummaryOf(dirs, code, includeEmpty, dec, display, [d.name], |RomFiles(d.files, dec.isRom)|);
  }

  /** A later folder identified as `code` grows its entry `p`. */
  lemma SummaryStepGrown(dirs: seq<DirEntry>, init: seq<DirEntry>, d: DirEntry, code: string, includeEmpty: bool,
                         dec: Deciders, p: PlatformInfo)
    requires Summary(init, code, includeEmpty, dec) == Some(p)
    requires FoldersFor(dirs, code, includeEmpty, dec) == FoldersFor(init, code, includeEmpty, dec) + [d.name]
    requires RomsFor(dirs, code, includeEmpty, dec) == RomsFor(init, code, includeEmpty, dec) + |RomFiles(d.files, dec.isRom)|
    requires FirstDisplay(dirs, code, includeEmpty, dec) == FirstDisplay(init, code, includeEmpty, dec)
    ensures Summary(dirs, code, includeEmpty, dec) == Some(Grown(p, d.name, |RomFiles(d.files, dec.isRom)|))
  {
    var folders := FoldersFor(init, code, includeEmpty, dec);
    var roms := |RomFiles(d.files, dec.isRom)|;
    assert p.shortcode == code && p.sourceFolders == folders && p.folderCount == |folders|;
    assert |folders + [d.name]| == |folders| + 1;
    assert Grown(p, d.name, roms) == PlatformInfo(code, p.displayName, |folders + [d.name]|, p.fileCount + roms, folders + [d.name]);
    SummaryOf(dirs, code, includeEmpty, dec, p.displayName, folders + [d.name], p.fileCount + roms);
  }

  /** The summary read off its three folds. */
  lemma SummaryOf(dirs: seq<DirEntry>, code: string, includeEmpty: bool, dec: Deciders,
                  display: string, folders: seq<string>, roms: nat)
    requires FirstDisplay(dirs, code, includeEmpty, dec) == Some(display)
    requires FoldersFor(dirs, code, includeEmpty, dec) == folders && RomsFor(dirs, code, includeEmpty, dec) == roms
    ensures Summary(dirs, code, includeEmpty, dec) == Some(PlatformInfo(code, display, |folders|, roms, folders))
  {
  }

  /** A folder identified as `code` creates or grows its entry. */
  lemma RecordedHit(e: Option<PlatformInfo>, code: string, d: DirEntry, includeEmpty: bool, dec: Deciders, display: string)
    requires Classify(d, includeEmpty, dec) == Identified(code, display)
    ensures Recorded(e, code, d, includeEmpty, dec) ==
      match e
      case None => Some(PlatformInfo(code, display, 1, |RomFiles(d.files, dec.isRom)|, [d.name]))
      case Some(p) => Some(Grown(p, d.name, |RomFiles(d.files, dec.isRom)|))
  {
  }

  /** The three folds of the reference summary on a folder identified as `code`. */
  lemma HitParts(dirs: seq<DirEntry>, code: string, includeEmpty: bool, dec: Deciders)
    requires dirs != []
    requires var o := Classify(dirs[|dirs| - 1], includeEmpty, dec); o.Identified? && o.code == code
    ensures var init := dirs[..|dirs| - 1];
      var d := dirs[|dirs| - 1];
      && FoldersFor(dirs, code, includeEmpty, dec) == FoldersFor(init, code, includeEmpty, dec) + [d.name]
      && RomsFor(dirs, code, includeEmpty, dec) == RomsFor(init, code, includeEmpty, dec) + |RomFiles(d.files, dec.isRom)|
      && FirstDisplay(dirs, code, includeEmpty, dec) ==
           (if FirstDisplay(init, code, includeEmpty, dec).Some? then FirstDisplay(init, code, includeEmpty, dec)
            else Some(Classify(d, includeEmpty, dec).display))
  {
  }

  lemma SummaryStepMiss(dirs: seq<DirEntry>, code: string, includeEmpty: bool, dec: Deciders)
    requires dirs != []
    requires var o := Classify(dirs[|dirs| - 1], includeEmpty, dec); !(o.Identified? && o.code == code)
    ensures Summary(dirs, code, includeEmpty, dec) == Summary(dirs[..|dirs| - 1], code, includeEmpty, dec)
  {
    var init := dirs[..|dirs| - 1];
    var folders := FoldersFor(init, code, includeEmpty, dec);
    assert FoldersFor(dirs, code, includeEmpty, dec) == folders + [];
    assert folders + [] == folders;
    assert RomsFor(dirs, code, includeEmpty, dec) == RomsFor(init, code, includeEmpty, dec);
    assert FirstDisplay(dirs, code, includeEmpty, dec) == FirstDisplay(init, code, includeEmpty, dec);
  }

  /** The platforms after one more folder. */
  function PlatformsAfter(ps: seq<PlatformInfo>, d: DirEntry, includeEmpty: bool, dec: Deciders): seq<PlatformInfo> {
    match Classify(d, includeEmpty, dec)
    case Identified(c, display) => AddFolder(ps, c, display, d.name, |RomFiles(d.files, dec.isRom)|)
    case _ => ps
  }

  lemma ScanPlatformsAfter(dirs: seq<DirEntry>, includeEmpty: bool, dec: Deciders)
    requires dirs != []
    ensures Scan(dirs, includeEmpty, dec).platforms ==
      PlatformsAfter(Scan(dirs[..|dirs| - 1], includeEmpty, dec).platforms, dirs[|dirs| - 1], includeEmpty, dec)
  {
  }

  /** `PlatformsAfter` changes the entry for `code` as `Recorded` says. */
  lemma EntryAfter(ps: seq<PlatformInfo>, d: DirEntry, code: string, includeEmpty: bool, dec: Deciders)
    requires Distinct(ps)
    ensures Distinct(PlatformsAfter(ps, d, includeEmpty, dec))
    ensures Entry(PlatformsAfter(ps, d, includeEmpty, dec), code) == Recorded(Entry(ps, code), code, d, includeEmpty, dec)
  {
    match Classify(d, includeEmpty, dec)
    case Identified(c, display) =>
      AddFolderEntry(ps, c, display, d.name, |RomFiles(d.files, dec.isRom)|, code);
    case _ =>
  }

  /** One step of `ScanPlatforms`, for one code. */
  lemma ScanPlatformsStep(dirs: seq<DirEntry>, code: string, includeEmpty: bool, dec: Deciders)
    requires dirs != []
    requires var init := dirs[..|dirs| - 1];
      Distinct(Scan(init, includeEmpty, dec).platforms)
      && Entry(Scan(init, includeEmpty, dec).platforms, code) == Summary(init, code, includeEmpty, dec)
    ensures Distinct(Scan(dirs, includeEmpty, dec).platforms)
    ensures Entry(Scan(dirs, includeEmpty, dec).platforms, code) == Summary(dirs, code, includeEmpty, dec)
  {
    SummaryStep(dirs, code, includeEmpty, dec);
    ScanPlatformsAfter(dirs, includeEmpty, dec);
    EntryAfter(Scan(dirs[..|dirs| - 1], includeEmpty, dec).platforms, dirs[|dirs| - 1], code, includeEmpty, dec);
  }

  /** Each entry of the platforms dictionary agrees with the reference summary of its shortcode. */
  lemma {:induction false} ScanEntries(dirs: seq<DirEntry>, includeEmpty: bool, dec: Deciders)
    ensures var ps := Scan(dirs, includeEmpty, dec).platforms;
      forall i :: 0 <= i < |ps| ==>
        ps[i].sourceFolders == FoldersFor(dirs, ps[i].shortcode, includeEmpty, dec)
        && ps[i].sourceFolders != []
        && ps[i].folderCount == |ps[i].sourceFolders|
        && ps[i].fileCount == RomsFor(dirs, ps[i].shortcode, includeEmpty, dec)
  {
    ScanPlatforms(dirs, includeEmpty, dec);
    var ps := Scan(dirs, includeEmpty, dec).platforms;
    forall i | 0 <= i < |ps|
      ensures Entry(ps, ps[i].shortcode) == Some(ps[i])
    {
      var j := IndexOf(ps, ps[i].shortcode);
      assert j.Some? && j.value == i;
    }
  }

  // ---------------------------------------------------------------------
  // The analyzer object

  /**
   * The platforms dictionary update for one identified folder: a missing
   * entry is first created empty with the display name given now, then the
   * entry's counts and folders grow.
   */
  method RecordFolder(platforms: seq<PlatformInfo>, code: string, display: string, folder: string, roms: nat)
    returns (ps: seq<PlatformInfo>)
    ensures ps == AddFolder(platforms, code, display, folder, roms)
  {
    ps := platforms;
    var index := IndexOf(ps, code);
    if index.None? {
      ps := ps + [PlatformInfo(code, display, 0, 0, [])];
      assert [] + [folder] == [folder];
      index := Some(|ps| - 1);
    }
    ps := ps[index.value := Grown(ps[index.value], folder, roms)];
  }

  /**
   * The scan's decisions for identification configuration `cfg`, exclusion
   * table `exclusions` and ROM-file test `isRom`.
   */
  function DecidersFor(cfg: Config, exclusions: seq<Rule<string>>, isRom: string -> bool): (dec: Deciders)
    ensures forall name :: dec.exclusion(name) == FirstHit(exclusions, name, AtStart)
    ensures forall name :: dec.identify(name) == Identify(name, cfg)
  {
    Deciders(
      isRom,
      name => FirstHit(exclusions, name, AtStart),
      name => Identify(name, cfg),
      (s, name) => IdentifyStats(s, name, cfg))
  }

  /**
   * `PlatformAnalyzer`: the regional engine, the optional subcategory
   * processor whose counters identification advances, the identification
   * collaborators, the exclusion table and the ROM-file test.
   */
  class PlatformAnalyzer {
    const engine: RegionalEngine
    const subcategoryProcessor: SubcategoryProcessor?
    const config: Config
    const exclusions: seq<Rule<string>>
    const isRomFile: string -> bool

    /** The decisions this analyzer's scan makes. */
    function Decisions(): Deciders {
      DecidersFor(config, exclusions, isRomFile)
    }

    /** Names are preprocessed exactly when there is a processor, and it runs the subcategory chain. */
    predicate Valid() reads this, subcategoryProcessor {
      config.preprocess == (subcategoryProcessor != null)
      && (subcategoryProcessor != null ==> subcategoryProcessor.chain == Chain)
    }

    /** Without an engine the consolidated one is used; preprocessing is on when enabled. */
    constructor (regionalEngine: Option<RegionalEngine>, enableSubcategoryProcessing: bool)
      ensures Valid()
      ensures engine == (if regionalEngine.Some? then regionalEngine.value else RegionalEngine(Consolidated))
      ensures (subcategoryProcessor != null) == enableSubcategoryProcessing
      ensures subcategoryProcessor != null ==> fresh(subcategoryProcessor) && subcategoryProcessor.stats == Stats(0, 0, 0, 0, 0)
      ensures config == StandardConfig(engine, enableSubcategoryProcessing)
      ensures exclusions == Catalog.ExcludedPlatforms && isRomFile == Catalog.IsRomFile
    {
      var e := if regionalEngine.Some? then regionalEngine.value else RegionalEngine(Consolidated);
      var p: SubcategoryProcessor? := null;
      if enableSubcategoryProcessing {
        p := new SubcategoryProcessor();
      }
      engine := e;
      subcategoryProcessor := p;
      config := StandardConfig(e, enableSubcategoryProcessing);
      exclusions := Catalog.ExcludedPlatforms;
      isRomFile := Catalog.IsRomFile;
    }

    /** `_check_exclusions`: the reason of the first exclusion pattern matching the start of the name. */
    method CheckExclusions(folderName: string) returns (reason: Option<string>)
      ensures reason == Decisions().exclusion(folderName)
    {
      reason := FindFirst(exclusions, folderName, AtStart);
    }

    /** The ROM files below one directory, in walk order. */
    method CollectRomFiles(files: seq<string>) returns (roms: seq<string>)
      ensures roms == RomFiles(files, isRomFile)
    {
      roms := [];
      var i := 0;
      while i < |files|
        invariant 0 <= i <= |files|
        invariant roms == RomFiles(files[..i], isRomFile)
      {
        assert files[..i + 1][..i] == files[..i];
        if isRomFile(files[i]) {
          roms := roms + [files[i]];
        }
        i := i + 1;
      }
      assert files[..i] == files;
    }

    /** `_identify_platform`, advancing the subcategory processor's counters when it preprocesses. */
    method IdentifyPlatform(folderName: string) returns (r: Option<(string, string)>)
      requires Valid()
      modifies subcategoryProcessor
      ensures r == Identify(folderName, config)
      ensures subcategoryProcessor != null ==>
        subcategoryProcessor.stats == IdentifyStats(old(subcategoryProcessor.stats), folderName, config)
    {
      var specialized := config.specialize(folderName);
      if specialized.result.Some? {
        var final := config.targetPlatform(folderName, specialized.result.value.shortcode);
        r := Some((final, config.displayName(final)));
      } else {
        var name := folderName;
        if subcategoryProcessor != null {
          var processed, _ := subcategoryProcessor.Process(folderName);
          name := processed;
        }
        var hit := FindFirst(config.mappings, name, AtStart);
        match hit
        case Some(p) =>
          var final := config.targetPlatform(name, p.shortcode);
          r := Some((final, config.displayName(final)));
        case None =>
          r := None;
      }
    }

    /**
     * The decisions `analyze_directory` takes for one top-level directory, in
     * its order: the target check, the ROM files, the exclusion check, then
     * identification, which advances the subcategory processor's counters.
     */
    method ClassifyDirectory(d: DirEntry, includeEmpty: bool) returns (outcome: Outcome, roms: seq<string>)
      requires Valid()
      modifies subcategoryProcessor
      ensures outcome == Classify(d, includeEmpty, Decisions())
      ensures !d.isTarget ==> roms == RomFiles(d.files, isRomFile)
      ensures subcategoryProcessor != null ==>
        subcategoryProcessor.stats == StatsAfter(old(subcategoryProcessor.stats), d, includeEmpty, Decisions())
    {
      roms := [];
      if d.isTarget {
        return SkippedTarget, roms;
      }
      roms := CollectRomFiles(d.files);
      if roms == [] && !includeEmpty {
        return SkippedEmpty, roms;
      }
      var reason := CheckExclusions(d.name);
      if reason.Some? {
        return Excluded(reason.value), roms;
      }
      var result := IdentifyPlatform(d.name);
      match result
      case Some((code, display)) => outcome := Identified(code, display);
      case None => outcome := Unidentified;
    }

    /** One iteration of `analyze_directory`'s loop over the top-level directories. */
    method VisitDirectory(d: DirEntry, includeEmpty: bool, a: Analysis) returns (b: Analysis)
      requires Valid()
      modifies subcategoryProcessor
      ensures b == Step(a, d, includeEmpty, Decisions())
      ensures subcategoryProcessor != null ==>
        subcategoryProcessor.stats == StatsAfter(old(subcategoryProcessor.stats), d, includeEmpty, Decisions())
    {
      var outcome, roms := ClassifyDirectory(d, includeEmpty);
      var st := a.stats.(totalProcessed := a.stats.totalProcessed + 1);
      if !outcome.SkippedTarget? && !outcome.SkippedEmpty? && roms != [] {
        st := st.(directoriesWithRoms := st.directoriesWithRoms + 1);
      }
      match outcome
      case SkippedTarget =>
        b := a.(stats := st.(targetDirectoriesSkipped := Bumped(st.targetDirectoriesSkipped)));
      case SkippedEmpty =>
        b := a.(stats := st.(emptyDirectories := st.emptyDirectories + 1));
      case Excluded(reason) =>
        b := a.(excluded := a.excluded[d.name := (reason, |roms|)], stats := st);
      case Identified(code, display) =>
        var platforms := RecordFolder(a.platforms, code, display, d.name, |roms|);
        b := a.(platforms := platforms, stats := st);
      case Unidentified =>
        b := a.(unknown := a.unknown + [d.name], stats := st);
    }

    /**
     * `analyze_directory` over a listing of the source directory: the
     * results are the scan's, and the subcategory processor has counted
     * every folder that reached identification without a specialized match.
     */
    method AnalyzeDirectory(listing: Listing, includeEmpty: bool) returns (r: Analysis)
      requires Valid()
      modifies subcategoryProcessor
      ensures r == Analyze(listing, includeEmpty, Decisions())
      ensures subcategoryProcessor != null ==>
        (subcategoryProcessor.stats ==
          if listing.Listed? then ScanStats(listing.dirs, includeEmpty, Decisions(), old(subcategoryProcessor.stats))
          else old(subcategoryProcessor.stats))
    {
      if listing.ListingFailed? {
        return Analysis([], map[], [], DirectoryStats(0, 0, 0, None));
      }
      var dirs := listing.dirs;
      ghost var dec := Decisions();
      ghost var s0 := if subcategoryProcessor != null then subcategoryProcessor.stats else Stats(0, 0, 0, 0, 0);
      r := Initial();
      var i := 0;
      while i < |dirs|
        invariant 0 <= i <= |dirs|
        invariant r == Scan(dirs[..i], includeEmpty, dec)
        invariant subcategoryProcessor != null ==> subcategoryProcessor.stats == ScanStats(dirs[..i], includeEmpty, dec, s0)
      {
        ScanExtend(dirs, i, includeEmpty, dec, s0);
        r := VisitDirectory(dirs[i], includeEmpty, r);
        i := i + 1;
      }
      assert dirs[..i] == dirs;
    }
  }
}
