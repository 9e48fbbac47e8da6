/**
 * `process_folder_files`, the body that `process_files_concurrent` runs for
 * each source folder: the folder's files in order, each given a platform, a
 * target that no earlier file of the folder claimed, and then skipped,
 * copied or (in a dry run) only counted. The folder's counters are added
 * to the run's totals when the folder is done.
 */
module FolderCopy {
  import opened Text
  import opened FormatHandling
  import opened Copying
  import opened UniquePaths
  import Regional
  import Analyzer
  import CopyEngine

  // ---------------------------------------------------------------------
  // Which platform a file belongs to

  /** `Path.relative_to` succeeds: `dir`'s components begin `file`'s. */
  predicate Under(file: Path, dir: Path) {
    |dir| <= |file| && file[..|dir|] == dir
  }

  /** `Path(source_dir) / folder`: an empty folder name adds nothing. */
  function Join(dir: Path, folder: string): Path {
    if folder == "" then dir else dir + [folder]
  }

  /** `Path.parent`. */
  function Parent(p: Path): Path {
    if p == [] then [] else p[..|p| - 1]
  }

  /** The inner loop: the first of `folders[j..]` that `file` lies under. */
  function FolderOf(sourceDir: Path, folders: seq<string>, file: Path, j: nat): (r: Option<nat>)
    requires j <= |folders|
    ensures r.Some? ==> j <= r.value < |folders| && Under(file, Join(sourceDir, folders[r.value]))
    ensures r.Some? ==> forall k :: j <= k < r.value ==> !Under(file, Join(sourceDir, folders[k]))
    ensures r.None? ==> forall k :: j <= k < |folders| ==> !Under(file, Join(sourceDir, folders[k]))
    decreases |folders| - j
  {
    if j == |folders| then None
    else if Under(file, Join(sourceDir, folders[j])) then Some(j)
    else FolderOf(sourceDir, folders, file, j + 1)
  }

  /**
   * The outer loop: the first of `platforms[k..]` with a folder holding
   * `file`, and that folder. A platform whose code is empty does not end
   * the search (the empty code is false), so a later platform can still win.
   */
  function PlatformOf(sourceDir: Path, platforms: seq<Analyzer.PlatformInfo>, file: Path, k: nat): (r: Option<(nat, nat)>)
    requires k <= |platforms|
    ensures r.Some? ==> (k <= r.value.0 < |platforms| && platforms[r.value.0].shortcode != ""
      && FolderOf(sourceDir, platforms[r.value.0].sourceFolders, file, 0) == Some(r.value.1))
    ensures r.Some? ==> forall m :: k <= m < r.value.0 ==>
      platforms[m].shortcode == "" || FolderOf(sourceDir, platforms[m].sourceFolders, file, 0).None?
    ensures r.None? ==> forall m :: k <= m < |platforms| ==>
      platforms[m].shortcode == "" || FolderOf(sourceDir, platforms[m].sourceFolders, file, 0).None?
    decreases |platforms| - k
  {
    if k == |platforms| then None
    else
      match FolderOf(sourceDir, platforms[k].sourceFolders, file, 0)
      case Some(j) =>
        if platforms[k].shortcode != "" then Some((k, j)) else PlatformOf(sourceDir, platforms, file, k + 1)
      case None => PlatformOf(sourceDir, platforms, file, k + 1)
  }

  /**
   * The platform code and source folder name of a file: those of the first
   * platform holding it, or else the parent folder's name, lower-cased for
   * the code.
   */
  function Locate(sourceDir: Path, platforms: seq<Analyzer.PlatformInfo>, file: Path): (r: (string, string))
    ensures var hit := PlatformOf(sourceDir, platforms, file, 0);
      hit.Some? ==> r == (platforms[hit.value.0].shortcode, platforms[hit.value.0].sourceFolders[hit.value.1])
    ensures PlatformOf(sourceDir, platforms, file, 0).None? ==>
      r == (LowerStr(FileName(Parent(file))), FileName(Parent(file)))
  {
    match PlatformOf(sourceDir, platforms, file, 0)
    case Some((p, j)) => (platforms[p].shortcode, platforms[p].sourceFolders[j])
    case None =>
      var parent := FileName(Parent(file));
      (LowerStr(parent), parent)
  }

  /** The regional preferences, when an engine is given, may move a file to a variant platform. */
  function Retarget(regional: Option<Regional.RegionalEngine>, code: string, folder: string): string {
    match regional
    case None => code
    case Some(engine) => engine.GetTargetPlatform(folder, code)
  }

  // ---------------------------------------------------------------------
  // One file, one folder

  /** The counters a folder keeps until it is done; also the run's totals of the same names. */
  datatype FolderTally = FolderTally(copied: nat, replaced: nat, skipped: nat, errors: nat, renamed: nat)

  const NoCounts := FolderTally(0, 0, 0, 0, 0)

  function Plus(a: FolderTally, b: FolderTally): FolderTally {
    FolderTally(a.copied + b.copied, a.replaced + b.replaced, a.skipped + b.skipped, a.errors + b.errors, a.renamed + b.renamed)
  }

  /**
   * What a folder's files are processed with: the processor's source folder
   * and dry-run flag, the arguments of `process_files_concurrent`, and
   * which dry-run counting applies (the program's is `AsWritten`).
   */
  datatype Setting = Setting(sourceDir: Path, dryRun: bool, targetDir: Path,
                             platforms: seq<Analyzer.PlatformInfo>,
                             regional: Option<Regional.RegionalEngine>, h: Digests,
                             counting: CopyEngine.Counting)

  /**
   * The state carried from file to file: the disk, the folder's claimed
   * targets and counters, `stats.folders_created`, the run's
   * `files_processed`, and whether a shutdown ended the folder.
   */
  datatype FolderPass = FolderPass(disk: Disk, batch: set<Path>, tally: FolderTally,
                                   created: set<Path>, processed: nat, stopped: bool)

  /** The attempts `copy_file_atomic` makes. */
  const AtomicRetries: nat := 3

  /** The error `copy_file_atomic` reports for a failed run of attempts. */
  function AtomicError(r: RetryRun): Option<string> {
    if r.ok then None else Some("Failed after 3 attempts: " + r.info)
  }

  /**
   * The dry-run counting as written: a renamed file is counted as renamed a
   * second time.
   */
  function DryRunCountAsWritten(t: FolderTally, reason: RenameReason): FolderTally {
    if IsRename(reason) then t.(renamed := t.renamed + 1) else t.(copied := t.copied + 1)
  }

  /** The dry-run counting, a renamed file counted once (as the live run does). */
  function DryRunCount(t: FolderTally, reason: RenameReason): FolderTally {
    if IsRename(reason) then t else t.(copied := t.copied + 1)
  }

  /** The dry-run counting that `counting` selects. */
  function DryRunCounted(counting: CopyEngine.Counting, t: FolderTally, reason: RenameReason): FolderTally {
    match counting
    case AsWritten => DryRunCountAsWritten(t, reason)
    case Corrected => DryRunCount(t, reason)
  }

  /**
   * The counting after `copy_file_atomic` returned `ok` and `error`: an error
   * naming "identical" counts as skipped, one naming "replaced" as replaced
   * and a success; a success of a renamed file is not counted again, one of
   * a new file is counted as copied and any other as replaced; a failure is
   * an error. The second value is whether the copy is taken as a success.
   */
  function AfterCopy(t: FolderTally, ok: bool, error: Option<string>, rename: RenameReason, why: CopyReason)
    : (FolderTally, bool)
  {
    var identical := error.Some? && Contains(error.value, "identical");
    var replacedText := !identical && error.Some? && Contains(error.value, "replaced");
    var t1 := if identical then t.(skipped := t.skipped + 1)
              else if replacedText then t.(replaced := t.replaced + 1)
              else t;
    var success := if identical then false else if replacedText then true else ok;
    var t2 := if !success then t1.(errors := t1.errors + 1)
              else if IsRename(rename) then t1
              else if why == NewFile then t1.(copied := t1.copied + 1)
              else t1.(replaced := t1.replaced + 1);
    (t2, success)
  }

  /** A live copy of a file to its chosen target, counted; a success records the target's folder. */
  function Copied(s: FolderPass, source: Path, target: Path, rename: RenameReason, why: CopyReason,
                  h: Digests, io: CopyIo): FolderPass
  {
    var r := Attempts(s.disk, h, io, source, target, 0, AtomicRetries);
    var c := AfterCopy(s.tally, r.ok, AtomicError(r), rename, why);
    s.(disk := r.disk, tally := c.0, created := if c.1 then s.created + {Parent(target)} else s.created)
  }

  /**
   * A file whose target `u` is chosen: skipped when identical, counted when
   * renamed, then counted (dry run) or compared and copied; a shutdown
   * requested when a copy is due ends the folder.
   */
  function Decided(cfg: Setting, s: FolderPass, file: Path, u: (Path, RenameReason), io: CopyIo, stop: bool): FolderPass {
    if u.1.SkipIdentical? then s.(tally := s.tally.(skipped := s.tally.skipped + 1))
    else
      var t := if IsRename(u.1) then s.tally.(renamed := s.tally.renamed + 1) else s.tally;
      if cfg.dryRun then s.(tally := DryRunCounted(cfg.counting, t, u.1))
      else
        var c := ShouldCopyFile(s.disk, cfg.h, file, u.0);
        if !c.0 then s.(tally := t.(skipped := t.skipped + 1))
        else if stop then s.(tally := t, stopped := true)
        else Copied(s.(tally := t), file, u.0, u.1, c.1, cfg.h, io)
  }

  /** The target `get_unique_target_path` chooses for a file, against the folder's claims. */
  function TargetOf(cfg: Setting, s: FolderPass, file: Path): (Path, RenameReason) {
    var (code, folder) := Locate(cfg.sourceDir, cfg.platforms, file);
    UniqueTargetPath(file, cfg.targetDir, Retarget(cfg.regional, code, folder), folder, s.batch, s.disk, cfg.h)
  }

  /** One file of a folder; it counts as processed however it ends. */
  function FileStep(cfg: Setting, s: FolderPass, file: Path, io: CopyIo, stop: bool): FolderPass {
    var u := TargetOf(cfg, s, file);
    var s' := Decided(cfg, s.(batch := s.batch + {u.0}), file, u, io, stop);
    s'.(processed := s.processed + 1)
  }

  /** The files `files[i..]` of a folder, the `k`-th copied as `ioOf(k)` says, until a shutdown. */
  function FolderRun(cfg: Setting, files: seq<Path>, ioOf: nat -> CopyIo, shutdown: nat -> bool,
                     i: nat, s: FolderPass): FolderPass
    requires i <= |files|
    decreases |files| - i
  {
    if i == |files| || s.stopped then s
    else FolderRun(cfg, files, ioOf, shutdown, i + 1, FileStep(cfg, s, files[i], ioOf(i), shutdown(i)))
  }

  // ---------------------------------------------------------------------
  // What a folder's pass promises

  /** Each file claims its target; a new or renamed target was claimed by no earlier file and is not on disk. */
  lemma StepClaimsFreshTarget(cfg: Setting, s: FolderPass, file: Path, io: CopyIo, stop: bool)
    ensures var u := TargetOf(cfg, s, file);
      FileStep(cfg, s, file, io, stop).batch == s.batch + {u.0}
    ensures var u := TargetOf(cfg, s, file);
      !(u.1.SkipIdentical? || u.1.TooManyDuplicates?) ==> u.0 !in s.batch && u.0 !in s.disk.files
  {
    var (code, folder) := Locate(cfg.sourceDir, cfg.platforms, file);
    FreeUnlessSkippedOrExhausted(file, cfg.targetDir, Retarget(cfg.regional, code, folder), HintOf(folder), s.batch, s.disk, cfg.h);
  }

  /** A copy never changes the count of renames. */
  lemma CopiedKeepsRenamed(s: FolderPass, source: Path, target: Path, rename: RenameReason, why: CopyReason,
                           h: Digests, io: CopyIo)
    ensures Copied(s, source, target, rename, why, h, io).tally.renamed == s.tally.renamed
  {
  }

  /**
   * What a renamed file adds to the renames: two in a dry run as written,
   * one otherwise.
   */
  function RenameWeight(cfg: Setting): nat {
    if cfg.dryRun && cfg.counting == CopyEngine.AsWritten then 2 else 1
  }

  /**
   * Once its target is chosen, a renamed file adds `RenameWeight(cfg)` to
   * the renames and any other file none.
   */
  lemma DecidedCountsRename(cfg: Setting, s: FolderPass, file: Path, u: (Path, RenameReason), io: CopyIo, stop: bool)
    ensures Decided(cfg, s, file, u, io, stop).tally.renamed
      == s.tally.renamed + if IsRename(u.1) then RenameWeight(cfg) else 0
  {
    if !u.1.SkipIdentical? && !cfg.dryRun {
      var t := if IsRename(u.1) then s.tally.(renamed := s.tally.renamed + 1) else s.tally;
      var c := ShouldCopyFile(s.disk, cfg.h, file, u.0);
      CopiedKeepsRenamed(s.(tally := t), file, u.0, u.1, c.1, cfg.h, io);
    }
  }

  /**
   * Renames are counted once per renamed file in a live run and in a
   * corrected dry run, twice in a dry run as written.
   */
  lemma RenamedCountsRenames(cfg: Setting, s: FolderPass, file: Path, io: CopyIo, stop: bool)
    ensures FileStep(cfg, s, file, io, stop).tally.renamed
      == s.tally.renamed + if IsRename(TargetOf(cfg, s, file).1) then RenameWeight(cfg) else 0
  {
    var u := TargetOf(cfg, s, file);
    DecidedCountsRename(cfg, s.(batch := s.batch + {u.0}), file, u, io, stop);
  }

  /** As written, the dry run counts a renamed file as renamed twice. */
  lemma DryRunRenameCountedTwice(t: FolderTally, hint: string)
    ensures var reason := RenamedWithHint(hint);
      DryRunCountAsWritten(t.(renamed := t.renamed + 1), reason).renamed == t.renamed + 2
    ensures var reason := RenamedWithHint(hint);
      DryRunCount(t.(renamed := t.renamed + 1), reason).renamed == t.renamed + 1
  {
  }

  /** The two dry-run countings differ exactly on renamed files. */
  lemma DryRunCountingsDiffer(t: FolderTally, reason: RenameReason)
    ensures DryRunCount(t, reason) != DryRunCountAsWritten(t, reason) <==> IsRename(reason)
  {
  }

  function Counted(t: FolderTally): nat {
    t.copied + t.replaced + t.skipped + t.errors + t.renamed
  }

  /**
   * In a dry run a file whose target is chosen changes nothing on disk and
   * is counted once, or twice when renamed and counted as written.
   */
  lemma DryRunDecided(cfg: Setting, s: FolderPass, file: Path, u: (Path, RenameReason), io: CopyIo, stop: bool)
    requires cfg.dryRun
    ensures var s' := Decided(cfg, s, file, u, io, stop);
      s'.disk == s.disk && s'.stopped == s.stopped && s'.created == s.created
      && Counted(s'.tally) == Counted(s.tally) + (if IsRename(u.1) then RenameWeight(cfg) else 1)
      && s'.tally.errors == s.tally.errors
  {
  }

  /**
   * In a dry run a file changes nothing on disk and is counted once, or
   * twice when renamed and counted as written.
   */
  lemma DryRunStep(cfg: Setting, s: FolderPass, file: Path, io: CopyIo, stop: bool)
    requires cfg.dryRun
    ensures var s' := FileStep(cfg, s, file, io, stop);
      s'.disk == s.disk && s'.stopped == s.stopped && s'.created == s.created && s'.processed == s.processed + 1
      && Counted(s.tally) + 1 <= Counted(s'.tally) <= Counted(s.tally) + RenameWeight(cfg)
      && (cfg.counting == CopyEngine.Corrected ==> Counted(s'.tally) == Counted(s.tally) + 1)
      && s'.tally.errors == s.tally.errors
  {
    var u := TargetOf(cfg, s, file);
    DryRunDecided(cfg, s.(batch := s.batch + {u.0}), file, u, io, stop);
  }

  /**
   * A dry run writes nothing, never stops, processes every file, and counts
   * no file as an error. Corrected, it counts each file exactly once; as
   * written, a renamed file twice, so the counters may add up to twice the
   * number of files.
   */
  lemma {:induction false} DryRunCountsEachFileOnce(cfg: Setting, files: seq<Path>, ioOf: nat -> CopyIo,
                                                    shutdown: nat -> bool, i: nat, s: FolderPass)
    requires cfg.dryRun && i <= |files| && !s.stopped
    ensures var r := FolderRun(cfg, files, ioOf, shutdown, i, s);
      r.disk == s.disk && !r.stopped && r.created == s.created
      && r.processed == s.processed + (|files| - i) && r.tally.errors == s.tally.errors
      && Counted(s.tally) + (|files| - i) <= Counted(r.tally) <= Counted(s.tally) + RenameWeight(cfg) * (|files| - i)
    ensures cfg.counting == CopyEngine.Corrected ==>
      Counted(FolderRun(cfg, files, ioOf, shutdown, i, s).tally) == Counted(s.tally) + (|files| - i)
    decreases |files| - i
  {
    if i < |files| {
      var s' := FileStep(cfg, s, files[i], ioOf(i), shutdown(i));
      DryRunStep(cfg, s, files[i], ioOf(i), shutdown(i));
      DryRunCountsEachFileOnce(cfg, files, ioOf, shutdown, i + 1, s');
      var w, n := RenameWeight(cfg), |files| - i;
      assert w * n == w * (n - 1) + w;
    }
  }

  /**
   * A copy leaves every file but its target as it was, and one counted as
   * copied is a verified copy of the source, unless the copy failed with an
   * error text naming "replaced", which the pass takes for a success
   * although the target was removed.
   */
  lemma CopiedVerifiesOrNamesReplaced(s: FolderPass, source: Path, target: Path, rename: RenameReason, why: CopyReason,
                                      h: Digests, io: CopyIo)
    ensures Copied(s, source, target, rename, why, h, io).disk.files - {target} == s.disk.files - {target}
    ensures var s' := Copied(s, source, target, rename, why, h, io);
      s'.tally.copied > s.tally.copied ==>
        (Readable(s.disk, source) && target in s'.disk.files && h.crc32(s'.disk.files[target]) == h.crc32(s.disk.files[source]))
        || (target !in s'.disk.files && Contains(AtomicError(Attempts(s.disk, h, io, source, target, 0, AtomicRetries)).value, "replaced"))
  {
    RetriesLeaveVerifiedCopyOrNothing(s.disk, h, io, source, target, 0, AtomicRetries);
  }

  /** The same for a file whose target is chosen, in a live run. */
  lemma LiveDecided(cfg: Setting, s: FolderPass, file: Path, u: (Path, RenameReason), io: CopyIo, stop: bool)
    requires !cfg.dryRun
    ensures Decided(cfg, s, file, u, io, stop).disk.files - {u.0} == s.disk.files - {u.0}
    ensures var s' := Decided(cfg, s, file, u, io, stop);
      s'.tally.copied > s.tally.copied ==>
        (Readable(s.disk, file) && u.0 in s'.disk.files && cfg.h.crc32(s'.disk.files[u.0]) == cfg.h.crc32(s.disk.files[file]))
        || (u.0 !in s'.disk.files && Contains(AtomicError(Attempts(s.disk, cfg.h, io, file, u.0, 0, AtomicRetries)).value, "replaced"))
  {
    if !u.1.SkipIdentical? {
      var t := if IsRename(u.1) then s.tally.(renamed := s.tally.renamed + 1) else s.tally;
      var c := ShouldCopyFile(s.disk, cfg.h, file, u.0);
      CopiedVerifiesOrNamesReplaced(s.(tally := t), file, u.0, u.1, c.1, cfg.h, io);
    }
  }

  /** A live step leaves every file but the chosen target as it was. */
  lemma LiveStepTouchesOnlyTarget(cfg: Setting, s: FolderPass, file: Path, io: CopyIo, stop: bool)
    requires !cfg.dryRun
    ensures var u := TargetOf(cfg, s, file);
      FileStep(cfg, s, file, io, stop).disk.files - {u.0} == s.disk.files - {u.0}
  {
    var u := TargetOf(cfg, s, file);
    LiveDecided(cfg, s.(batch := s.batch + {u.0}), file, u, io, stop);
  }

  // ---------------------------------------------------------------------
  // The processor

  /** The inner loop over a platform's source folders. */
  method FirstFolder(sourceDir: Path, folders: seq<string>, file: Path) returns (j: Option<nat>)
    ensures j == FolderOf(sourceDir, folders, file, 0)
  {
    var n := 0;
    while n < |folders|
      invariant n <= |folders|
      invariant FolderOf(sourceDir, folders, file, n) == FolderOf(sourceDir, folders, file, 0)
    {
      if Under(file, Join(sourceDir, folders[n])) {
        return Some(n);
      }
      n := n + 1;
    }
    return None;
  }

  /** The search for a file's platform and source folder, with its fallback to the parent folder. */
  method FindPlatform(sourceDir: Path, platforms: seq<Analyzer.PlatformInfo>, file: Path)
    returns (code: string, folder: string)
    ensures code == Locate(sourceDir, platforms, file).0
    ensures folder == Locate(sourceDir, platforms, file).1
  {
    var k := 0;
    while k < |platforms|
      invariant k <= |platforms|
      invariant PlatformOf(sourceDir, platforms, file, k) == PlatformOf(sourceDir, platforms, file, 0)
    {
      var j := FirstFolder(sourceDir, platforms[k].sourceFolders, file);
      if j.Some? && platforms[k].shortcode != "" {
        return platforms[k].shortcode, platforms[k].sourceFolders[j.value];
      }
      k := k + 1;
    }
    var parent := FileName(Parent(file));
    return LowerStr(parent), parent;
  }

  /** The fields of `stats` that a folder's pass leaves alone: all but `folders_created`. */
  function StatsBesidesFolders(stats: CopyEngine.ProcessingStats): (nat, nat, nat, nat, nat, nat, nat, nat, seq<string>)
    reads stats
  {
    (stats.platformsFound, stats.filesFound, stats.filesCopied, stats.filesReplaced, stats.filesRenamedDuplicates,
     stats.filesSkippedDuplicate, stats.filesSkippedUnknown, stats.errors, stats.selectedPlatforms)
  }

  /** The counters `process_files_concurrent` shares among its folders. */
  class RunTotals {
    var filesProcessed: nat
    var filesCopied: nat
    var filesReplaced: nat
    var filesSkipped: nat
    var filesRenamed: nat
    var errors: nat

    constructor()
      ensures filesProcessed == 0 && Counts() == NoCounts
    {
      filesProcessed, filesCopied, filesReplaced, filesSkipped, filesRenamed, errors := 0, 0, 0, 0, 0, 0;
    }

    /** The totals a folder adds to when it is done. */
    function Counts(): FolderTally
      reads this
    {
      FolderTally(filesCopied, filesReplaced, filesSkipped, errors, filesRenamed)
    }

    /** A folder that is done adds its counters to the totals; `files_processed` was counted file by file. */
    method Add(t: FolderTally)
      modifies this
      ensures Counts() == Plus(old(Counts()), t)
      ensures filesProcessed == old(filesProcessed)
    {
      filesCopied := filesCopied + t.copied;
      filesReplaced := filesReplaced + t.replaced;
      filesSkipped := filesSkipped + t.skipped;
      filesRenamed := filesRenamed + t.renamed;
      errors := errors + t.errors;
    }
  }

  /** `PerformanceOptimizedROMProcessor`: the source folder and dry-run flag the copy pass reads. */
  class RomProcessor {
    const sourceDir: Path
    const dryRun: bool

    constructor(sourceDir: Path, dryRun: bool)
      ensures this.sourceDir == sourceDir && this.dryRun == dryRun
    {
      this.sourceDir := sourceDir;
      this.dryRun := dryRun;
    }

    /** A live copy with `copy_file_atomic`, counted; a success records the target's folder in `stats`. */
    method CopyAndCount(stats: CopyEngine.ProcessingStats, s: FolderPass, source: Path, target: Path,
                        rename: RenameReason, why: CopyReason, h: Digests, io: CopyIo)
      returns (s': FolderPass)
      requires s.created == stats.foldersCreated
      modifies stats
      ensures s' == Copied(s, source, target, rename, why, h, io)
      ensures stats.foldersCreated == s'.created
      ensures StatsBesidesFolders(stats) == old(StatsBesidesFolders(stats))
    {
      ghost var r := Attempts(s.disk, h, io, source, target, 0, AtomicRetries);
      var d', ok, error := CopyFileAtomic(s.disk, h, io, source, target);
      assert d' == r.disk && ok == r.ok && error == AtomicError(r);
      var c := AfterCopy(s.tally, ok, error, rename, why);
      if c.1 {
        stats.foldersCreated := stats.foldersCreated + {Parent(target)};
      }
      s' := s.(disk := d', tally := c.0, created := stats.foldersCreated);
    }

    /** A file whose target is chosen: skipped, counted, or compared and copied; `stop` is the shutdown check. */
    method HandleTarget(stats: CopyEngine.ProcessingStats, cfg: Setting, s: FolderPass, file: Path,
                        u: (Path, RenameReason), io: CopyIo, stop: bool)
      returns (s': FolderPass)
      requires s.created == stats.foldersCreated
      requires cfg.counting == CopyEngine.AsWritten
      modifies stats
      ensures s' == Decided(cfg, s, file, u, io, stop)
      ensures stats.foldersCreated == s'.created
      ensures StatsBesidesFolders(stats) == old(StatsBesidesFolders(stats))
    {
      if u.1.SkipIdentical? {
        return s.(tally := s.tally.(skipped := s.tally.skipped + 1));
      }
      var t := s.tally;
      if IsRename(u.1) {
        t := t.(renamed := t.renamed + 1);
      }
      if cfg.dryRun {
        if IsRename(u.1) {
          t := t.(renamed := t.renamed + 1);
        } else {
          t := t.(copied := t.copied + 1);
        }
        return s.(tally := t);
      }
      var c := ShouldCopyFile(s.disk, cfg.h, file, u.0);
      if !c.0 {
        return s.(tally := t.(skipped := t.skipped + 1));
      }
      if stop {
        return s.(tally := t, stopped := true);
      }
      s' := CopyAndCount(stats, s.(tally := t), file, u.0, u.1, c.1, cfg.h, io);
    }

    /** One file of a folder: its platform, its unique target, claimed at once, then its handling. */
    method ProcessFile(stats: CopyEngine.ProcessingStats, cfg: Setting, s: FolderPass, file: Path, io: CopyIo, stop: bool)
      returns (s': FolderPass)
      requires s.created == stats.foldersCreated
      requires cfg.counting == CopyEngine.AsWritten
      modifies stats
      ensures s' == FileStep(cfg, s, file, io, stop)
      ensures s'.processed == s.processed + 1
      ensures stats.foldersCreated == s'.created
      ensures StatsBesidesFolders(stats) == old(StatsBesidesFolders(stats))
    {
      var code, folder := FindPlatform(cfg.sourceDir, cfg.platforms, file);
      var platform := Retarget(cfg.regional, code, folder);
      var path, reason := GetUniqueTargetPath(file, cfg.targetDir, platform, folder, s.batch, s.disk, cfg.h);
      assert (path, reason) == TargetOf(cfg, s, file);
      s' := HandleTarget(stats, cfg, s.(batch := s.batch + {path}), file, (path, reason), io, stop);
      s' := s'.(processed := s.processed + 1);
    }

    /** The `i`-th file of the loop, and the one added to `files_processed`. */
    method Advance(totals: RunTotals, stats: CopyEngine.ProcessingStats, cfg: Setting, files: seq<Path>,
                   ioOf: nat -> CopyIo, shutdown: nat -> bool, i: nat, s: FolderPass)
      returns (s': FolderPass)
      requires i < |files| && !s.stopped
      requires cfg.counting == CopyEngine.AsWritten
      requires s.created == stats.foldersCreated && s.processed == totals.filesProcessed
      modifies totals, stats
      ensures FolderRun(cfg, files, ioOf, shutdown, i, s) == FolderRun(cfg, files, ioOf, shutdown, i + 1, s')
      ensures s'.created == stats.foldersCreated && s'.processed == totals.filesProcessed
      ensures totals.Counts() == old(totals.Counts())
      ensures StatsBesidesFolders(stats) == old(StatsBesidesFolders(stats))
    {
      s' := ProcessFile(stats, cfg, s, files[i], ioOf(i), shutdown(i));
      totals.filesProcessed := totals.filesProcessed + 1;
    }

    /**
     * The loop of `process_folder_files` over the folder's files, each adding
     * one to `files_processed`; it ends early when a shutdown is requested.
     */
    method RunFiles(totals: RunTotals, stats: CopyEngine.ProcessingStats, cfg: Setting, files: seq<Path>,
                    d: Disk, ioOf: nat -> CopyIo, shutdown: nat -> bool)
      returns (s': FolderPass)
      requires cfg.counting == CopyEngine.AsWritten
      modifies totals, stats
      ensures s' == FolderRun(cfg, files, ioOf, shutdown, 0,
                              FolderPass(d, {}, NoCounts, old(stats.foldersCreated), old(totals.filesProcessed), false))
      ensures stats.foldersCreated == s'.created && totals.filesProcessed == s'.processed
      ensures totals.Counts() == old(totals.Counts())
      ensures StatsBesidesFolders(stats) == old(StatsBesidesFolders(stats))
    {
      s' := FolderPass(d, {}, NoCounts, stats.foldersCreated, totals.filesProcessed, false);
      ghost var run := FolderRun(cfg, files, ioOf, shutdown, 0, s');
      var i := 0;
      while i < |files| && !s'.stopped
        invariant i <= |files|
        invariant FolderRun(cfg, files, ioOf, shutdown, i, s') == run
        invariant s'.created == stats.foldersCreated && s'.processed == totals.filesProcessed
        invariant totals.Counts() == old(totals.Counts())
        invariant StatsBesidesFolders(stats) == old(StatsBesidesFolders(stats))
      {
        s' := Advance(totals, stats, cfg, files, ioOf, shutdown, i, s');
        i := i + 1;
      }
    }

    /**
     * `process_folder_files`: the folder's files in order, with a claimed-target
     * set of its own. Every file adds one to `files_processed`; the folder's
     * counters are added to the totals at the end, unless a shutdown ended
     * the folder early.
     */
    method ProcessFolderFiles(totals: RunTotals, stats: CopyEngine.ProcessingStats, files: seq<Path>,
                              targetDir: Path, platforms: seq<Analyzer.PlatformInfo>,
                              regional: Option<Regional.RegionalEngine>,
                              d: Disk, h: Digests, ioOf: nat -> CopyIo, shutdown: nat -> bool)
      returns (d': Disk)
      modifies totals, stats
      ensures var r := FolderRun(Setting(sourceDir, dryRun, targetDir, platforms, regional, h, CopyEngine.AsWritten), files, ioOf, shutdown, 0,
                                 FolderPass(d, {}, NoCounts, old(stats.foldersCreated), old(totals.filesProcessed), false));
        d' == r.disk && stats.foldersCreated == r.created && totals.filesProcessed == r.processed
        && totals.Counts() == if r.stopped then old(totals.Counts()) else Plus(old(totals.Counts()), r.tally)
      ensures StatsBesidesFolders(stats) == old(StatsBesidesFolders(stats))
    {
      var cfg := Setting(sourceDir, dryRun, targetDir, platforms, regional, h, CopyEngine.AsWritten);
      var s := RunFiles(totals, stats, cfg, files, d, ioOf, shutdown);
      d' := s.disk;
      if !s.stopped {
        totals.Add(s.tally);
      }
    }
  }
}
