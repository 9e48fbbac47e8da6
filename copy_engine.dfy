/**
 * `ProcessingStats` and `AsyncFileCopyEngine`: the strategy chosen for
 * the environment, the engine's own retry loop, and the single-threaded
 * pass used under WSL2.
 */
module CopyEngine {
  import opened Text
  import opened FormatHandling
  import opened Copying
  import opened UniquePaths

  /** The counters of a run; `processing_time` is not modelled. */
  class ProcessingStats {
    var platformsFound: nat
    var filesFound: nat
    var filesCopied: nat
    var filesReplaced: nat
    var filesRenamedDuplicates: nat
    var filesSkippedDuplicate: nat
    var filesSkippedUnknown: nat
    var errors: nat
    var selectedPlatforms: seq<string>
    var foldersCreated: set<Path>

    /** All counters zero, no platform selected, no folder created. */
    constructor()
      ensures platformsFound == 0 && filesFound == 0 && filesCopied == 0 && filesReplaced == 0
      ensures filesRenamedDuplicates == 0 && filesSkippedDuplicate == 0 && filesSkippedUnknown == 0 && errors == 0
      ensures selectedPlatforms == [] && foldersCreated == {}
    {
      platformsFound, filesFound, filesCopied, filesReplaced := 0, 0, 0, 0;
      filesRenamedDuplicates, filesSkippedDuplicate, filesSkippedUnknown, errors := 0, 0, 0, 0;
      selectedPlatforms, foldersCreated := [], {};
    }

    /** `total_unique_files`: copied plus renamed. */
    function TotalUniqueFiles(): nat
      reads this
    {
      filesCopied + filesRenamedDuplicates
    }
  }

  // ---------------------------------------------------------------------
  // Strategy

  /** The retry settings of a strategy; delays in milliseconds. */
  datatype RetryConfig = RetryConfig(maxAttempts: nat, baseDelayMs: nat, exponentialBase: nat, jitter: bool)

  datatype Strategy = Strategy(name: string, maxWorkers: nat, retry: RetryConfig)

  /**
   * `_select_strategy`: one worker with two slow attempts under WSL2,
   * eight workers with three quick attempts elsewhere.
   */
  function SelectStrategy(isWsl2: bool): (r: Strategy)
    ensures r.maxWorkers == 1 <==> isWsl2
    ensures r.maxWorkers >= 1
    ensures isWsl2 ==> r.name == "WSL2SingleThreadStrategy" && r.retry == RetryConfig(2, 1000, 3, true)
    ensures !isWsl2 ==> r.name == "HighConcurrencyStrategy" && r.maxWorkers == 8 && r.retry == RetryConfig(3, 100, 2, false)
  {
    if isWsl2 then Strategy("WSL2SingleThreadStrategy", 1, RetryConfig(2, 1000, 3, true))
    else Strategy("HighConcurrencyStrategy", 8, RetryConfig(3, 100, 2, false))
  }

  /** `_calculate_progress_update_frequency`: files between two progress lines. */
  function ProgressUpdateFrequency(totalFiles: nat): (r: nat)
    ensures r in {10, 100, 500, 1000}
  {
    if totalFiles < 1000 then 10
    else if totalFiles < 10000 then 100
    else if totalFiles < 50000 then 500
    else 1000
  }

  /** More files never mean more frequent updates. */
  lemma FrequencyMonotone(m: nat, n: nat)
    requires m <= n
    ensures ProgressUpdateFrequency(m) <= ProgressUpdateFrequency(n)
  {
  }

  /** Below 50000 files, the periodic updates stay under a hundred. */
  lemma FewerThanHundredUpdates(totalFiles: nat)
    requires totalFiles < 50000
    ensures totalFiles / ProgressUpdateFrequency(totalFiles) < 100
  {
  }

  function Pow2(n: nat): (r: nat)
    ensures r >= 1
  {
    if n == 0 then 1 else 2 * Pow2(n - 1)
  }

  /** `0.1 * (2 ** attempt)` seconds, in milliseconds. */
  function EngineBackoffMs(attempt: nat): (r: nat)
    ensures r >= 100
  {
    100 * Pow2(attempt)
  }

  /** Each pause of the engine doubles the previous one. */
  lemma EngineBackoffDoubles(attempts: nat, i: nat)
    requires 0 < i < |Pauses(attempts, EngineBackoffMs)|
    ensures Pauses(attempts, EngineBackoffMs)[i] == 2 * Pauses(attempts, EngineBackoffMs)[i - 1]
  {
    PausesAreDelays(attempts, EngineBackoffMs, i);
    PausesAreDelays(attempts, EngineBackoffMs, i - 1);
  }

  // ---------------------------------------------------------------------
  // The single-threaded pass

  /** One entry of `files_by_folder`: the file, its platform and, when recorded, its source folder. */
  datatype FileInfo = FileInfo(path: Path, platform: string, sourceFolder: Option<string>)

  /** `file_info.get('source_folder', source_path.parent.name)`. */
  function SourceFolderOf(f: FileInfo): string {
    match f.sourceFolder
    case Some(folder) => folder
    case None => if f.path == [] then "" else FileName(f.path[..|f.path| - 1])
  }

  /** The counters the single-threaded pass changes. */
  datatype Tally = Tally(copied: nat, renamed: nat, skippedDuplicate: nat, errors: nat)

  /** The state carried from file to file: the disk, the claimed targets, the counters. */
  datatype Pass = Pass(disk: Disk, claimed: set<Path>, tally: Tally)

  /**
   * Which counting the single-threaded pass follows: `AsWritten` is the
   * pass as the program has it, `Corrected` counts a renamed copy once.
   */
  datatype Counting = AsWritten | Corrected

  /**
   * The counting after a copy, as written: every successful copy counts as
   * copied, also one already counted as renamed.
   */
  function CountCopyAsWritten(t: Tally, reason: RenameReason, ok: bool): Tally {
    if ok then t.(copied := t.copied + 1) else t.(errors := t.errors + 1)
  }

  /** The counting after a copy, a renamed file counted once (as the per-folder pass does). */
  function CountCopy(t: Tally, reason: RenameReason, ok: bool): Tally {
    if !ok then t.(errors := t.errors + 1)
    else if IsRename(reason) then t
    else t.(copied := t.copied + 1)
  }

  /** The counting after a copy that `counting` selects. */
  function CountAfterCopy(counting: Counting, t: Tally, reason: RenameReason, ok: bool): Tally {
    match counting
    case AsWritten => CountCopyAsWritten(t, reason, ok)
    case Corrected => CountCopy(t, reason, ok)
  }

  /** The attempts `_copy_with_retry` makes when called without `max_retries`. */
  const DefaultRetries: nat := 3

  /** A file of a selected platform once its target `u` is chosen: skip, or copy and count. */
  function AfterTarget(counting: Counting, s: Pass, f: FileInfo, u: (Path, RenameReason), h: Digests, io: CopyIo): Pass {
    var claimed := s.claimed + {u.0};
    if u.1.SkipIdentical? then
      Pass(s.disk, claimed, s.tally.(skippedDuplicate := s.tally.skippedDuplicate + 1))
    else
      var c := CopyCounted(counting, s.disk, s.tally, f.path, u.0, u.1, h, io);
      Pass(c.0, claimed, c.1)
  }

  /** A file not skipped: counted when renamed, then copied, then counted as copied or failed. */
  function CopyCounted(counting: Counting, d: Disk, t: Tally, source: Path, target: Path, reason: RenameReason,
                       h: Digests, io: CopyIo): (Disk, Tally) {
    var t' := if IsRename(reason) then t.(renamed := t.renamed + 1) else t;
    var c := Attempts(d, h, io, source, target, 0, DefaultRetries);
    (c.disk, CountAfterCopy(counting, t', reason, c.ok))
  }

  /** One file of `_process_single_threaded`; files of unselected platforms are passed over. */
  function SingleStep(counting: Counting, s: Pass, f: FileInfo, platforms: set<string>, targetDir: Path,
                      h: Digests, io: CopyIo): Pass {
    if f.platform !in platforms then s
    else AfterTarget(counting, s, f, UniqueTargetPath(f.path, targetDir, f.platform, SourceFolderOf(f), s.claimed, s.disk, h), h, io)
  }

  /** The pass over `files[i..]`, the `k`-th file copied as `ioOf(k)` says. */
  function SingleRun(counting: Counting, files: seq<FileInfo>, platforms: set<string>, targetDir: Path, h: Digests,
                     ioOf: nat -> CopyIo, i: nat, s: Pass): Pass
    requires i <= |files|
    decreases |files| - i
  {
    if i == |files| then s
    else SingleRun(counting, files, platforms, targetDir, h, ioOf, i + 1,
                   SingleStep(counting, s, files[i], platforms, targetDir, h, ioOf(i)))
  }

  function Flatten(filesByFolder: seq<(Path, seq<FileInfo>)>): seq<FileInfo> {
    if filesByFolder == [] then []
    else Flatten(filesByFolder[..|filesByFolder| - 1]) + filesByFolder[|filesByFolder| - 1].1
  }

  function UniqueCount(t: Tally): nat {
    t.copied + t.renamed
  }

  /** What one file can add to copied plus renamed: two as written, one when corrected. */
  function StepBound(counting: Counting): nat {
    match counting
    case AsWritten => 2
    case Corrected => 1
  }

  /**
   * Each file adds at most `StepBound(counting)` to copied plus renamed, and
   * every selected file is counted somewhere.
   */
  lemma SingleStepCountsOnce(counting: Counting, s: Pass, f: FileInfo, platforms: set<string>, targetDir: Path,
                             h: Digests, io: CopyIo)
    ensures var s' := SingleStep(counting, s, f, platforms, targetDir, h, io);
      UniqueCount(s.tally) <= UniqueCount(s'.tally) <= UniqueCount(s.tally) + StepBound(counting)
    ensures var s' := SingleStep(counting, s, f, platforms, targetDir, h, io);
      f.platform in platforms <==>
        s'.tally.copied + s'.tally.renamed + s'.tally.skippedDuplicate + s'.tally.errors
        > s.tally.copied + s.tally.renamed + s.tally.skippedDuplicate + s.tally.errors
  {
  }

  /** The number of files of `files[i..]` whose platform is selected. */
  function SelectedCount(files: seq<FileInfo>, platforms: set<string>, i: nat): nat
    requires i <= |files|
    decreases |files| - i
  {
    if i == |files| then 0
    else (if files[i].platform in platforms then 1 else 0) + SelectedCount(files, platforms, i + 1)
  }

  /**
   * Corrected, `total_unique_files` never exceeds the number of files of the
   * selected platforms; as written, it stays under twice that number.
   */
  lemma {:induction false} UniqueFilesBounded(counting: Counting, files: seq<FileInfo>, platforms: set<string>,
                                              targetDir: Path, h: Digests, ioOf: nat -> CopyIo, i: nat, s: Pass)
    requires i <= |files|
    ensures UniqueCount(SingleRun(counting, files, platforms, targetDir, h, ioOf, i, s).tally)
      <= UniqueCount(s.tally) + StepBound(counting) * SelectedCount(files, platforms, i)
    decreases |files| - i
  {
    if i < |files| {
      var s' := SingleStep(counting, s, files[i], platforms, targetDir, h, ioOf(i));
      SingleStepCountsOnce(counting, s, files[i], platforms, targetDir, h, ioOf(i));
      UniqueFilesBounded(counting, files, platforms, targetDir, h, ioOf, i + 1, s');
    }
  }

  /** As written, a renamed file that copies adds two to `total_unique_files`. */
  lemma RenamedCopyCountedTwice(t: Tally, hint: string)
    ensures var reason := RenamedWithHint(hint);
      UniqueCount(CountCopyAsWritten(t.(renamed := t.renamed + 1), reason, true)) == UniqueCount(t) + 2
    ensures var reason := RenamedWithHint(hint);
      UniqueCount(CountCopy(t.(renamed := t.renamed + 1), reason, true)) == UniqueCount(t) + 1
  {
  }

  /** The two countings differ exactly on a renamed file that copies. */
  lemma CountingsDifferOnlyOnRenamedCopies(t: Tally, reason: RenameReason, ok: bool)
    ensures CountCopy(t, reason, ok) != CountCopyAsWritten(t, reason, ok) <==> ok && IsRename(reason)
  {
  }

  // ---------------------------------------------------------------------
  // The engine

  class AsyncFileCopyEngine {
    const dryRun: bool
    const isWsl2: bool
    const strategy: Strategy
    const maxWorkers: nat

    /** The environment check is passed in as `isWsl2`. */
    constructor(dryRun: bool, isWsl2: bool)
      ensures this.dryRun == dryRun && this.isWsl2 == isWsl2
      ensures strategy == SelectStrategy(isWsl2) && maxWorkers == strategy.maxWorkers
    {
      this.dryRun := dryRun;
      this.isWsl2 := isWsl2;
      strategy := SelectStrategy(isWsl2);
      maxWorkers := SelectStrategy(isWsl2).maxWorkers;
    }

    /**
     * `_copy_with_retry`: up to `maxRetries` verified copies, pausing
     * `0.1 * 2 ** attempt` seconds between them; no attempt at all when
     * `maxRetries` is zero.
     */
    method CopyWithRetry(d: Disk, h: Digests, io: CopyIo, source: Path, target: Path, maxRetries: nat)
      returns (d': Disk, ok: bool, pauses: seq<nat>)
      ensures maxRetries == 0 ==> d' == d && !ok && pauses == []
      ensures maxRetries > 0 ==> var r := Attempts(d, h, io, source, target, 0, maxRetries);
        d' == r.disk && ok == r.ok && pauses == Pauses(r.attempts, EngineBackoffMs)
    {
      d', ok, pauses := d, false, [];
      var attempt := 0;
      while attempt < maxRetries
        invariant attempt < maxRetries || attempt == maxRetries == 0
        invariant maxRetries > 0 && attempt < maxRetries ==>
          Attempts(d', h, io, source, target, attempt, maxRetries) == Attempts(d, h, io, source, target, 0, maxRetries)
        invariant maxRetries == 0 ==> d' == d && pauses == []
        invariant pauses == Pauses(attempt + 1, EngineBackoffMs)
      {
        var a := CopyWithVerification(d', h, io, attempt, source, target);
        assert Attempts(d', h, io, source, target, attempt, maxRetries)
            == if a.ok || attempt + 1 == maxRetries then RetryRun(a.disk, a.ok, a.info, attempt + 1)
               else Attempts(a.disk, h, io, source, target, attempt + 1, maxRetries);
        if a.ok {
          return a.disk, true, pauses;
        }
        if attempt < maxRetries - 1 {
          pauses := pauses + [EngineBackoffMs(attempt)];
        } else {
          return a.disk, false, pauses;
        }
        d' := a.disk;
        attempt := attempt + 1;
      }
    }

    /** The counters of `stats` that the single-threaded pass changes. */
    function TallyOf(stats: ProcessingStats): Tally
      reads stats
    {
      Tally(stats.filesCopied, stats.filesRenamedDuplicates, stats.filesSkippedDuplicate, stats.errors)
    }

    /** The fields of `stats` that the single-threaded pass leaves alone. */
    function OtherFields(stats: ProcessingStats): (nat, nat, nat, nat, seq<string>, set<Path>)
      reads stats
    {
      (stats.platformsFound, stats.filesFound, stats.filesReplaced, stats.filesSkippedUnknown,
       stats.selectedPlatforms, stats.foldersCreated)
    }

    /** Skip or copy a file whose target is chosen, counting in `stats`. */
    method CopyAndCount(stats: ProcessingStats, f: FileInfo, path: Path, reason: RenameReason,
                        h: Digests, io: CopyIo, d: Disk, claimed: set<Path>)
      returns (d': Disk, claimed': set<Path>)
      modifies stats
      ensures var s := AfterTarget(AsWritten, Pass(d, claimed, old(TallyOf(stats))), f, (path, reason), h, io);
        d' == s.disk && claimed' == s.claimed && TallyOf(stats) == s.tally
      ensures OtherFields(stats) == old(OtherFields(stats))
    {
      claimed' := claimed + {path};
      if reason.SkipIdentical? {
        stats.filesSkippedDuplicate := stats.filesSkippedDuplicate + 1;
        return d, claimed';
      }
      d' := CopyFile(stats, f.path, path, reason, h, io, d);
    }

    /** The copy of a file not skipped, counting in `stats`. */
    method CopyFile(stats: ProcessingStats, source: Path, target: Path, reason: RenameReason,
                    h: Digests, io: CopyIo, d: Disk)
      returns (d': Disk)
      modifies stats
      ensures d' == CopyCounted(AsWritten, d, old(TallyOf(stats)), source, target, reason, h, io).0
      ensures TallyOf(stats) == CopyCounted(AsWritten, d, old(TallyOf(stats)), source, target, reason, h, io).1
      ensures OtherFields(stats) == old(OtherFields(stats))
    {
      ghost var r := Attempts(d, h, io, source, target, 0, DefaultRetries);
      CountRename(stats, reason);
      var ok, pauses;
      d', ok, pauses := CopyWithRetry(d, h, io, source, target, DefaultRetries);
      assert d' == r.disk && ok == r.ok;
      CountOutcome(stats, reason, ok);
    }

    /** A renamed copy adds one to `files_renamed_duplicates` before it is made. */
    method CountRename(stats: ProcessingStats, reason: RenameReason)
      modifies stats
      ensures TallyOf(stats) == if IsRename(reason) then old(TallyOf(stats)).(renamed := old(stats.filesRenamedDuplicates) + 1)
                                else old(TallyOf(stats))
      ensures OtherFields(stats) == old(OtherFields(stats))
    {
      if IsRename(reason) {
        stats.filesRenamedDuplicates := stats.filesRenamedDuplicates + 1;
      }
    }

    /** A copy adds one to `files_copied` when it succeeded and to `errors` when it failed. */
    method CountOutcome(stats: ProcessingStats, reason: RenameReason, ok: bool)
      modifies stats
      ensures TallyOf(stats) == CountAfterCopy(AsWritten, old(TallyOf(stats)), reason, ok)
      ensures OtherFields(stats) == old(OtherFields(stats))
    {
      if ok {
        stats.filesCopied := stats.filesCopied + 1;
      } else {
        stats.errors := stats.errors + 1;
      }
    }

    /** One file of the single-threaded pass, its counts kept in `stats`. */
    method ProcessFile(stats: ProcessingStats, f: FileInfo, platforms: set<string>, targetDir: Path,
                       h: Digests, io: CopyIo, d: Disk, claimed: set<Path>)
      returns (d': Disk, claimed': set<Path>)
      modifies stats
      ensures var s := SingleStep(AsWritten, Pass(d, claimed, old(TallyOf(stats))), f, platforms, targetDir, h, io);
        d' == s.disk && claimed' == s.claimed && TallyOf(stats) == s.tally
      ensures OtherFields(stats) == old(OtherFields(stats))
    {
      d', claimed' := d, claimed;
      if f.platform in platforms {
        var path, reason := GetUniqueTargetPath(f.path, targetDir, f.platform, SourceFolderOf(f), claimed, d, h);
        d', claimed' := CopyAndCount(stats, f, path, reason, h, io, d, claimed);
      }
    }

    /**
     * `_process_single_threaded`: the files of all folders in order; a file
     * of a selected platform gets a unique target, is skipped when
     * identical, and is otherwise copied with `_copy_with_retry`. The
     * chunks of 1000 files and the pauses between them change nothing
     * counted here. `dryRun` is not consulted.
     */
    method ProcessSingleThreaded(filesByFolder: seq<(Path, seq<FileInfo>)>, platforms: set<string>, targetDir: Path,
                                 d: Disk, h: Digests, ioOf: nat -> CopyIo)
      returns (stats: ProcessingStats, d': Disk)
      ensures fresh(stats)
      ensures var r := SingleRun(AsWritten, Flatten(filesByFolder), platforms, targetDir, h, ioOf, 0, Pass(d, {}, Tally(0, 0, 0, 0)));
        d' == r.disk && TallyOf(stats) == r.tally
      ensures stats.platformsFound == 0 && stats.filesFound == 0 && stats.filesReplaced == 0 && stats.filesSkippedUnknown == 0
      ensures stats.selectedPlatforms == [] && stats.foldersCreated == {}
    {
      stats := new ProcessingStats();
      var all: seq<FileInfo> := [];
      var j := 0;
      while j < |filesByFolder|
        invariant j <= |filesByFolder|
        invariant all == Flatten(filesByFolder[..j])
      {
        assert filesByFolder[..j + 1][..j] == filesByFolder[..j];
        all := all + filesByFolder[j].1;
        j := j + 1;
      }
      assert filesByFolder[..j] == filesByFolder;
      ghost var run := SingleRun(AsWritten, all, platforms, targetDir, h, ioOf, 0, Pass(d, {}, Tally(0, 0, 0, 0)));
      var claimed: set<Path> := {};
      d' := d;
      var i := 0;
      while i < |all|
        invariant i <= |all|
        invariant SingleRun(AsWritten, all, platforms, targetDir, h, ioOf, i, Pass(d', claimed, TallyOf(stats))) == run
        invariant OtherFields(stats) == (0, 0, 0, 0, [], {})
      {
        d', claimed := ProcessFile(stats, all[i], platforms, targetDir, h, ioOf(i), d', claimed);
        i := i + 1;
      }
    }

    /**
     * `copy_files_adaptive`: with a single worker (the WSL2 strategy) the
     * run is the single-threaded pass; with more workers it goes to the
     * concurrent pass, which is not part of this model and is answered
     * with `None` and an untouched disk.
     */
    method CopyFilesAdaptive(filesByFolder: seq<(Path, seq<FileInfo>)>, platforms: set<string>, targetDir: Path,
                             d: Disk, h: Digests, ioOf: nat -> CopyIo)
      returns (r: Option<ProcessingStats>, d': Disk)
      requires maxWorkers == strategy.maxWorkers && strategy == SelectStrategy(isWsl2)
      ensures r.Some? <==> isWsl2
      ensures r.None? ==> d' == d
      ensures r.Some? ==> fresh(r.value)
      ensures r.Some? ==>
                var run := SingleRun(AsWritten, Flatten(filesByFolder), platforms, targetDir, h, ioOf, 0, Pass(d, {}, Tally(0, 0, 0, 0)));
                d' == run.disk && TallyOf(r.value) == run.tally
    {
      if maxWorkers == 1 {
        var stats;
        stats, d' := ProcessSingleThreaded(filesByFolder, platforms, targetDir, d, h, ioOf);
        r := Some(stats);
      } else {
        r, d' := None, d;
      }
    }
  }
}
