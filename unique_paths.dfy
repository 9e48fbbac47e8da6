/**
 * `get_unique_target_path`: where a file goes in its platform folder. The
 * plain name is kept when nobody has it; a byte-identical file already
 * there is skipped; otherwise the file is renamed, first with the hint of
 * its source folder, then with the numbers 2 to 99.
 */
module UniquePaths {
  import opened Text
  import opened FormatHandling
  import opened Copying
  import Catalog
  import FolderHints

  /** `PurePath.name` of a path. */
  function FileName(p: Path): string {
    if p == [] then "" else p[|p| - 1]
  }

  /** The second value returned: why the path is what it is. */
  datatype RenameReason =
    | Unrenamed
    | SkipIdentical
    | RenamedWithHint(hint: string)
    | RenamedWithNumber(number: nat)
    | TooManyDuplicates

  /** The reasons whose text starts with "renamed_". */
  predicate IsRename(reason: RenameReason) {
    reason.RenamedWithHint? || reason.RenamedWithNumber?
  }

  /** Claimed earlier in the run, or already on disk. */
  predicate Taken(d: Disk, claimed: set<Path>, p: Path) {
    p in claimed || p in d.files
  }

  /** `f"{stem} ({tag}){suffix}"`. */
  function Tagged(stem: string, tag: string, suffix: string): string {
    stem + " (" + tag + ")" + suffix
  }

  /** A digest in a condition: `None` and the empty string are false. */
  predicate Truthy(h: Option<string>) {
    h.Some? && h.value != ""
  }

  /** The candidate with number `n`, in the platform folder `dir`. */
  function Numbered(dir: Path, stem: string, suffix: string, n: nat): Path {
    dir + [Tagged(stem, NatToString(n), suffix)]
  }

  /** The numbered loop from `counter` on: the first free number below 100. */
  function FreeNumberFrom(d: Disk, claimed: set<Path>, dir: Path, stem: string, suffix: string, counter: nat): (r: Option<nat>)
    requires 2 <= counter <= 100
    ensures r.Some? ==> counter <= r.value < 100 && !Taken(d, claimed, Numbered(dir, stem, suffix, r.value))
    ensures r.Some? ==> forall m :: counter <= m < r.value ==> Taken(d, claimed, Numbered(dir, stem, suffix, m))
    ensures r.None? ==> forall m :: counter <= m < 100 ==> Taken(d, claimed, Numbered(dir, stem, suffix, m))
    decreases 100 - counter
  {
    if counter == 100 then None
    else if !Taken(d, claimed, Numbered(dir, stem, suffix, counter)) then Some(counter)
    else FreeNumberFrom(d, claimed, dir, stem, suffix, counter + 1)
  }

  /** The folder hint used for a rename: none for an empty folder name. */
  function HintOf(sourceFolderName: string): (r: Option<string>)
    ensures r.Some? ==> sourceFolderName != "" && r == FolderHints.FolderHint(sourceFolderName)
    ensures r.Some? ==> 1 <= |r.value| <= 8
  {
    if sourceFolderName != "" then FolderHints.FolderHint(sourceFolderName) else None
  }

  /** The plain target `target_dir / platform / name`. */
  function BaseTarget(source: Path, targetDir: Path, platform: string): Path {
    targetDir + [platform, FileName(source)]
  }

  /** Both files exist and have the same digest. */
  predicate IdenticalOnDisk(d: Disk, h: Digests, source: Path, target: Path) {
    target in d.files && Truthy(Sha1(d, h, source)) && Truthy(Sha1(d, h, target))
    && Sha1(d, h, source) == Sha1(d, h, target)
  }

  /** The choice of `get_unique_target_path` for the hint of the source folder. */
  function UniqueTargetPath(source: Path, targetDir: Path, platform: string, sourceFolderName: string,
                            claimed: set<Path>, d: Disk, h: Digests): (r: (Path, RenameReason))
  {
    UniqueTargetPathWithHint(source, targetDir, platform, HintOf(sourceFolderName), claimed, d, h)
  }

  /** The choice, given the folder hint (if any). */
  function UniqueTargetPathWithHint(source: Path, targetDir: Path, platform: string, hint: Option<string>,
                                    claimed: set<Path>, d: Disk, h: Digests): (r: (Path, RenameReason))
  {
    var name := FileName(source);
    var stem := Catalog.Stem(name);
    var suffix := Catalog.Suffix(name);
    var dir := targetDir + [platform];
    var base := BaseTarget(source, targetDir, platform);
    if !Taken(d, claimed, base) then (base, Unrenamed)
    else if IdenticalOnDisk(d, h, source, base) then (base, SkipIdentical)
    else
      if hint.Some? && !Taken(d, claimed, dir + [Tagged(stem, hint.value, suffix)]) then
        (dir + [Tagged(stem, hint.value, suffix)], RenamedWithHint(hint.value))
      else
        match FreeNumberFrom(d, claimed, dir, stem, suffix, 2)
        case Some(n) => (Numbered(dir, stem, suffix, n), RenamedWithNumber(n))
        case None => (base, TooManyDuplicates)
  }

  /** `get_unique_target_path`. */
  method GetUniqueTargetPath(source: Path, targetDir: Path, platform: string, sourceFolderName: string,
                             claimed: set<Path>, d: Disk, h: Digests)
    returns (path: Path, reason: RenameReason)
    ensures path == UniqueTargetPath(source, targetDir, platform, sourceFolderName, claimed, d, h).0
    ensures reason == UniqueTargetPath(source, targetDir, platform, sourceFolderName, claimed, d, h).1
  {
    var hint := HintOf(sourceFolderName);
    path, reason := ChooseTarget(source, targetDir, platform, hint, claimed, d, h);
  }

  /** The body of `get_unique_target_path` once the folder hint is known. */
  method ChooseTarget(source: Path, targetDir: Path, platform: string, hint: Option<string>,
                      claimed: set<Path>, d: Disk, h: Digests)
    returns (path: Path, reason: RenameReason)
    ensures path == UniqueTargetPathWithHint(source, targetDir, platform, hint, claimed, d, h).0
    ensures reason == UniqueTargetPathWithHint(source, targetDir, platform, hint, claimed, d, h).1
  {
    var name := FileName(source);
    var stem := Catalog.Stem(name);
    var suffix := Catalog.Suffix(name);
    var dir := targetDir + [platform];
    var base := dir + [name];
    assert base == BaseTarget(source, targetDir, platform);
    if base !in claimed && base !in d.files {
      return base, Unrenamed;
    }
    if base in d.files {
      var sourceHash := Sha1(d, h, source);
      var targetHash := Sha1(d, h, base);
      if Truthy(sourceHash) && Truthy(targetHash) && sourceHash == targetHash {
        return base, SkipIdentical;
      }
    }
    assert Taken(d, claimed, base) && !IdenticalOnDisk(d, h, source, base);
    if hint.Some? {
      var unique := dir + [Tagged(stem, hint.value, suffix)];
      if unique !in claimed && unique !in d.files {
        return unique, RenamedWithHint(hint.value);
      }
    }
    var number := FirstFreeNumber(d, claimed, dir, stem, suffix);
    match number
    case Some(n) => return Numbered(dir, stem, suffix, n), RenamedWithNumber(n);
    case None => return base, TooManyDuplicates;
  }

  /** The loop over the counters 2 to 99. */
  method FirstFreeNumber(d: Disk, claimed: set<Path>, dir: Path, stem: string, suffix: string) returns (number: Option<nat>)
    ensures number == FreeNumberFrom(d, claimed, dir, stem, suffix, 2)
  {
    var counter := 2;
    while counter < 100
      invariant 2 <= counter <= 100
      invariant FreeNumberFrom(d, claimed, dir, stem, suffix, 2) == FreeNumberFrom(d, claimed, dir, stem, suffix, counter)
    {
      var unique := Numbered(dir, stem, suffix, counter);
      if unique !in claimed && unique !in d.files {
        return Some(counter);
      }
      counter := counter + 1;
    }
    return None;
  }

  // ---------------------------------------------------------------------
  // What the chosen path promises

  /** The plain name is kept exactly when it is free. */
  lemma KeptExactlyWhenFree(source: Path, targetDir: Path, platform: string, hint: Option<string>,
                            claimed: set<Path>, d: Disk, h: Digests)
    ensures var r := UniqueTargetPathWithHint(source, targetDir, platform, hint, claimed, d, h);
      r.1 == Unrenamed <==> !Taken(d, claimed, BaseTarget(source, targetDir, platform))
  {
  }

  /** A file is skipped exactly when the taken plain target exists with the same digest. */
  lemma SkippedExactlyWhenIdentical(source: Path, targetDir: Path, platform: string, hint: Option<string>,
                                    claimed: set<Path>, d: Disk, h: Digests)
    ensures var r := UniqueTargetPathWithHint(source, targetDir, platform, hint, claimed, d, h);
      r.1 == SkipIdentical <==> IdenticalOnDisk(d, h, source, BaseTarget(source, targetDir, platform))
  {
  }

  /**
   * The path returned is free — claimed by no earlier file and absent
   * from disk — unless the file is skipped or every name is used up; in
   * those two cases it is the plain target, which is taken.
   */
  lemma FreeUnlessSkippedOrExhausted(source: Path, targetDir: Path, platform: string, hint: Option<string>,
                                     claimed: set<Path>, d: Disk, h: Digests)
    ensures var r := UniqueTargetPathWithHint(source, targetDir, platform, hint, claimed, d, h);
      !Taken(d, claimed, r.0) <==> !(r.1.SkipIdentical? || r.1.TooManyDuplicates?)
    ensures var r := UniqueTargetPathWithHint(source, targetDir, platform, hint, claimed, d, h);
      r.1.SkipIdentical? || r.1.TooManyDuplicates? ==> r.0 == BaseTarget(source, targetDir, platform)
  {
  }

  /** Every path returned lies directly in the platform folder; a rename differs from the plain name. */
  lemma StaysInPlatformFolder(source: Path, targetDir: Path, platform: string, hint: Option<string>,
                              claimed: set<Path>, d: Disk, h: Digests)
    ensures var r := UniqueTargetPathWithHint(source, targetDir, platform, hint, claimed, d, h);
      |r.0| == |targetDir| + 2 && r.0[..|targetDir| + 1] == targetDir + [platform]
    ensures var r := UniqueTargetPathWithHint(source, targetDir, platform, hint, claimed, d, h);
      IsRename(r.1) ==> r.0 != BaseTarget(source, targetDir, platform)
  {
    var r := UniqueTargetPathWithHint(source, targetDir, platform, hint, claimed, d, h);
    assert (targetDir + [platform] + [r.0[|targetDir| + 1]])[..|targetDir| + 1] == targetDir + [platform];
  }

  /** The folder hint is tried before any number, and the lowest free number wins. */
  lemma HintBeforeLowestNumber(source: Path, targetDir: Path, platform: string, hint: Option<string>,
                               claimed: set<Path>, d: Disk, h: Digests)
    ensures var r := UniqueTargetPathWithHint(source, targetDir, platform, hint, claimed, d, h);
      r.1.RenamedWithHint? ==> hint == Some(r.1.hint)
    ensures var r := UniqueTargetPathWithHint(source, targetDir, platform, hint, claimed, d, h);
      var name := FileName(source);
      var dir := targetDir + [platform];
      r.1.RenamedWithNumber? ==>
        (hint.None?
         || Taken(d, claimed, dir + [Tagged(Catalog.Stem(name), hint.value, Catalog.Suffix(name))]))
        && 2 <= r.1.number < 100
        && forall m :: 2 <= m < r.1.number ==> Taken(d, claimed, Numbered(dir, Catalog.Stem(name), Catalog.Suffix(name), m))
  {
  }

  /** Names run out only when the hint and all of 2 to 99 are taken. */
  lemma ExhaustedOnlyWhenAllTaken(source: Path, targetDir: Path, platform: string, hint: Option<string>,
                                  claimed: set<Path>, d: Disk, h: Digests)
    ensures var r := UniqueTargetPathWithHint(source, targetDir, platform, hint, claimed, d, h);
      var name := FileName(source);
      var dir := targetDir + [platform];
      r.1.TooManyDuplicates? ==>
        forall m :: 2 <= m < 100 ==> Taken(d, claimed, Numbered(dir, Catalog.Stem(name), Catalog.Suffix(name), m))
  {
  }

  /**
   * Because the path is free, a comparison with it always finds a new file:
   * only the exhausted fallback can lead to replacing an existing file.
   */
  lemma CopyIsNewUnlessExhausted(source: Path, targetDir: Path, platform: string, hint: Option<string>,
                                 claimed: set<Path>, d: Disk, h: Digests)
    ensures var r := UniqueTargetPathWithHint(source, targetDir, platform, hint, claimed, d, h);
      !(r.1.SkipIdentical? || r.1.TooManyDuplicates?) ==> ShouldCopyFile(d, h, source, r.0) == (true, NewFile)
  {
    FreeUnlessSkippedOrExhausted(source, targetDir, platform, hint, claimed, d, h);
  }
}
