/**
 * The file-level copy operations: whether a target needs copying
 * (`should_copy_file`), one copy checked by CRC32
 * (`copy_file_with_verification`) and the retry loop around it
 * (`copy_file_with_retry`, `copy_file_atomic`).
 *
 * The filesystem is a value: a map from paths to contents, plus the paths
 * that exist but cannot be opened for reading. What the operating system
 * does during a copy (the bytes it writes, the exception it raises) is a
 * `CopyIo`; the two digests are `Digests`.
 */
module Copying {
  import opened Text
  import opened FormatHandling

  /** The files on disk, and those among them that cannot be read. */
  datatype Disk = Disk(files: map<Path, seq<bv8>>, unreadable: set<Path>)

  /** The SHA1 hex digest and the CRC32 of a content. */
  datatype Digests = Digests(sha1: seq<bv8> -> string, crc32: seq<bv8> -> bv32)

  /**
   * What the system does when one file is copied: for attempt `k`, the
   * bytes `shutil.copy2` leaves at the target (`None` when it raises) and
   * the text of the exception raised.
   */
  datatype CopyIo = CopyIo(written: nat -> Option<seq<bv8>>, errorText: nat -> string)

  predicate Readable(d: Disk, p: Path) {
    p in d.files && p !in d.unreadable
  }

  /** `calculate_sha1`: the digest, or `None` when the file cannot be read. */
  function Sha1(d: Disk, h: Digests, p: Path): (r: Option<string>)
    ensures r.Some? <==> Readable(d, p)
  {
    if Readable(d, p) then Some(h.sha1(d.files[p])) else None
  }

  /** The disk after `target` is unlinked (if it is there). */
  function Without(d: Disk, target: Path): (r: Disk)
    ensures target !in r.files
    ensures r.files - {target} == d.files - {target}
  {
    d.(files := d.files - {target})
  }

  // ---------------------------------------------------------------------
  // should_copy_file

  datatype CopyReason =
    | NewFile
    | SizeMismatch
    | SourceHashFailed
    | TargetHashFailed
    | IdenticalHash
    | HashMismatch
    | ComparisonError

  /**
   * `should_copy_file`: copy unless the target exists with the same size
   * and the same SHA1 digest. A source that is gone makes `stat` raise,
   * which the function reports as a comparison error.
   */
  function ShouldCopyFile(d: Disk, h: Digests, source: Path, target: Path): (r: (bool, CopyReason))
  {
    if target !in d.files then (true, NewFile)
    else if source !in d.files then (true, ComparisonError)
    else if |d.files[source]| != |d.files[target]| then (true, SizeMismatch)
    else
      var sourceHash := Sha1(d, h, source);
      var targetHash := Sha1(d, h, target);
      if sourceHash.None? then (true, SourceHashFailed)
      else if targetHash.None? then (true, TargetHashFailed)
      else if sourceHash.value == targetHash.value then (false, IdenticalHash)
      else (true, HashMismatch)
  }

  /** A file is left alone exactly when both sides read and agree in size and digest. */
  lemma SkipExactlyWhenIdentical(d: Disk, h: Digests, source: Path, target: Path)
    ensures !ShouldCopyFile(d, h, source, target).0 <==>
      Readable(d, source) && Readable(d, target) && |d.files[source]| == |d.files[target]|
      && h.sha1(d.files[source]) == h.sha1(d.files[target])
    ensures !ShouldCopyFile(d, h, source, target).0 <==> ShouldCopyFile(d, h, source, target).1 == IdenticalHash
  {
  }

  /** With a digest free of collisions, a skipped target holds the source's bytes. */
  lemma SkipKeepsOnlyEqualContent(d: Disk, h: Digests, source: Path, target: Path)
    requires forall x, y :: h.sha1(x) == h.sha1(y) ==> x == y
    requires !ShouldCopyFile(d, h, source, target).0
    ensures source in d.files && target in d.files && d.files[source] == d.files[target]
  {
    SkipExactlyWhenIdentical(d, h, source, target);
  }

  /** The reason is `NewFile` exactly when the target is absent. */
  lemma NewFileExactlyWhenAbsent(d: Disk, h: Digests, source: Path, target: Path)
    ensures ShouldCopyFile(d, h, source, target).1 == NewFile <==> target !in d.files
  {
  }

  // ---------------------------------------------------------------------
  // copy_file_with_verification

  /** An upper-case hexadecimal digit. */
  function HexDigit(v: nat): (c: char)
    requires v < 16
    ensures ('0' <= c <= '9') || ('A' <= c <= 'F')
  {
    if v < 10 then ('0' as int + v) as char else ('A' as int + v - 10) as char
  }

  /** The last `width` hexadecimal digits of `n`, as `{n:08X}` writes a 32-bit value. */
  function Hex(n: nat, width: nat): (r: string)
    ensures |r| == width
  {
    if width == 0 then [] else Hex(n / 16, width - 1) + [HexDigit(n % 16)]
  }

  function Hex8(v: bv32): string {
    Hex(v as nat, 8)
  }

  /** The disk after one attempt, whether it succeeded, and its message. */
  datatype Attempt = Attempt(disk: Disk, ok: bool, info: string)

  /**
   * `copy_file_with_verification`, attempt `k`: copy, then compare the
   * CRC32 of both files. A copy that raises (also when the source cannot
   * be read or is the target itself) or whose CRC differs is removed.
   */
  function CopyWithVerification(d: Disk, h: Digests, io: CopyIo, k: nat, source: Path, target: Path): (r: Attempt)
    ensures r.disk.files - {target} == d.files - {target}
    ensures r.disk.unreadable == d.unreadable
    ensures r.ok ==> (Readable(d, source) && source != target && target in r.disk.files
      && h.crc32(r.disk.files[target]) == h.crc32(d.files[source]))
    ensures !r.ok ==> target !in r.disk.files
  {
    var w := io.written(k);
    if w.None? || !Readable(d, source) || source == target then
      Attempt(Without(d, target), false, io.errorText(k))
    else
      var sourceCrc := h.crc32(d.files[source]);
      var targetCrc := h.crc32(w.value);
      if sourceCrc != targetCrc then
        Attempt(Without(d, target), false, "CRC mismatch: " + Hex8(sourceCrc) + " != " + Hex8(targetCrc))
      else
        Attempt(d.(files := d.files[target := w.value]), true, "CRC: " + Hex8(sourceCrc))
  }

  // ---------------------------------------------------------------------
  // The retry loops

  /** Two maps that agree away from `target` agree on every other path. */
  lemma SameAwayFromTarget(m: map<Path, seq<bv8>>, m': map<Path, seq<bv8>>, target: Path, p: Path)
    requires m - {target} == m' - {target} && p != target
    ensures p in m <==> p in m'
    ensures p in m ==> m[p] == m'[p]
  {
    assert p in m <==> p in m - {target};
    assert p in m' <==> p in m' - {target};
    if p in m {
      assert m[p] == (m - {target})[p];
      assert m'[p] == (m' - {target})[p];
    }
  }

  /** The outcome of attempts `k`, `k + 1`, ... up to `n`, stopping at the first success. */
  datatype RetryRun = RetryRun(disk: Disk, ok: bool, info: string, attempts: nat)

  function Attempts(d: Disk, h: Digests, io: CopyIo, source: Path, target: Path, k: nat, n: nat): (r: RetryRun)
    requires k < n
    ensures k < r.attempts <= n
    ensures !r.ok ==> r.attempts == n
    decreases n - k
  {
    var a := CopyWithVerification(d, h, io, k, source, target);
    if a.ok || k + 1 == n then RetryRun(a.disk, a.ok, a.info, k + 1)
    else Attempts(a.disk, h, io, source, target, k + 1, n)
  }

  /**
   * After the retries, a success leaves a copy whose CRC32 is the
   * source's, a failure leaves no target at all, and no other file changes.
   */
  lemma {:induction false} RetriesLeaveVerifiedCopyOrNothing(d: Disk, h: Digests, io: CopyIo, source: Path, target: Path, k: nat, n: nat)
    requires k < n
    ensures var r := Attempts(d, h, io, source, target, k, n);
      r.ok ==> (source != target && Readable(d, source) && target in r.disk.files
        && h.crc32(r.disk.files[target]) == h.crc32(d.files[source]))
    ensures !Attempts(d, h, io, source, target, k, n).ok ==> target !in Attempts(d, h, io, source, target, k, n).disk.files
    ensures Attempts(d, h, io, source, target, k, n).disk.files - {target} == d.files - {target}
    ensures Attempts(d, h, io, source, target, k, n).disk.unreadable == d.unreadable
    decreases n - k
  {
    var a := CopyWithVerification(d, h, io, k, source, target);
    if !(a.ok || k + 1 == n) {
      RetriesLeaveVerifiedCopyOrNothing(a.disk, h, io, source, target, k + 1, n);
      if source != target {
        SameAwayFromTarget(a.disk.files, d.files, target, source);
      }
    }
  }

  /** Every attempt before the one that ends the run failed. */
  lemma {:induction false} EarlierAttemptsFailed(d: Disk, h: Digests, io: CopyIo, source: Path, target: Path, k: nat, n: nat)
    requires k < n
    ensures Attempts(d, h, io, source, target, k, n).attempts == k + 1 ==>
      Attempts(d, h, io, source, target, k, n).ok == CopyWithVerification(d, h, io, k, source, target).ok
    ensures Attempts(d, h, io, source, target, k, n).ok ==>
      io.written(Attempts(d, h, io, source, target, k, n).attempts - 1).Some?
    decreases n - k
  {
    var a := CopyWithVerification(d, h, io, k, source, target);
    if !(a.ok || k + 1 == n) {
      EarlierAttemptsFailed(a.disk, h, io, source, target, k + 1, n);
    }
  }

  /** `delays[min(attempt, len(delays) - 1)]` of `copy_file_with_retry`, in milliseconds. */
  function BackoffMs(attempt: nat): (r: nat)
    ensures r in {100, 300, 700}
    ensures attempt >= 2 ==> r == 700
  {
    [100, 300, 700][if attempt < 2 then attempt else 2]
  }

  /** The pauses made between `attempts` attempts: one fewer than the attempts. */
  function Pauses(attempts: nat, delay: nat -> nat): (r: seq<nat>)
    ensures |r| == if attempts == 0 then 0 else attempts - 1
  {
    if attempts <= 1 then [] else Pauses(attempts - 1, delay) + [delay(attempts - 2)]
  }

  /** The `i`-th pause is the delay for attempt `i`. */
  lemma {:induction false} PausesAreDelays(attempts: nat, delay: nat -> nat, i: nat)
    requires i < |Pauses(attempts, delay)|
    ensures Pauses(attempts, delay)[i] == delay(i)
  {
    if i < attempts - 2 {
      PausesAreDelays(attempts - 1, delay, i);
    }
  }

  /**
   * `copy_file_with_retry`: up to `maxRetries` verified copies, pausing
   * between them; the pauses taken are returned. With `maxRetries == 0`
   * the source raises `UnboundLocalError`, so at least one attempt is
   * required here.
   */
  method CopyFileWithRetry(d: Disk, h: Digests, io: CopyIo, source: Path, target: Path, maxRetries: nat)
    returns (d': Disk, ok: bool, info: string, pauses: seq<nat>)
    requires maxRetries >= 1
    ensures var r := Attempts(d, h, io, source, target, 0, maxRetries);
      d' == r.disk && ok == r.ok && pauses == Pauses(r.attempts, BackoffMs)
      && info == if ok then r.info else "Failed after " + NatToString(maxRetries) + " attempts: " + r.info
  {
    ghost var run := Attempts(d, h, io, source, target, 0, maxRetries);
    var cur := d;
    var attempt := 0;
    pauses := [];
    while true
      invariant attempt < maxRetries
      invariant Attempts(cur, h, io, source, target, attempt, maxRetries) == run
      invariant pauses == Pauses(attempt + 1, BackoffMs)
      decreases maxRetries - attempt
    {
      var a := CopyWithVerification(cur, h, io, attempt, source, target);
      if a.ok {
        return a.disk, true, a.info, pauses;
      }
      if attempt == maxRetries - 1 {
        return a.disk, false, "Failed after " + NatToString(maxRetries) + " attempts: " + a.info, pauses;
      }
      pauses := pauses + [BackoffMs(attempt)];
      cur := a.disk;
      attempt := attempt + 1;
    }
  }

  /** `copy_file_atomic`: the retry loop with three attempts; no message on success. */
  method CopyFileAtomic(d: Disk, h: Digests, io: CopyIo, source: Path, target: Path)
    returns (d': Disk, ok: bool, error: Option<string>)
    ensures var r := Attempts(d, h, io, source, target, 0, 3);
      d' == r.disk && ok == r.ok
      && error == if ok then None else Some("Failed after 3 attempts: " + r.info)
  {
    var info, pauses;
    d', ok, info, pauses := CopyFileWithRetry(d, h, io, source, target, 3);
    assert "Failed after " + NatToString(3) + " attempts: " == "Failed after 3 attempts: ";
    error := if ok then None else Some(info);
  }
}
