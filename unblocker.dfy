/**
 * The unblocking engine (rust/src/unblocker.rs): removing one file's
 * Zone.Identifier stream, folding a directory walk into statistics, and
 * dispatching a target to one or the other.
 *
 * The filesystem is an input: what `fs::remove_file` answers for a file's
 * stream, what `WalkDir` yields for a directory, and whether a target is a
 * file, a directory or neither. Each operation exists twice: as a function
 * (`...Spec`) that states the outcome, and as a method that updates the
 * shared `Config` in place the way the source does, proved to agree with
 * the function.
 */
module Unblocker {
  import opened Wrappers
  import opened Errors
  import opened Host
  import opened PathUtils
  import opened Configuration
  import opened Decimal

  /** The counters of one dispatch or walk. */
  datatype UnblockStats = UnblockStats(
    filesProcessed: nat,
    filesUnblocked: nat,
    filesNoAds: nat,
    filesFailed: nat,
    permissionErrors: nat)
  {
    /** `UnblockStats::summary`. */
    function Summary(): (r: string)
      ensures "Processed " <= r
    {
      "Processed " + (NatToString(filesProcessed) + (" files: " + (NatToString(filesUnblocked) + (" unblocked, "
      + (NatToString(filesNoAds) + (" had no ADS, " + (NatToString(filesFailed) + (" failed ("
      + (NatToString(permissionErrors) + " permission errors)")))))))))
    }

    /** The number of outcomes recorded: unblocked, no stream, or failed. */
    function Classified(): nat {
      filesUnblocked + filesNoAds + filesFailed
    }
  }

  /** The counters before anything was visited. */
  function NoStats(): UnblockStats {
    UnblockStats(0, 0, 0, 0, 0)
  }

  /** What `fs::remove_file` answers for a file's stream path. */
  datatype RemoveOutcome = Removed | RemoveFailed(error: IoError)

  /** One item of the `WalkDir` stream. */
  datatype Entry =
    | FileEntry(path: string, removal: RemoveOutcome)  // a regular file, and what deleting its stream answers
    | OtherEntry                                       // a directory, a symbolic link, ...
    | EnumError(error: WalkError)                      // an entry that could not be read

  /** What `is_file` and `is_dir` say about the target path. */
  datatype Target = RegularFile(removal: RemoveOutcome) | Directory(entries: seq<Entry>) | Neither

  /**
   * The effect of an operation: its result, whether it called
   * `set_requires_elevation`, and the world afterwards.
   */
  datatype Effect<T> = Effect(result: Result<T>, elevate: bool, world: World)

  /** The state of a walk: counters, whether the flag was raised, the world, and the error that ended it early. */
  datatype Walk = Walk(stats: UnblockStats, elevate: bool, world: World, failure: Option<UnblockerError>)

  predicate DeniedRemoval(removal: RemoveOutcome) {
    removal.RemoveFailed? && removal.error.kind == ErrorKind.PermissionDenied
  }

  /** The entries that raise the elevation flag when they are visited. */
  predicate SignalsElevation(entry: Entry) {
    match entry
    case FileEntry(path, removal) => ValidatePath(path).Ok? && IsSafePath(path) && DeniedRemoval(removal)
    case OtherEntry => false
    case EnumError(err) => err.io.Some? && err.io.value.kind == ErrorKind.PermissionDenied
  }

  /** `log_message(...)?` at the end of a branch: a failed log replaces the branch's result. */
  function Reported<T>(logged: Logged, result: Result<T>, elevate: bool): (e: Effect<T>)
    ensures e.world == logged.world && e.elevate == elevate
    ensures e.result == if logged.failure.Some? then Err(Io(logged.failure.value)) else result
  {
    if logged.failure.Some? then Effect(Err(Io(logged.failure.value)), elevate, logged.world)
    else Effect(result, elevate, logged.world)
  }

  /**
   * `unblock_file`. An invalid path fails before anything happens; a path
   * on the denylist is skipped as "no stream"; otherwise one deletion is
   * attempted and its answer decides the result, unless the log line that
   * follows fails. Only a denied deletion raises the flag, and it does so
   * before that log line.
   */
  function UnblockFileSpec(path: string, removal: RemoveOutcome, mode: LogMode, w: World): (e: Effect<bool>)
    ensures ValidatePath(path).Err? ==> e == Effect(Err(ValidatePath(path).error), false, w)
    ensures ValidatePath(path).Ok? && !IsSafePath(path) ==>
      e.result == Ok(false) && !e.elevate && e.world.deletions == w.deletions
    ensures ValidatePath(path).Ok? && IsSafePath(path) ==> e.world.deletions == w.deletions + [path + AdsSuffix]
    ensures e.elevate <==> ValidatePath(path).Ok? && IsSafePath(path) && DeniedRemoval(removal)
    ensures ValidatePath(path).Ok? && IsSafePath(path) && NextLogSucceeds(mode, w) ==>
      && (removal.Removed? ==> e.result == Ok(true))
      && (removal.RemoveFailed? && removal.error.kind == ErrorKind.NotFound ==> e.result == Ok(false))
      && (DeniedRemoval(removal) ==> e.result == Err(UnblockerError.PermissionDenied(path)))
      && (removal.RemoveFailed? && removal.error.kind == ErrorKind.Other ==> e.result == Err(Io(removal.error)))
    ensures ValidatePath(path).Ok? && IsSafePath(path) && !NextLogSucceeds(mode, w) ==>
      e.result == Err(Io(NextLogFailure(w)))
  {
    match ValidatePath(path)
    case Err(err) => Effect(Err(err), false, w)
    case Ok(filePath) =>
      if !IsSafePath(filePath) then
        Effect(Ok(false), false, Warn(mode, "Skipping potentially dangerous system path: " + filePath, w))
      else
        match GetAdsPath(filePath)
        case Err(err) => Effect(Err(err), false, w)
        case Ok(adsPath) =>
          var w1 := w.(deletions := w.deletions + [adsPath]);
          match removal
          case Removed =>
            Reported(Log(mode, "Unblocked: " + filePath, w1), Ok(true), false)
          case RemoveFailed(io) =>
            if io.kind == ErrorKind.NotFound then
              Reported(Log(mode, "No ADS found: " + filePath, w1), Ok(false), false)
            else if io.kind == ErrorKind.PermissionDenied then
              Reported(Log(mode, "Access denied, requires elevation: " + filePath, w1),
                       Err(UnblockerError.PermissionDenied(filePath)), true)
            else
              Reported(Log(mode, "Failed to unblock: " + filePath + " \U{2014} " + io.text, w1), Err(Io(io)), false)
  }

  /**
   * A regular file's mark on the counters: processed, and exactly one of
   * unblocked, without stream or failed (a failure that was a denial also
   * counts as a permission error); nothing else changes.
   */
  predicate OneFileOutcome(before: UnblockStats, after: UnblockStats) {
    var p := before.(filesProcessed := before.filesProcessed + 1);
    || after == p.(filesUnblocked := p.filesUnblocked + 1)
    || after == p.(filesNoAds := p.filesNoAds + 1)
    || after == p.(filesFailed := p.filesFailed + 1)
    || after == p.(filesFailed := p.filesFailed + 1, permissionErrors := p.permissionErrors + 1)
  }

  /**
   * The walk's handling of a regular file: counted as processed, then as
   * unblocked, without stream or failed by what `unblock_file` returns. A
   * denial is also a permission error. Any other error is logged, and only
   * a failure of that log line ends the walk.
   */
  function StepFile(s: Walk, path: string, removal: RemoveOutcome, mode: LogMode): (r: Walk)
    ensures r.elevate <==> s.elevate || SignalsElevation(FileEntry(path, removal))
    ensures r.failure.Some? ==>
      mode == LogFile && r.failure.value.Io? && Some(r.failure.value.io) in s.world.logScript
    ensures r.failure.None? ==> OneFileOutcome(s.stats, r.stats)
    ensures r.failure.None? ==>
      && r.stats.filesProcessed == s.stats.filesProcessed + 1
      && r.stats.Classified() == s.stats.Classified() + 1
      && r.stats.permissionErrors + s.stats.filesFailed <= s.stats.permissionErrors + r.stats.filesFailed
      && (r.stats.permissionErrors > s.stats.permissionErrors ==> r.elevate)
  {
    var e := UnblockFileSpec(path, removal, mode, s.world);
    var r := CountFile(s, path, e, mode);
    UnblockFileConsumesScript(path, removal, mode, s.world);
    ElevationErrorRaisesFlag(path, removal, mode, s.world);
    if r.failure.Some? then
      ScriptedLater(e.world, s.world, Some(r.failure.value.io));
      r
    else r
  }

  /**
   * The counting in the walk's file arm, given what `unblock_file`
   * returned: removed lands in unblocked, no stream in without stream, a
   * denial in failed and in permission errors. Any other error is logged;
   * it counts as failed when that log line is written and ends the walk
   * with the append's error when it fails.
   */
  function CountFile(s: Walk, path: string, e: Effect<bool>, mode: LogMode): (r: Walk)
    ensures r.elevate == (s.elevate || e.elevate)
    ensures var p := s.stats.(filesProcessed := s.stats.filesProcessed + 1);
      && (e.result == Ok(true) ==> r.failure.None? && r.stats == p.(filesUnblocked := p.filesUnblocked + 1))
      && (e.result == Ok(false) ==> r.failure.None? && r.stats == p.(filesNoAds := p.filesNoAds + 1))
      && (e.result.Err? && e.result.error.PermissionDenied? ==>
            r.failure.None? && r.stats == p.(filesFailed := p.filesFailed + 1, permissionErrors := p.permissionErrors + 1))
      && (e.result.Err? && !e.result.error.PermissionDenied? ==>
            (r.failure.None? <==> NextLogSucceeds(mode, e.world))
            && (r.failure.None? ==> r.stats == p.(filesFailed := p.filesFailed + 1)))
    ensures r.failure.Some? ==>
      mode == LogFile && !NextLogSucceeds(mode, e.world) && r.failure == Some(Io(NextLogFailure(e.world))) && Some(NextLogFailure(e.world)) in e.world.logScript
    ensures r.failure.None? ==> OneFileOutcome(s.stats, r.stats)
  {
    var stats := s.stats.(filesProcessed := s.stats.filesProcessed + 1);
    var elevate := s.elevate || e.elevate;
    if e.result.Ok? && e.result.value then
      Walk(stats.(filesUnblocked := stats.filesUnblocked + 1), elevate, e.world, None)
    else if e.result.Ok? then
      Walk(stats.(filesNoAds := stats.filesNoAds + 1), elevate, e.world, None)
    else if e.result.error.PermissionDenied? then
      Walk(stats.(permissionErrors := stats.permissionErrors + 1, filesFailed := stats.filesFailed + 1),
           elevate, e.world, None)
    else
      var logged := Log(mode, "Error processing " + path + ": " + e.result.error.Display(), e.world);
      if logged.failure.Some? then Walk(stats, elevate, logged.world, Some(Io(logged.failure.value)))
      else Walk(stats.(filesFailed := stats.filesFailed + 1), elevate, logged.world, None)
  }


  /** `unblock_file` on a valid path makes exactly one log call, which uses up one scripted append; otherwise none. */
  lemma UnblockFileConsumesScript(path: string, removal: RemoveOutcome, mode: LogMode, w: World)
    ensures var e := UnblockFileSpec(path, removal, mode, w);
      e.world.logScript == if ValidatePath(path).Ok? && mode == LogFile && w.logScript != [] then w.logScript[1..] else w.logScript
    ensures ScriptSuffix(UnblockFileSpec(path, removal, mode, w).world, w)
  {
    var e := UnblockFileSpec(path, removal, mode, w);
    if ValidatePath(path).Ok? && IsSafePath(path) {
      var w1 := w.(deletions := w.deletions + [path + AdsSuffix]);
      assert e.world.logScript == if mode == LogFile && w1.logScript != [] then w1.logScript[1..] else w1.logScript by {
        match removal
        case Removed =>
        case RemoveFailed(io) =>
      }
    }
    UsesAtMostOne(e.world, w);
  }

  /**
   * The walk's handling of an item it could not read: a denial raises the
   * flag and counts as a permission error; every such item counts as
   * failed. A failure of its log line ends the walk.
   */
  function StepEnumError(s: Walk, err: WalkError, mode: LogMode): (r: Walk)
    ensures r.elevate <==> s.elevate || SignalsElevation(EnumError(err))
    ensures r.failure.None? <==> NextLogSucceeds(mode, s.world)
    ensures r.failure.Some? ==>
      mode == LogFile && r.failure.value.Io? && Some(r.failure.value.io) in s.world.logScript
    ensures r.failure.None? ==>
      r.stats == s.stats.(filesFailed := s.stats.filesFailed + 1,
                          permissionErrors := s.stats.permissionErrors + if SignalsElevation(EnumError(err)) then 1 else 0)
    ensures r.failure.None? ==>
      && r.stats.filesProcessed == s.stats.filesProcessed
      && r.stats.Classified() == s.stats.Classified() + 1
      && r.stats.permissionErrors + s.stats.filesFailed <= s.stats.permissionErrors + r.stats.filesFailed
      && (r.stats.permissionErrors > s.stats.permissionErrors ==> r.elevate)
  {
    var errorPath := err.path.GetOr("unknown");
    if err.io.Some? && err.io.value.kind == ErrorKind.PermissionDenied then
      var logged := Log(mode, "Access denied to directory: " + errorPath, s.world);
      if logged.failure.Some? then Walk(s.stats, true, logged.world, Some(Io(logged.failure.value)))
      else
        Walk(s.stats.(permissionErrors := s.stats.permissionErrors + 1, filesFailed := s.stats.filesFailed + 1),
             true, logged.world, None)
    else
      var logged := Log(mode, "Failed to enumerate directory: " + errorPath + " \U{2014} " + err.text, s.world);
      if logged.failure.Some? then Walk(s.stats, s.elevate, logged.world, Some(Io(logged.failure.value)))
      else Walk(s.stats.(filesFailed := s.stats.filesFailed + 1), s.elevate, logged.world, None)
  }

  /**
   * One iteration of the walk in `unblock_directory`. A regular file counts
   * as processed and lands in exactly one of unblocked / no stream /
   * failed; an enumeration error lands in failed only; anything else
   * changes nothing. A permission error is always also a failure. Only a
   * failing log call of the walk itself ends it, and an ended walk stays
   * as it is.
   */
  function StepEntry(s: Walk, entry: Entry, mode: LogMode): (r: Walk)
    ensures s.failure.Some? || entry.OtherEntry? ==> r == s
    ensures s.failure.None? ==> (r.elevate <==> s.elevate || SignalsElevation(entry))
    ensures s.failure.None? && r.failure.Some? ==>
      mode == LogFile && r.failure.value.Io? && Some(r.failure.value.io) in s.world.logScript
    ensures s.failure.None? && r.failure.None? && entry.FileEntry? ==> OneFileOutcome(s.stats, r.stats)
    ensures s.failure.None? && r.failure.None? && entry.EnumError? ==>
      r.stats == s.stats.(filesFailed := s.stats.filesFailed + 1,
                          permissionErrors := s.stats.permissionErrors + if SignalsElevation(entry) then 1 else 0)
    ensures s.failure.None? && r.failure.None? ==>
      && r.stats.filesProcessed == s.stats.filesProcessed + (if entry.FileEntry? then 1 else 0)
      && r.stats.Classified() == s.stats.Classified() + (if entry.OtherEntry? then 0 else 1)
      && r.stats.permissionErrors + s.stats.filesFailed <= s.stats.permissionErrors + r.stats.filesFailed
      && (r.stats.permissionErrors > s.stats.permissionErrors ==> r.elevate)
  {
    if s.failure.Some? then s
    else
      match entry
      case OtherEntry => s
      case FileEntry(path, removal) => StepFile(s, path, removal, mode)
      case EnumError(err) => StepEnumError(s, err, mode)
  }

  /** A step of the walk only uses up scripted appends. */
  lemma StepConsumesScript(s: Walk, entry: Entry, mode: LogMode)
    ensures ScriptSuffix(StepEntry(s, entry, mode).world, s.world)
  {
    if s.failure.Some? || entry.OtherEntry? {
      ScriptSuffixReflexive(s.world);
    } else if entry.FileEntry? {
      StepFileConsumesScript(s, entry.path, entry.removal, mode);
    } else {
      UsesAtMostOne(StepEnumError(s, entry.error, mode).world, s.world);
    }
  }

  lemma StepFileConsumesScript(s: Walk, path: string, removal: RemoveOutcome, mode: LogMode)
    ensures ScriptSuffix(StepFile(s, path, removal, mode).world, s.world)
  {
    var e := UnblockFileSpec(path, removal, mode, s.world);
    var r := StepFile(s, path, removal, mode);
    UnblockFileConsumesScript(path, removal, mode, s.world);
    StepFileWorld(s, path, removal, mode);
    if e.result.Ok? || e.result.error.PermissionDenied? {
      ScriptSuffixReflexive(e.world);
    } else {
      UsesAtMostOne(r.world, e.world);
    }
    ScriptSuffixTransitive(r.world, e.world, s.world);
  }

  /** The world after a file's step: that of `unblock_file`, with one more log call when its error is reported. */
  lemma StepFileWorld(s: Walk, path: string, removal: RemoveOutcome, mode: LogMode)
    ensures var e := UnblockFileSpec(path, removal, mode, s.world);
      StepFile(s, path, removal, mode).world
        == if e.result.Ok? || e.result.error.PermissionDenied? then e.world
           else Log(mode, "Error processing " + path + ": " + e.result.error.Display(), e.world).world
  {
  }

  /** The walk over a stream of entries, one `StepEntry` per entry in order. */
  function WalkEntries(entries: seq<Entry>, mode: LogMode, start: Walk): (r: Walk)
    ensures start.failure.Some? ==> r == start
    decreases |entries|
  {
    if entries == [] then start
    else StepEntry(WalkEntries(entries[..|entries| - 1], mode, start), entries[|entries| - 1], mode)
  }

  function CountFiles(entries: seq<Entry>): nat
    decreases |entries|
  {
    if entries == [] then 0
    else CountFiles(entries[..|entries| - 1]) + (if entries[|entries| - 1].FileEntry? then 1 else 0)
  }

  function CountEnumErrors(entries: seq<Entry>): nat
    decreases |entries|
  {
    if entries == [] then 0
    else CountEnumErrors(entries[..|entries| - 1]) + (if entries[|entries| - 1].EnumError? then 1 else 0)
  }

  predicate AnySignal(entries: seq<Entry>) {
    exists k :: 0 <= k < |entries| && SignalsElevation(entries[k])
  }

  /**
   * `unblock_directory`: validates the root, logs, walks, logs the summary.
   * Statistics are returned only if the walk ran to its end.
   */
  function UnblockDirectorySpec(dirPath: string, entries: seq<Entry>, mode: LogMode, w: World): (e: Effect<UnblockStats>)
    ensures ValidatePath(dirPath).Err? ==> e == Effect(Err(ValidatePath(dirPath).error), false, w)
    ensures e.result.Err? && ValidatePath(dirPath).Ok? ==>
      mode == LogFile && e.result.error.Io? && Some(e.result.error.io) in w.logScript
    ensures ValidatePath(dirPath).Ok? && LogNeverFails(w) ==> e.result.Ok?
    ensures ValidatePath(dirPath).Ok? && !NextLogSucceeds(mode, w) ==>
      e == Effect(Err(Io(NextLogFailure(w))), false, Log(mode, "Processing directory: " + dirPath, w).world)
    ensures ValidatePath(dirPath).Ok? && NextLogSucceeds(mode, w) ==>
      var walk := WalkEntries(entries, mode, Walk(NoStats(), false, Log(mode, "Processing directory: " + dirPath, w).world, None));
      walk.failure.None? && !NextLogSucceeds(mode, walk.world) ==> e.result == Err(Io(NextLogFailure(walk.world)))
  {
    match ValidatePath(dirPath)
    case Err(err) => Effect(Err(err), false, w)
    case Ok(dir) =>
      var opening := Log(mode, "Processing directory: " + dir, w);
      LogConsumesScript(mode, "Processing directory: " + dir, w);
      if opening.failure.Some? then Effect(Err(Io(opening.failure.value)), false, opening.world)
      else
        var walk := WalkEntries(entries, mode, Walk(NoStats(), false, opening.world, None));
        WalkAbortsOnlyOnLogFailure(entries, mode, Walk(NoStats(), false, opening.world, None));
        ScriptSuffixTransitive(walk.world, opening.world, w);
        if walk.failure.Some? then
          ScriptedLater(opening.world, w, Some(walk.failure.value.io));
          FinishWalk(walk, mode)
        else
          LogConsumesScript(mode, walk.stats.Summary(), walk.world);
          if !NextLogSucceeds(mode, walk.world) then
            ScriptedLater(walk.world, w, Some(NextLogFailure(walk.world)));
            FinishWalk(walk, mode)
          else
            FinishWalk(walk, mode)
  }

  /** The end of `unblock_directory`: the error that ended the walk, or the summary line and the statistics. */
  function FinishWalk(walk: Walk, mode: LogMode): (e: Effect<UnblockStats>)
    ensures e.elevate == walk.elevate
    ensures walk.failure.Some? ==> e.result == Err(walk.failure.value)
    ensures walk.failure.None? ==>
      e.result == if NextLogSucceeds(mode, walk.world) then Ok(walk.stats) else Err(Io(NextLogFailure(walk.world)))
  {
    if walk.failure.Some? then Effect(Err(walk.failure.value), walk.elevate, walk.world)
    else Reported(Log(mode, walk.stats.Summary(), walk.world), Ok(walk.stats), walk.elevate)
  }

  /**
   * `process_target`: a regular file is handled strictly (any error other
   * than a denied deletion is the call's error), a directory is walked,
   * and anything else is not found.
   */
  function ProcessTargetSpec(targetPath: string, target: Target, mode: LogMode, w: World): (e: Effect<UnblockStats>)
    ensures target.Neither? ==> e == Effect(Err(PathNotFound(targetPath)), false, w)
    ensures target.Directory? ==> e == UnblockDirectorySpec(targetPath, target.entries, mode, w)
    ensures target.RegularFile? && e.result.Ok? ==>
      && e.result.value.filesProcessed == 1
      && e.result.value.Classified() == 1
      && e.result.value.permissionErrors == e.result.value.filesFailed
      && (e.result.value.permissionErrors == 1 ==> e.elevate)
    ensures target.RegularFile? ==>
      var f := UnblockFileSpec(targetPath, target.removal, mode, w);
      && e.world == f.world
      && e.elevate == f.elevate
      && (f.result == Ok(true) ==> e.result == Ok(UnblockStats(1, 1, 0, 0, 0)))
      && (f.result == Ok(false) ==> e.result == Ok(UnblockStats(1, 0, 1, 0, 0)))
      && (f.result.Err? && f.result.error.PermissionDenied? ==> e.result == Ok(UnblockStats(1, 0, 0, 1, 1)))
      && (f.result.Err? && !f.result.error.PermissionDenied? ==> e.result == Err(f.result.error))
  {
    match target
    case RegularFile(removal) =>
      var f := UnblockFileSpec(targetPath, removal, mode, w);
      ElevationErrorRaisesFlag(targetPath, removal, mode, w);
      FileStats(f)
    case Directory(entries) => UnblockDirectorySpec(targetPath, entries, mode, w)
    case Neither => Effect(Err(PathNotFound(targetPath)), false, w)
  }

  /**
   * The file arm of `process_target`, given what `unblock_file` returned:
   * one counted file per answer, a denial turned into statistics, any
   * other error passed on. What these statistics mean is stated by
   * `FileStatsMeaning`.
   */
  function FileStats(f: Effect<bool>): (e: Effect<UnblockStats>)
    ensures e.world == f.world && e.elevate == f.elevate
    ensures f.result == Ok(true) ==> e.result == Ok(UnblockStats(1, 1, 0, 0, 0))
    ensures f.result == Ok(false) ==> e.result == Ok(UnblockStats(1, 0, 1, 0, 0))
    ensures f.result.Err? && f.result.error.PermissionDenied? ==> e.result == Ok(UnblockStats(1, 0, 0, 1, 1))
    ensures f.result.Err? && !f.result.error.PermissionDenied? ==> e.result == Err(f.result.error)
  {
    if f.result.Ok? && f.result.value then Effect(Ok(UnblockStats(1, 1, 0, 0, 0)), f.elevate, f.world)
    else if f.result.Ok? then Effect(Ok(UnblockStats(1, 0, 1, 0, 0)), f.elevate, f.world)
    else if f.result.error.PermissionDenied? then Effect(Ok(UnblockStats(1, 0, 0, 1, 1)), f.elevate, f.world)
    else Effect(Err(f.result.error), f.elevate, f.world)
  }

  /**
   * The file arm gives statistics exactly when the stream was removed, was
   * absent or its deletion was denied; they count one file with a single
   * outcome, and the unblocked, no-stream and permission-error counters
   * each say which of the three answers it was. Any other error is passed
   * on. The world and the flag are left as they are.
   */
  lemma FileStatsMeaning(f: Effect<bool>)
    ensures var e := FileStats(f);
      && e.world == f.world && e.elevate == f.elevate
      && (e.result.Ok? <==> f.result.Ok? || f.result.error.PermissionDenied?)
      && (e.result.Err? ==> e.result == Err(f.result.error))
      && (e.result.Ok? ==>
            && OneFileOutcome(NoStats(), e.result.value)
            && (e.result.value.filesUnblocked == 1 <==> f.result == Ok(true))
            && (e.result.value.filesNoAds == 1 <==> f.result == Ok(false))
            && (e.result.value.permissionErrors == 1 <==> f.result.Err?))
  {
  }

  // ---------------------------------------------------------------------
  // Properties of the walk
  // ---------------------------------------------------------------------

  /** Once the walk has ended early, the remaining entries change nothing. */
  lemma {:induction false} AbortIsFinal(entries: seq<Entry>, k: nat, mode: LogMode, start: Walk)
    requires k <= |entries|
    requires WalkEntries(entries[..k], mode, start).failure.Some?
    ensures WalkEntries(entries, mode, start) == WalkEntries(entries[..k], mode, start)
    decreases |entries|
  {
    if k < |entries| {
      var prefix := entries[..|entries| - 1];
      assert prefix[..k] == entries[..k];
      AbortIsFinal(prefix, k, mode, start);
    } else {
      assert entries[..k] == entries;
    }
  }

  /** Only a failing log call ends a walk early, so a walk never ends early without a log file. */
  lemma {:induction false} WalkAbortsOnlyOnLogFailure(entries: seq<Entry>, mode: LogMode, start: Walk)
    requires start.failure.None?
    ensures var r := WalkEntries(entries, mode, start);
      && ScriptSuffix(r.world, start.world)
      && (r.failure.Some? ==>
            mode == LogFile && r.failure.value.Io? && Some(r.failure.value.io) in start.world.logScript)
    decreases |entries|
  {
    if entries != [] {
      var prefix := entries[..|entries| - 1];
      WalkAbortsOnlyOnLogFailure(prefix, mode, start);
      var mid := WalkEntries(prefix, mode, start);
      var r := StepEntry(mid, entries[|entries| - 1], mode);
      StepConsumesScript(mid, entries[|entries| - 1], mode);
      ScriptSuffixTransitive(r.world, mid.world, start.world);
      if r.failure.Some? && mid.failure.None? {
        ScriptedLater(mid.world, start.world, Some(r.failure.value.io));
      }
    } else {
      ScriptSuffixReflexive(start.world);
    }
  }

  /**
   * A walk that runs to its end has counted every regular file as
   * processed, has recorded exactly one outcome per regular file and per
   * enumeration error, and has counted no more permission errors than
   * failures.
   */
  lemma {:induction false} WalkCounters(entries: seq<Entry>, mode: LogMode, start: Walk)
    requires start.failure.None?
    ensures var r := WalkEntries(entries, mode, start);
      r.failure.None? ==>
        && r.stats.filesProcessed == start.stats.filesProcessed + CountFiles(entries)
        && r.stats.Classified() == start.stats.Classified() + CountFiles(entries) + CountEnumErrors(entries)
        && r.stats.permissionErrors + start.stats.filesFailed <= start.stats.permissionErrors + r.stats.filesFailed
        && (r.stats.permissionErrors > start.stats.permissionErrors ==> r.elevate)
    decreases |entries|
  {
    if entries != [] {
      var prefix := entries[..|entries| - 1];
      WalkCounters(prefix, mode, start);
      var mid := WalkEntries(prefix, mode, start);
      if mid.failure.None? && mid.stats.permissionErrors > start.stats.permissionErrors {
        // A raised flag stays raised.
        assert mid.elevate;
      }
    }
  }

  /**
   * The flag is raised by a walk exactly when some visited entry signals
   * it: never without such an entry, always when the walk runs to its end
   * over one, and it is never lowered.
   */
  lemma {:induction false} WalkElevation(entries: seq<Entry>, mode: LogMode, start: Walk)
    requires start.failure.None?
    ensures var r := WalkEntries(entries, mode, start);
      && (start.elevate ==> r.elevate)
      && (r.elevate ==> start.elevate || AnySignal(entries))
      && (r.failure.None? ==> (r.elevate <==> start.elevate || AnySignal(entries)))
    decreases |entries|
  {
    if entries != [] {
      var prefix := entries[..|entries| - 1];
      WalkElevation(prefix, mode, start);
      AnySignalOfLast(entries);
    }
  }

  lemma AnySignalOfLast(entries: seq<Entry>)
    requires entries != []
    ensures AnySignal(entries) <==> AnySignal(entries[..|entries| - 1]) || SignalsElevation(entries[|entries| - 1])
  {
    var n := |entries|;
    var prefix := entries[..n - 1];
    if AnySignal(prefix) {
      var k :| 0 <= k < n - 1 && SignalsElevation(prefix[k]);
      assert entries[k] == prefix[k];
    }
    if AnySignal(entries) {
      var k :| 0 <= k < n && SignalsElevation(entries[k]);
      if k < n - 1 {
        assert prefix[k] == entries[k];
      }
    }
  }

  /**
   * What a directory run that succeeds returns: its counters satisfy the
   * classification invariant over the walk's entries, and the flag was
   * raised exactly when a visited entry was denied.
   */
  lemma DirectoryStatistics(dirPath: string, entries: seq<Entry>, mode: LogMode, w: World)
    ensures var e := UnblockDirectorySpec(dirPath, entries, mode, w);
      e.result.Ok? ==>
        && e.result.value.filesProcessed == CountFiles(entries)
        && e.result.value.Classified() == e.result.value.filesProcessed + CountEnumErrors(entries)
        && e.result.value.permissionErrors <= e.result.value.filesFailed
        && (e.result.value.permissionErrors > 0 ==> e.elevate)
        && (e.elevate <==> AnySignal(entries))
  {
    var e := UnblockDirectorySpec(dirPath, entries, mode, w);
    if e.result.Ok? {
      var start := Walk(NoStats(), false, Log(mode, "Processing directory: " + dirPath, w).world, None);
      var walk := WalkEntries(entries, mode, start);
      assert walk.failure.None? && e.result.value == walk.stats && e.elevate == walk.elevate by {
        DirectoryOutcome(dirPath, entries, mode, w);
      }
      FreshWalkStatistics(entries, mode, start);
    }
  }

  /** The counters and the flag of a walk that starts from nothing and runs to the end. */
  lemma FreshWalkStatistics(entries: seq<Entry>, mode: LogMode, start: Walk)
    requires start.stats == NoStats() && !start.elevate && start.failure.None?
    ensures var walk := WalkEntries(entries, mode, start);
      walk.failure.None? ==>
        && walk.stats.filesProcessed == CountFiles(entries)
        && walk.stats.Classified() == CountFiles(entries) + CountEnumErrors(entries)
        && walk.stats.permissionErrors <= walk.stats.filesFailed
        && (walk.stats.permissionErrors > 0 ==> walk.elevate)
        && (walk.elevate <==> AnySignal(entries))
  {
    WalkCounters(entries, mode, start);
    WalkElevation(entries, mode, start);
  }

  /**
   * Once the root is valid and the opening line is written, the directory
   * run ends with the error that ended the walk, or else with the error of
   * the summary line, or else with what the walk counted; the flag is the
   * walk's in every case. A successful run therefore returns its walk's
   * counters after a written summary.
   */
  lemma DirectoryOutcome(dirPath: string, entries: seq<Entry>, mode: LogMode, w: World)
    ensures var e := UnblockDirectorySpec(dirPath, entries, mode, w);
      var start := Walk(NoStats(), false, Log(mode, "Processing directory: " + dirPath, w).world, None);
      var walk := WalkEntries(entries, mode, start);
      e.result.Ok? ==>
        && walk.failure.None? && NextLogSucceeds(mode, walk.world)
        && e.result.value == walk.stats && e.elevate == walk.elevate
    ensures var e := UnblockDirectorySpec(dirPath, entries, mode, w);
      var start := Walk(NoStats(), false, Log(mode, "Processing directory: " + dirPath, w).world, None);
      var walk := WalkEntries(entries, mode, start);
      ValidatePath(dirPath).Ok? && NextLogSucceeds(mode, w) ==>
        && e.elevate == walk.elevate
        && (walk.failure.Some? ==> e.result == Err(walk.failure.value))
        && (walk.failure.None? && !NextLogSucceeds(mode, walk.world) ==> e.result == Err(Io(NextLogFailure(walk.world))))
        && (walk.failure.None? && NextLogSucceeds(mode, walk.world) ==> e.result == Ok(walk.stats))
  {
  }

  /**
   * Without a log file nothing can end a directory run early: it fails
   * exactly when the root path is invalid, whatever the entries hold.
   */
  lemma DirectoryFailsOnlyOnInvalidRoot(dirPath: string, entries: seq<Entry>, mode: LogMode, w: World)
    requires mode != LogFile
    ensures UnblockDirectorySpec(dirPath, entries, mode, w).result.Ok? <==> ValidatePath(dirPath).Ok?
  {
  }

  /**
   * Every error `unblock_file` returns that calls for elevation goes
   * together with a raised flag; the flag can be raised with an I/O error
   * instead, when the log call after the denied deletion fails.
   */
  lemma ElevationErrorRaisesFlag(path: string, removal: RemoveOutcome, mode: LogMode, w: World)
    ensures var e := UnblockFileSpec(path, removal, mode, w);
      e.result.Err? && e.result.error.RequiresElevation() ==> e.elevate && e.result == Err(UnblockerError.PermissionDenied(path))
  {
  }

  /**
   * The single-file dispatch, case by case, when its log call succeeds:
   * removed, no stream and denied give statistics (a denial counted as a
   * failed permission error, with the flag raised); any other deletion
   * error is the call's error.
   */
  lemma SingleFileOutcomes(targetPath: string, removal: RemoveOutcome, mode: LogMode, w: World)
    requires ValidatePath(targetPath).Ok? && IsSafePath(targetPath) && NextLogSucceeds(mode, w)
    ensures var e := ProcessTargetSpec(targetPath, RegularFile(removal), mode, w);
      && (removal.Removed? ==> e.result == Ok(UnblockStats(1, 1, 0, 0, 0)))
      && (removal.RemoveFailed? && removal.error.kind == ErrorKind.NotFound ==> e.result == Ok(UnblockStats(1, 0, 1, 0, 0)))
      && (DeniedRemoval(removal) ==> e.result == Ok(UnblockStats(1, 0, 0, 1, 1)) && e.elevate)
      && (removal.RemoveFailed? && removal.error.kind == ErrorKind.Other ==> e.result == Err(Io(removal.error)))
  {
    var f := UnblockFileSpec(targetPath, removal, mode, w);
    match removal
    case Removed =>
      assert f.result == Ok(true);
    case RemoveFailed(err) =>
      if err.kind == ErrorKind.NotFound {
        assert f.result == Ok(false);
      } else if err.kind == ErrorKind.PermissionDenied {
        assert f.result == Err(UnblockerError.PermissionDenied(targetPath));
      } else {
        assert f.result == Err(Io(err));
      }
  }

  /**
   * A file target is handled strictly: an invalid path is the call's error
   * with no effect, and on a valid, non-denylisted path a failed log append
   * is the call's I/O error, whatever the deletion answered.
   */
  lemma FileTargetErrors(targetPath: string, removal: RemoveOutcome, mode: LogMode, w: World)
    ensures var e := ProcessTargetSpec(targetPath, RegularFile(removal), mode, w);
      && (ValidatePath(targetPath).Err? ==> e == Effect(Err(ValidatePath(targetPath).error), false, w))
      && (ValidatePath(targetPath).Ok? && IsSafePath(targetPath) && !NextLogSucceeds(mode, w) ==>
            e.result == Err(Io(NextLogFailure(w))))
  {
  }

  /** Appending an entry to the stream adds one step at the end of the walk. */
  lemma WalkSnoc(prefix: seq<Entry>, entry: Entry, mode: LogMode, start: Walk)
    ensures WalkEntries(prefix + [entry], mode, start) == StepEntry(WalkEntries(prefix, mode, start), entry, mode)
  {
    assert (prefix + [entry])[..|prefix|] == prefix;
  }

  /** The walk over the first `i + 1` entries is one step beyond the walk over the first `i`. */
  lemma WalkNext(entries: seq<Entry>, i: nat, mode: LogMode, start: Walk)
    requires i < |entries|
    ensures WalkEntries(entries[..i + 1], mode, start) == StepEntry(WalkEntries(entries[..i], mode, start), entries[i], mode)
  {
    WalkSnoc(entries[..i], entries[i], mode, start);
    assert entries[..i] + [entries[i]] == entries[..i + 1];
  }

  /** Without a log file, a directory run returns what its walk counted. */
  lemma DirectoryReturnsWalk(dirPath: string, entries: seq<Entry>, mode: LogMode, w: World)
    requires ValidatePath(dirPath).Ok? && mode != LogFile
    ensures var walk := WalkEntries(entries, mode, Walk(NoStats(), false, Log(mode, "Processing directory: " + dirPath, w).world, None));
      var e := UnblockDirectorySpec(dirPath, entries, mode, w);
      walk.failure.None? && e.result == Ok(walk.stats) && e.elevate == walk.elevate
  {
    WalkAbortsOnlyOnLogFailure(entries, mode, Walk(NoStats(), false, Log(mode, "Processing directory: " + dirPath, w).world, None));
  }

  /**
   * An entry that leaves nothing to unblock: not a regular file, or a
   * regular file with a valid path that is on the denylist or has no
   * Zone.Identifier stream.
   */
  predicate NothingToUnblock(entry: Entry) {
    entry.OtherEntry?
    || (entry.FileEntry? && ValidatePath(entry.path).Ok?
        && (!IsSafePath(entry.path) || (entry.removal.RemoveFailed? && entry.removal.error.kind == ErrorKind.NotFound)))
  }

  /** Visiting an entry with nothing to unblock, when the log cannot fail, counts a file as processed and without stream. */
  lemma NothingToUnblockStep(s: Walk, entry: Entry, mode: LogMode)
    requires s.failure.None? && mode != LogFile && NothingToUnblock(entry)
    ensures var r := StepEntry(s, entry, mode);
      && r.failure.None? && r.elevate == s.elevate
      && r.stats.filesProcessed == s.stats.filesProcessed + (if entry.FileEntry? then 1 else 0)
      && r.stats.filesNoAds == s.stats.filesNoAds + (if entry.FileEntry? then 1 else 0)
      && r.stats.filesUnblocked == s.stats.filesUnblocked
      && r.stats.filesFailed == s.stats.filesFailed
      && r.stats.permissionErrors == s.stats.permissionErrors
  {
  }

  /**
   * A walk over entries with nothing to unblock, without a log file,
   * counts every regular file as processed and without stream, records
   * nothing else, and leaves the flag as it was.
   */
  lemma {:induction false} WalkWithNothingToUnblock(entries: seq<Entry>, mode: LogMode, start: Walk)
    requires start.failure.None? && mode != LogFile
    requires forall k :: 0 <= k < |entries| ==> NothingToUnblock(entries[k])
    ensures var r := WalkEntries(entries, mode, start);
      && r.failure.None? && r.elevate == start.elevate
      && r.stats == start.stats.(filesProcessed := start.stats.filesProcessed + CountFiles(entries),
                                 filesNoAds := start.stats.filesNoAds + CountFiles(entries))
    decreases |entries|
  {
    if entries != [] {
      var prefix := entries[..|entries| - 1];
      assert forall k :: 0 <= k < |prefix| ==> prefix[k] == entries[k];
      WalkWithNothingToUnblock(prefix, mode, start);
      NothingToUnblockStep(WalkEntries(prefix, mode, start), entries[|entries| - 1], mode);
    }
  }

  /**
   * A directory whose regular files carry no Zone.Identifier stream (or
   * sit on the denylist) gives n processed and n without stream for its n
   * files, nothing unblocked or failed, and no elevation request.
   */
  lemma DirectoryWithNothingToUnblock(dir: string, entries: seq<Entry>, mode: LogMode, w: World)
    requires ValidatePath(dir).Ok? && mode != LogFile
    requires forall k :: 0 <= k < |entries| ==> NothingToUnblock(entries[k])
    ensures var e := UnblockDirectorySpec(dir, entries, mode, w);
      e.result == Ok(UnblockStats(CountFiles(entries), 0, CountFiles(entries), 0, 0)) && !e.elevate
  {
    var start := Walk(NoStats(), false, Log(mode, "Processing directory: " + dir, w).world, None);
    var walk := WalkEntries(entries, mode, start);
    assert !walk.elevate && walk.stats == UnblockStats(CountFiles(entries), 0, CountFiles(entries), 0, 0) by {
      WalkWithNothingToUnblock(entries, mode, start);
    }
    assert UnblockDirectorySpec(dir, entries, mode, w).result == Ok(walk.stats)
        && UnblockDirectorySpec(dir, entries, mode, w).elevate == walk.elevate by {
      DirectoryReturnsWalk(dir, entries, mode, w);
    }
  }

  // ---------------------------------------------------------------------
  // The summary line
  // ---------------------------------------------------------------------

  function StripPrefix(prefix: string, s: string): Option<string> {
    if prefix <= s then Some(s[|prefix|..]) else None
  }

  /** A fixed text followed by a number; gives the number and what follows it. */
  function Field(text: string, s: string): Option<(nat, string)> {
    var rest :- StripPrefix(text, s);
    ReadNat(rest)
  }

  /** Reads the five counters back from a summary line. */
  function ParseSummary(s: string): Option<UnblockStats> {
    var p :- Field("Processed ", s);
    var u :- Field(" files: ", p.1);
    var n :- Field(" unblocked, ", u.1);
    var f :- Field(" had no ADS, ", n.1);
    var q :- Field(" failed (", f.1);
    if q.1 == " permission errors)" then Some(UnblockStats(p.0, u.0, n.0, f.0, q.0)) else None
  }

  /** One "text, number" step of reading a summary. */
  lemma ReadField(text: string, n: nat, rest: string)
    requires rest != [] && rest[0] == ' '
    ensures Field(text, text + (NatToString(n) + rest)) == Some((n, rest))
  {
    assert (text + (NatToString(n) + rest))[|text|..] == NatToString(n) + rest;
    ReadNatAfterNatToString(n, rest);
  }

  /**
   * The summary names the five counters in the fixed order processed,
   * unblocked, no stream, failed, permission errors: reading it back gives
   * exactly the statistics it was made from.
   */
  lemma SummaryRoundTrip(stats: UnblockStats)
    ensures ParseSummary(stats.Summary()) == Some(stats)
  {
    var tail5 := " permission errors)";
    var tail4 := NatToString(stats.permissionErrors) + tail5;
    var tail3 := NatToString(stats.filesFailed) + (" failed (" + tail4);
    var tail2 := NatToString(stats.filesNoAds) + (" had no ADS, " + tail3);
    var tail1 := NatToString(stats.filesUnblocked) + (" unblocked, " + tail2);
    assert stats.Summary() == "Processed " + (NatToString(stats.filesProcessed) + (" files: " + tail1));
    ReadField("Processed ", stats.filesProcessed, " files: " + tail1);
    ReadField(" files: ", stats.filesUnblocked, " unblocked, " + tail2);
    ReadField(" unblocked, ", stats.filesNoAds, " had no ADS, " + tail3);
    ReadField(" had no ADS, ", stats.filesFailed, " failed (" + tail4);
    ReadField(" failed (", stats.permissionErrors, tail5);
  }

  /** The counters of the summary test: ten processed, five unblocked, three without stream, two failed, one denied. */
  lemma SummaryExample()
    ensures UnblockStats(10, 5, 3, 2, 1).Summary()
      == "Processed " + ("10" + (" files: " + ("5" + (" unblocked, " + ("3" + (" had no ADS, " + ("2" + (" failed ("
         + ("1" + " permission errors)")))))))))
  {
    assert NatToString(10) == "10";
    assert NatToString(5) == "5";
    assert NatToString(3) == "3";
    assert NatToString(2) == "2";
    assert NatToString(1) == "1";
  }

  // ---------------------------------------------------------------------
  // The methods that update the shared configuration in place
  // ---------------------------------------------------------------------

  /** `unblock_file`, raising `config.requires_elevation` in place on a denied deletion. */
  method UnblockFile(path: string, removal: RemoveOutcome, config: Config, w: World)
    returns (r: Result<bool>, w': World)
    modifies config`requiresElevation
    ensures var e := UnblockFileSpec(path, removal, config.Mode(), w);
      r == e.result && w' == e.world && config.requiresElevation == (old(config.requiresElevation) || e.elevate)
  {
    w' := w;
    var filePath :- ValidatePath(path);
    if !IsSafePath(filePath) {
      w' := Warn(config.Mode(), "Skipping potentially dangerous system path: " + filePath, w');
      return Ok(false), w';
    }
    // `get_ads_path` validates the path again; it has just passed, so this cannot fail.
    var adsPath := GetAdsPath(filePath).value;
    w' := w'.(deletions := w'.deletions + [adsPath]);
    var logged: Logged;
    match removal {
      case Removed =>
        logged := Log(config.Mode(), "Unblocked: " + filePath, w');
        r := Ok(true);
      case RemoveFailed(io) =>
        if io.kind == ErrorKind.NotFound {
          logged := Log(config.Mode(), "No ADS found: " + filePath, w');
          r := Ok(false);
        } else if io.kind == ErrorKind.PermissionDenied {
          config.SetRequiresElevation();
          logged := Log(config.Mode(), "Access denied, requires elevation: " + filePath, w');
          r := Err(UnblockerError.PermissionDenied(filePath));
        } else {
          logged := Log(config.Mode(), "Failed to unblock: " + filePath + " \U{2014} " + io.text, w');
          r := Err(Io(io));
        }
    }
    w' := logged.world;
    if logged.failure.Some? {
      r := Err(Io(logged.failure.value));
    }
  }

  /** The file arm of the walk loop in `unblock_directory`, raising the shared flag in place on a denial. */
  method VisitFile(path: string, removal: RemoveOutcome, config: Config, stats: UnblockStats, w: World, ghost elevate: bool)
    returns (stats': UnblockStats, w': World, failure: Option<UnblockerError>)
    modifies config`requiresElevation
    ensures StepFile(Walk(stats, elevate, w, None), path, removal, config.Mode())
      == Walk(stats', elevate || SignalsElevation(FileEntry(path, removal)), w', failure)
    ensures config.requiresElevation == (old(config.requiresElevation) || SignalsElevation(FileEntry(path, removal)))
  {
    var mode := config.Mode();
    ghost var e := UnblockFileSpec(path, removal, mode, w);
    ghost var s := Walk(stats, elevate, w, None);
    var outcome: Result<bool>;
    outcome, w' := UnblockFile(path, removal, config, w);
    assert StepFile(s, path, removal, mode) == CountFile(s, path, e, mode);
    stats', w', failure := RecordFile(path, outcome, mode, stats, w', s, e);
  }

  /** The counting half of the file arm: files the outcome of one `unblock_file` call. */
  method RecordFile(path: string, outcome: Result<bool>, mode: LogMode, stats: UnblockStats, w: World,
                    ghost s: Walk, ghost e: Effect<bool>)
    returns (stats': UnblockStats, w': World, failure: Option<UnblockerError>)
    requires s.stats == stats && e.result == outcome && e.world == w
    ensures CountFile(s, path, e, mode) == Walk(stats', s.elevate || e.elevate, w', failure)
  {
    stats' := stats.(filesProcessed := stats.filesProcessed + 1);
    w', failure := w, None;
    if outcome.Ok? && outcome.value {
      stats' := stats'.(filesUnblocked := stats'.filesUnblocked + 1);
    } else if outcome.Ok? {
      stats' := stats'.(filesNoAds := stats'.filesNoAds + 1);
    } else if outcome.error.PermissionDenied? {
      stats' := stats'.(permissionErrors := stats'.permissionErrors + 1, filesFailed := stats'.filesFailed + 1);
    } else {
      var logged := Log(mode, "Error processing " + path + ": " + outcome.error.Display(), w);
      w' := logged.world;
      if logged.failure.Some? {
        failure := Some(Io(logged.failure.value));
      } else {
        stats' := stats'.(filesFailed := stats'.filesFailed + 1);
      }
    }
  }

  /** The error arm of the walk loop in `unblock_directory`, raising the shared flag in place on a denial. */
  method VisitEnumError(err: WalkError, config: Config, stats: UnblockStats, w: World, ghost elevate: bool)
    returns (stats': UnblockStats, w': World, failure: Option<UnblockerError>)
    modifies config`requiresElevation
    ensures StepEnumError(Walk(stats, elevate, w, None), err, config.Mode())
      == Walk(stats', elevate || SignalsElevation(EnumError(err)), w', failure)
    ensures config.requiresElevation == (old(config.requiresElevation) || SignalsElevation(EnumError(err)))
  {
    stats', failure := stats, None;
    var errorPath := err.path.GetOr("unknown");
    if err.io.Some? && err.io.value.kind == ErrorKind.PermissionDenied {
      config.SetRequiresElevation();
      var logged := Log(config.Mode(), "Access denied to directory: " + errorPath, w);
      w' := logged.world;
      if logged.failure.Some? {
        return stats', w', Some(Io(logged.failure.value));
      }
      stats' := stats'.(permissionErrors := stats'.permissionErrors + 1);
    } else {
      var logged := Log(config.Mode(), "Failed to enumerate directory: " + errorPath + " \U{2014} " + err.text, w);
      w' := logged.world;
      if logged.failure.Some? {
        return stats', w', Some(Io(logged.failure.value));
      }
    }
    stats' := stats'.(filesFailed := stats'.filesFailed + 1);
  }

  /** One iteration of the walk loop: dispatches the entry to its visit. */
  method VisitEntry(entry: Entry, config: Config, stats: UnblockStats, w: World, ghost elevate: bool)
    returns (stats': UnblockStats, w': World, failure: Option<UnblockerError>)
    modifies config`requiresElevation
    ensures StepEntry(Walk(stats, elevate, w, None), entry, config.Mode())
      == Walk(stats', elevate || SignalsElevation(entry), w', failure)
    ensures config.requiresElevation == (old(config.requiresElevation) || SignalsElevation(entry))
  {
    match entry {
      case OtherEntry =>
        stats', w', failure := stats, w, None;
      case FileEntry(path, removal) =>
        stats', w', failure := VisitFile(path, removal, config, stats, w, elevate);
      case EnumError(err) =>
        stats', w', failure := VisitEnumError(err, config, stats, w, elevate);
    }
  }

  /** `unblock_directory`: validates the root, logs, runs the walk loop, logs the summary. */
  method UnblockDirectory(dirPath: string, entries: seq<Entry>, config: Config, w: World)
    returns (r: Result<UnblockStats>, w': World)
    modifies config`requiresElevation
    ensures var e := UnblockDirectorySpec(dirPath, entries, config.Mode(), w);
      r == e.result && w' == e.world && config.requiresElevation == (old(config.requiresElevation) || e.elevate)
  {
    w' := w;
    var dir :- ValidatePath(dirPath);
    var mode := config.Mode();
    var opening := Log(mode, "Processing directory: " + dir, w');
    w' := opening.world;
    if opening.failure.Some? {
      return Err(Io(opening.failure.value)), w';
    }
    var stats, failure;
    stats, w', failure := WalkLoop(entries, config, NoStats(), w');
    if failure.Some? {
      return Err(failure.value), w';
    }
    var closing := Log(mode, stats.Summary(), w');
    w' := closing.world;
    if closing.failure.Some? {
      return Err(Io(closing.failure.value)), w';
    }
    return Ok(stats), w';
  }

  /**
   * The `for entry in WalkDir::new(dir_path)` loop: visits the entries in
   * order, updating the counters step by step, and stops at the first
   * error a visit propagates.
   */
  method WalkLoop(entries: seq<Entry>, config: Config, initial: UnblockStats, w: World)
    returns (stats: UnblockStats, w': World, failure: Option<UnblockerError>)
    modifies config`requiresElevation
    ensures var walk := WalkEntries(entries, config.Mode(), Walk(initial, false, w, None));
      && stats == walk.stats && w' == walk.world && failure == walk.failure
      && config.requiresElevation == (old(config.requiresElevation) || walk.elevate)
  {
    var mode := config.Mode();
    stats, w', failure := initial, w, None;
    ghost var start := Walk(initial, false, w, None);
    ghost var elevate := false;
    var i := 0;
    while i < |entries|
      invariant 0 <= i <= |entries|
      invariant WalkEntries(entries[..i], mode, start) == Walk(stats, elevate, w', None)
      invariant config.requiresElevation == (old(config.requiresElevation) || elevate)
      invariant failure.None?
    {
      ghost var before := Walk(stats, elevate, w', None);
      stats, w', failure := VisitEntry(entries[i], config, stats, w', elevate);
      elevate := elevate || SignalsElevation(entries[i]);
      WalkNext(entries, i, mode, start);
      if failure.Some? {
        AbortIsFinal(entries, i + 1, mode, start);
        return;
      }
      i := i + 1;
    }
    assert entries[..i] == entries;
  }

  /** `process_target`: fills a fresh statistics record for a file, delegates a directory. */
  method ProcessTarget(targetPath: string, target: Target, config: Config, w: World)
    returns (r: Result<UnblockStats>, w': World)
    modifies config`requiresElevation
    ensures var e := ProcessTargetSpec(targetPath, target, config.Mode(), w);
      r == e.result && w' == e.world && config.requiresElevation == (old(config.requiresElevation) || e.elevate)
  {
    match target {
      case RegularFile(removal) =>
        var stats := NoStats().(filesProcessed := 1);
        var outcome: Result<bool>;
        outcome, w' := UnblockFile(targetPath, removal, config, w);
        if outcome == Ok(true) {
          stats := stats.(filesUnblocked := 1);
        } else if outcome == Ok(false) {
          stats := stats.(filesNoAds := 1);
        } else if outcome.error.PermissionDenied? {
          stats := stats.(permissionErrors := 1, filesFailed := 1);
        } else {
          return Err(outcome.error), w';
        }
        r := Ok(stats);
      case Directory(entries) =>
        r, w' := UnblockDirectory(targetPath, entries, config, w);
      case Neither =>
        r, w' := Err(PathNotFound(targetPath)), w;
    }
  }
}
