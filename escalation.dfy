/**
 * The end of a run (rust/src/main.rs:105-113): after the dispatch, the
 * summary is logged, and the program relaunches itself with administrator
 * rights exactly when the dispatch raised `requires_elevation` and the
 * process is not already elevated.
 */
module Escalation {
  import opened Wrappers
  import opened Errors
  import opened Host
  import opened PathUtils
  import opened Configuration
  import opened Unblocker

  /** The rule at rust/src/main.rs:110. */
  predicate ShouldRelaunch(requiresElevation: bool, isElevated: bool) {
    requiresElevation && !isElevated
  }

  /** What `run` ends with: `Ok(true)` when it goes on to call `relaunch_as_admin`, and the world afterwards. */
  datatype RunOutcome = RunOutcome(result: Result<bool>, world: World)

  const RetryNotice: string :=
    "Some files could not be unblocked due to permission issues. Retrying with admin privileges..."

  /**
   * `run` from the dispatch on, for a configuration whose flag starts
   * lowered. `elevated` is what `is_elevated` answers; the `&&` of the rule
   * asks it only when the flag is raised.
   */
  function RunSpec(targetPath: string, target: Target, mode: LogMode, w: World, elevated: Result<bool>): (o: RunOutcome)
    ensures ProcessTargetSpec(targetPath, target, mode, w).result.Err? ==>
      o == RunOutcome(Err(ProcessTargetSpec(targetPath, target, mode, w).result.error), ProcessTargetSpec(targetPath, target, mode, w).world)
  {
    var e := ProcessTargetSpec(targetPath, target, mode, w);
    if e.result.Err? then RunOutcome(Err(e.result.error), e.world)
    else
      var done := Log(mode, "Operation completed. " + e.result.value.Summary(), e.world);
      if done.failure.Some? then RunOutcome(Err(Io(done.failure.value)), done.world)
      else if !e.elevate then RunOutcome(Ok(false), done.world)
      else if elevated.Err? then RunOutcome(Err(elevated.error), done.world)
      else if !ShouldRelaunch(e.elevate, elevated.value) then RunOutcome(Ok(false), done.world)
      else
        var notice := Log(mode, RetryNotice, done.world);
        if notice.failure.Some? then RunOutcome(Err(Io(notice.failure.value)), notice.world)
        else RunOutcome(Ok(true), notice.world)
  }

  /**
   * A relaunch follows the rule: the dispatch succeeded and raised the
   * flag, and the process reported that it is not elevated. An elevated
   * process therefore never relaunches.
   */
  lemma RelaunchFollowsRule(targetPath: string, target: Target, mode: LogMode, w: World, elevated: Result<bool>)
    ensures var e := ProcessTargetSpec(targetPath, target, mode, w);
      RunSpec(targetPath, target, mode, w, elevated).result == Ok(true) <==>
        && e.result.Ok?
        && elevated.Ok?
        && ShouldRelaunch(e.elevate, elevated.value)
        && Log(mode, "Operation completed. " + e.result.value.Summary(), e.world).failure.None?
        && NextLogSucceeds(mode, Log(mode, "Operation completed. " + e.result.value.Summary(), e.world).world)
  {
  }

  /**
   * Without a log file, a run whose statistics report permission errors,
   * in a process that is not elevated, goes on to relaunch: the permission
   * errors in the statistics always come with the raised flag.
   */
  lemma PermissionErrorsLeadToRelaunch(targetPath: string, target: Target, mode: LogMode, w: World)
    requires mode != LogFile
    ensures var e := ProcessTargetSpec(targetPath, target, mode, w);
      e.result.Ok? && e.result.value.permissionErrors > 0 ==>
        RunSpec(targetPath, target, mode, w, Ok(false)).result == Ok(true)
  {
    var e := ProcessTargetSpec(targetPath, target, mode, w);
    if e.result.Ok? && e.result.value.permissionErrors > 0 {
      if target.Directory? {
        DirectoryStatistics(targetPath, target.entries, mode, w);
      }
      assert e.elevate;
      RelaunchFollowsRule(targetPath, target, mode, w, Ok(false));
    }
  }

  /**
   * A relaunch has a cause: a denied stream deletion of the target file, or
   * a denied deletion or a denied directory read in the walk. A missing
   * target never leads to one.
   */
  lemma RelaunchHasCause(targetPath: string, target: Target, mode: LogMode, w: World, elevated: Result<bool>)
    ensures RunSpec(targetPath, target, mode, w, elevated).result == Ok(true) ==>
      && !target.Neither?
      && ValidatePath(targetPath).Ok?
      && (target.RegularFile? ==> IsSafePath(targetPath) && DeniedRemoval(target.removal))
      && (target.Directory? ==> AnySignal(target.entries))
  {
    RelaunchFollowsRule(targetPath, target, mode, w, elevated);
    FlagHasCause(targetPath, target, mode, w);
  }

  /** The dispatch raises the flag only for a valid target with a denied item. */
  lemma FlagHasCause(targetPath: string, target: Target, mode: LogMode, w: World)
    ensures ProcessTargetSpec(targetPath, target, mode, w).elevate ==>
      && !target.Neither?
      && ValidatePath(targetPath).Ok?
      && (target.RegularFile? ==> IsSafePath(targetPath) && DeniedRemoval(target.removal))
      && (target.Directory? ==> AnySignal(target.entries))
  {
    if target.Directory? && ValidatePath(targetPath).Ok? {
      var opening := Log(mode, "Processing directory: " + targetPath, w);
      if opening.failure.None? {
        WalkElevation(target.entries, mode, Walk(NoStats(), false, opening.world, None));
      }
    }
  }

  /**
   * `run` from `process_target` on, over the configuration `Config::new`
   * built (its flag lowered): the dispatch raises the flag in place, and
   * the rule reads it.
   */
  method Run(config: Config, target: Target, w: World, elevated: Result<bool>)
    returns (r: Result<bool>, w': World)
    requires !config.requiresElevation
    modifies config`requiresElevation
    ensures RunOutcome(r, w') == RunSpec(config.targetPath, target, config.Mode(), w, elevated)
    ensures config.requiresElevation == ProcessTargetSpec(config.targetPath, target, config.Mode(), w).elevate
  {
    var stats: Result<UnblockStats>;
    stats, w' := ProcessTarget(config.targetPath, target, config, w);
    if stats.Err? {
      return Err(stats.error), w';
    }
    var done := Log(config.Mode(), "Operation completed. " + stats.value.Summary(), w');
    w' := done.world;
    if done.failure.Some? {
      return Err(Io(done.failure.value)), w';
    }
    if config.requiresElevation {
      var isElevated :- elevated;
      if ShouldRelaunch(config.requiresElevation, isElevated) {
        var notice := Log(config.Mode(), RetryNotice, w');
        w' := notice.world;
        if notice.failure.Some? {
          return Err(Io(notice.failure.value)), w';
        }
        return Ok(true), w';
      }
    }
    return Ok(false), w';
  }
}
