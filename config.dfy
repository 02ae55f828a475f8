/**
 * The run configuration (rust/src/config.rs): the settings given on the
 * command line and the run-wide `requires_elevation` flag, whose only
 * mutator is `SetRequiresElevation`.
 */
module Configuration {
  import opened Wrappers
  import opened Errors
  import opened Host

  /**
   * What the program asks the filesystem about paths: whether a path exists
   * (`Path::exists`) and its parent (`Path::parent`).
   */
  datatype PathOracle = PathOracle(pathExists: string -> bool, parent: string -> Option<string>)

  /** The log directory check: absent log path, a log path without parent, or an existing parent. */
  predicate LogDirectoryPresent(logPath: Option<string>, paths: PathOracle) {
    logPath.None? || paths.parent(logPath.value).None? || paths.pathExists(paths.parent(logPath.value).value)
  }

  class Config {
    var verbose: bool
    var logPath: Option<string>
    var targetPath: string
    var requiresElevation: bool

    /** The record `Config::new` builds before validating it: the flag starts cleared. */
    constructor (verbose: bool, logPath: Option<string>, targetPath: string)
      ensures this.verbose == verbose && this.logPath == logPath && this.targetPath == targetPath
      ensures !requiresElevation
    {
      this.verbose := verbose;
      this.logPath := logPath;
      this.targetPath := targetPath;
      requiresElevation := false;
    }

    /** `Config::new`: builds the configuration and returns it only if it validates. */
    static method New(verbose: bool, logPath: Option<string>, targetPath: string, paths: PathOracle)
      returns (r: Result<Config>)
      ensures r.Ok? ==> fresh(r.value)
      ensures r.Ok? ==> r.value.verbose == verbose && r.value.logPath == logPath && r.value.targetPath == targetPath
      ensures r.Ok? ==> !r.value.requiresElevation
      ensures r.Ok? <==> paths.pathExists(targetPath) && LogDirectoryPresent(logPath, paths)
      ensures !paths.pathExists(targetPath) ==> r == Err(PathNotFound(targetPath))
      ensures paths.pathExists(targetPath) && r.Err? ==> r.error.Config?
    {
      var config := new Config(verbose, logPath, targetPath);
      var checked := config.Validate(paths);
      if checked.Err? {
        return Err(checked.error);
      }
      return Ok(config);
    }

    /**
     * `validate`: a missing target is reported first, as PathNotFound; then
     * a log file whose parent directory does not exist, as a Config error.
     * It only reads the configuration.
     */
    function Validate(paths: PathOracle): (r: Result<()>)
      reads this
      ensures r.Ok? <==> paths.pathExists(targetPath) && LogDirectoryPresent(logPath, paths)
      ensures !paths.pathExists(targetPath) ==> r == Err(PathNotFound(targetPath))
      ensures paths.pathExists(targetPath) && r.Err? ==>
        r == Err(Config("Log directory does not exist: " + paths.parent(logPath.value).value))
    {
      if !paths.pathExists(targetPath) then
        Err(PathNotFound(targetPath))
      else if logPath.Some? && paths.parent(logPath.value).Some?
              && !paths.pathExists(paths.parent(logPath.value).value) then
        Err(Config("Log directory does not exist: " + paths.parent(logPath.value).value))
      else
        Ok(())
    }

    /** `set_requires_elevation`: raises the flag; nothing else changes, and raising it again changes nothing. */
    method SetRequiresElevation()
      modifies this`requiresElevation
      ensures requiresElevation
    {
      requiresElevation := true;
    }

    /** Where `log_message` writes under this configuration (rust/src/ui.rs:40-61). */
    function Mode(): (m: LogMode)
      reads this`verbose, this`logPath
      ensures m == Silent <==> !verbose && logPath.None?
      ensures m == LogFile <==> logPath.Some?
    {
      if logPath.Some? then LogFile
      else if verbose then ConsoleOnly
      else Silent
    }
  }
}
