/**
 * The outside world the engine acts on, as a value: the log sink behind
 * `log_message` (rust/src/ui.rs) and the alternate-data-stream deletions
 * requested from the filesystem. Console output, message boxes and
 * timestamps are not modelled; whether appending to the log file fails is
 * an input, one scripted answer per append.
 */
module Host {
  import opened Wrappers
  import opened Errors

  /**
   * Where `log_message` sends a message, as decided by the configuration:
   * nowhere (neither verbose nor a log file), to the console only, or to a
   * log file (and the console too when verbose).
   */
  datatype LogMode = Silent | ConsoleOnly | LogFile

  /**
   * logScript: the outcome of each coming append to the log file, in order
   *   (None: the append succeeds; Some(e): opening or writing fails with e);
   *   once it is exhausted every append succeeds.
   * logged: the messages `log_message` has delivered, oldest first: to the
   *   console in console-only mode, to the log file in log-file mode. A
   *   call whose append fails delivers nothing to the file; the console
   *   line it prints first when verbose is not recorded.
   * deletions: the stream paths handed to `fs::remove_file`, oldest first.
   */
  datatype World = World(logScript: seq<Option<IoError>>, logged: seq<string>, deletions: seq<string>)

  /** What one `log_message` call returns, and the world after it. */
  datatype Logged = Logged(failure: Option<IoError>, world: World)

  /** Whether the next `log_message` call in this mode succeeds. */
  predicate NextLogSucceeds(mode: LogMode, w: World) {
    mode != LogFile || w.logScript == [] || w.logScript[0].None?
  }

  /** The next scripted append failure; only meaningful when the next append fails. */
  function NextLogFailure(w: World): IoError
    requires !NextLogSucceeds(LogFile, w)
  {
    w.logScript[0].value
  }

  /**
   * `log_message`: nothing at all when logging is off, a console line that
   * cannot fail, or an append to the log file that consumes one scripted
   * outcome. A failed append writes nothing.
   */
  function Log(mode: LogMode, message: string, w: World): (r: Logged)
    ensures r.failure.None? <==> NextLogSucceeds(mode, w)
    ensures r.failure.Some? ==> r.failure.value == NextLogFailure(w)
    ensures r.world.deletions == w.deletions
    ensures r.world.logged == if mode == Silent || r.failure.Some? then w.logged else w.logged + [message]
    ensures r.world.logScript == if mode == LogFile && w.logScript != [] then w.logScript[1..] else w.logScript
  {
    match mode
    case Silent => Logged(None, w)
    case ConsoleOnly => Logged(None, w.(logged := w.logged + [message]))
    case LogFile =>
      if w.logScript == [] then
        Logged(None, w.(logged := w.logged + [message]))
      else if w.logScript[0].None? then
        Logged(None, w.(logScript := w.logScript[1..], logged := w.logged + [message]))
      else
        Logged(w.logScript[0], w.(logScript := w.logScript[1..]))
  }

  /**
   * `show_warning`: the console line or message box is not modelled; the
   * "WARNING: " log line is attempted and its failure ignored.
   */
  function Warn(mode: LogMode, message: string, w: World): (w': World)
    ensures w'.deletions == w.deletions
    ensures w'.logged == if mode == Silent || !NextLogSucceeds(mode, w) then w.logged else w.logged + ["WARNING: " + message]
    ensures w'.logScript == if mode == LogFile && w.logScript != [] then w.logScript[1..] else w.logScript
  {
    Log(mode, "WARNING: " + message, w).world
  }

  /** The log script of `later` is what is left of that of `earlier` after some appends. */
  predicate ScriptSuffix(later: World, earlier: World) {
    |later.logScript| <= |earlier.logScript|
    && later.logScript == earlier.logScript[|earlier.logScript| - |later.logScript|..]
  }

  /** No scripted append fails. */
  predicate LogNeverFails(w: World) {
    forall o :: o in w.logScript ==> o.None?
  }

  lemma LogConsumesScript(mode: LogMode, message: string, w: World)
    ensures ScriptSuffix(Log(mode, message, w).world, w)
    ensures !NextLogSucceeds(mode, w) ==> Some(NextLogFailure(w)) in w.logScript
  {
  }

  lemma ScriptSuffixReflexive(w: World)
    ensures ScriptSuffix(w, w)
  {
    assert w.logScript[|w.logScript| - |w.logScript|..] == w.logScript;
  }

  /** One log call, or none, leaves a suffix of the script. */
  lemma UsesAtMostOne(later: World, earlier: World)
    requires later.logScript == earlier.logScript
      || (earlier.logScript != [] && later.logScript == earlier.logScript[1..])
    ensures ScriptSuffix(later, earlier)
  {
    ScriptSuffixReflexive(earlier);
  }

  lemma ScriptSuffixTransitive(a: World, b: World, c: World)
    requires ScriptSuffix(a, b) && ScriptSuffix(b, c)
    ensures ScriptSuffix(a, c)
  {
    var n, m := |c.logScript| - |b.logScript|, |b.logScript| - |a.logScript|;
    assert a.logScript == c.logScript[n..][m..];
  }

  /** A failure scripted for a later append was scripted from the start. */
  lemma ScriptedLater(later: World, earlier: World, o: Option<IoError>)
    requires ScriptSuffix(later, earlier) && o in later.logScript
    ensures o in earlier.logScript
  {
    var k :| 0 <= k < |later.logScript| && later.logScript[k] == o;
    assert earlier.logScript[|earlier.logScript| - |later.logScript| + k] == o;
  }
}
