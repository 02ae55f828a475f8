# File Unblocker — a verified model of its core

SaltSpectre's File Unblocker removes the `Zone.Identifier` alternate data
stream that Windows attaches to downloaded files ("mark of the web"). It
works on one file or on a whole directory tree and counts what happened.
When a deletion is denied, it raises a run-wide `requires_elevation` flag.
At the end of the run, it relaunches itself with administrator rights if
that flag is up and the process is not already elevated.

This Dafny project models the core of the Rust implementation:

- `errors.dfy` (`Errors`): the eight `UnblockerError` variants, their
  `Display` texts, the user messages and the elevation classifier
  (`rust/src/error.rs`).
- `host.dfy` (`Host`): `log_message` and `show_warning` as functions over a
  `World` value. The world holds three things: a script of log-file append
  outcomes, the messages logged, and the stream deletions requested.
- `paths.dfy` (`PathUtils`): `validate_path`, `get_ads_path` and
  `is_safe_path` (`rust/src/path_utils.rs`).
- `config.dfy` (`Configuration`): the `Config` class.
  - `Config::new` and `validate` ask a path oracle whether paths exist.
  - `set_requires_elevation` updates the flag in place (`rust/src/config.rs`).
- `decimal.dfy` (`Decimal`): the decimal rendering of counters, with a
  reader for it.
- `unblocker.dfy` (`Unblocker`): `UnblockStats` and its summary,
  `unblock_file`, `unblock_directory` and `process_target`
  (`rust/src/unblocker.rs`).
  - Each operation is a specification function (`...Spec`) plus a method
    over the shared `Config`. The method raises the flag in place and is
    proved equal to the function.
  - The directory walk is a loop whose invariant is a left fold of one
    step per `WalkDir` item.
- `escalation.dfy` (`Escalation`): the end of `run`. It logs the summary
  and applies the relaunch rule of `rust/src/main.rs:110`.
- `elevation.dfy` (`Elevation`): `escape_argument` and the parameter line
  of the relaunch, with a reader that parses it back
  (`rust/src/elevation.rs`).
- `winargs.dfy` (`WinArgs`): how Windows splits the parameter line into
  arguments (the rules of the Microsoft C runtime, which Rust's
  `std::env::args` follows). It also holds an escaping that these rules
  read back unchanged (see "## Findings").

What the filesystem does is an input:
- whether a target is a file, a directory or neither;
- the items `WalkDir` yields;
- what `fs::remove_file` answers for each stream path;
- whether each append to the log file succeeds.

## Model

| member | source | states |
|---|---|---|
| Errors.UnblockerError.UserMessage | rust/src/error.rs:43-70 | Each variant gets its own fixed wording followed by its detail. Elevation failure has the fixed sentence. The message is never empty. |
| Errors.UserMessageIdentifiesError | rust/src/error.rs:43-70 | Two errors with the same user message are the same variant and carry the same detail text. |
| Errors.RequiresElevationIffAccessDenied | rust/src/error.rs:38-53 | An error calls for elevation exactly when its user message starts with "Access denied. ". |
| Errors.UnblockerError.RequiresElevation | rust/src/error.rs:38-40 | An error that calls for elevation is shown as "Access denied. " followed by its detail. |
| Errors.UnblockerError.Display | rust/src/error.rs:7-31 | The `Display` text is a non-empty label followed by the error's detail text. |
| Host.Log | rust/src/ui.rs:38-64 | Logging fails only with a log file configured, and exactly when that append fails. A failed call records nothing. Silent mode records nothing. No deletion is touched. |
| Host.Warn | rust/src/ui.rs:82-94 | The "WARNING: " line goes through `log_message`. It is delivered exactly when that call succeeds, uses up one scripted append with a log file, and its failure is ignored. No deletion is touched. |
| PathUtils.ValidatePath | rust/src/path_utils.rs:7-40 | A path is accepted exactly when it has no "..", is absolute and has none of `<`, `>`, the vertical bar or NUL. An accepted path comes back unchanged. Every rejection is InvalidPath. |
| PathUtils.GetAdsPath | rust/src/path_utils.rs:43-48 | Succeeds exactly when the path validates. The result is the path followed by ":Zone.Identifier", 16 characters longer. A rejection is the validation error. |
| PathUtils.IsSafePath | rust/src/path_utils.rs:51-70 | A path is safe exactly when none of the four denylisted prefixes starts it. So a path that starts with neither `C` nor a backslash is always safe. |
| PathUtils.TraversalAnywhereRejected | rust/src/path_utils.rs:10-15 | Any path containing "..", wherever it occurs, is rejected with the traversal reason. |
| PathUtils.RelativeRejected | rust/src/path_utils.rs:17-23 | A relative path without ".." is rejected with the absoluteness reason. |
| PathUtils.ForbiddenCharRejected | rust/src/path_utils.rs:25-31 | One forbidden character anywhere rejects the path. The reason is the character reason when the earlier checks pass. |
| PathUtils.ValidateIdempotent | rust/src/path_utils.rs:7-40 | Validating an accepted path again accepts it unchanged. |
| PathUtils.AdsPathIsValid | rust/src/path_utils.rs:43-48 | The stream path of a valid path is itself a valid path. |
| PathUtils.SystemLocationsUnsafe | rust/src/path_utils.rs:55-67 | Every path under System32, SysWOW64, Program Files\Windows or a raw device prefix is unsafe. |
| Configuration.Config.constructor | rust/src/config.rs:26-31 | Stores the three settings with the flag lowered. |
| Configuration.Config.New | rust/src/config.rs:21-35 | Returns a fresh configuration with the flag lowered exactly when the target exists and the log directory check passes. A missing target gives PathNotFound; anything else is a Config error. |
| Configuration.Config.Validate | rust/src/config.rs:38-57 | Succeeds exactly when the target exists and the log file's parent, if any, exists. The missing target is reported first; otherwise the error names the missing log directory. |
| Configuration.Config.SetRequiresElevation | rust/src/config.rs:60-62 | Raises the flag and changes no other field. |
| Configuration.Config.Mode | rust/src/ui.rs:40-61 | Logging is silent exactly when neither verbose nor a log file is set. It goes to a file exactly when a log path is set. |
| Unblocker.UnblockFileSpec | rust/src/unblocker.rs:36-76 | An invalid path fails with no effect. A denylisted path gives "no stream" with no deletion and no flag. Otherwise exactly one deletion of path+":Zone.Identifier" happens. If the log line succeeds, the answer maps to Ok(true), Ok(false), PermissionDenied(path) or Io(error). A failed log line gives its Io error. The flag is raised exactly for a denied deletion. |
| Unblocker.StepFile | rust/src/unblocker.rs:88-106 | Unless the walk ends, a regular file adds one to processed and exactly one to unblocked, no stream or failed. A failure that was a denial also adds one permission error, and nothing else changes. The flag is raised exactly for a denied deletion of a valid, non-denylisted path. The walk ends only with the I/O error of a failed log-file append taken from the script. |
| Unblocker.CountFile | rust/src/unblocker.rs:88-106 | Each result of `unblock_file` lands in its own counter: removed in unblocked, no stream in without stream, a denial in failed and permission errors. Any other error counts as failed when its log line is written, and ends the walk exactly when that log line fails. |
| Unblocker.StepEnumError | rust/src/unblocker.rs:109-130 | An unreadable item changes only failed (+1), and permission errors (+1) when its error is a denial. The walk ends exactly when its log line fails, with that scripted append failure. The flag is raised exactly for a denial. |
| Unblocker.StepEntry | rust/src/unblocker.rs:86-131 | A regular file lands in exactly one outcome counter. An enumeration error lands in failed only, and also in permission errors for a denial. Other items change nothing. An ended walk stays as it is. A step ends the walk only with a scripted log-file append failure. |
| Unblocker.WalkEntries | rust/src/unblocker.rs:85-132 | The loop as a fold of one step per item in order. A walk that has already ended is not changed by further items. |
| Unblocker.UnblockDirectorySpec | rust/src/unblocker.rs:79-136 | An invalid root fails with no effect. Any other failure is the I/O error of a failed log-file append from the script. So a valid root with an append script that never fails always gives statistics. A failed opening "Processing directory" append ends the call with that I/O error, the flag down and no entry visited. After a complete walk, a failed summary append (line 134) ends the call with that I/O error. |
| Unblocker.FinishWalk | rust/src/unblocker.rs:134-135 | The flag is the walk's. A walk that ended early returns its error. A completed walk returns its counters if the summary line is logged, and otherwise that append's I/O error. |
| Unblocker.ProcessTargetSpec | rust/src/unblocker.rs:139-165 | Anything that is neither file nor directory is PathNotFound with no effect. A directory is delegated. A file leaves the world and the flag exactly as `unblock_file` left them. Removed, no stream and denied give (1,1,0,0,0), (1,0,1,0,0) and (1,0,0,1,1). Any other error, an invalid path or a log I/O error included, is the call's error. |
| Unblocker.FileStats | rust/src/unblocker.rs:142-159 | The per-answer mapping of the file arm: removed, no stream and denied give (1,1,0,0,0), (1,0,1,0,0) and (1,0,0,1,1). Any other error is passed on. The world and the flag are unchanged. |
| Unblocker.FileStatsMeaning | rust/src/unblocker.rs:142-159 | The file arm gives statistics exactly when the stream was removed, was absent or its deletion was denied. Those statistics count one file with one outcome, and the unblocked, no-ADS and permission-error counters are 1 exactly for those three answers. Any other error is passed on. |
| Unblocker.AbortIsFinal | rust/src/unblocker.rs:99-127 | Once a log call inside the walk fails, the remaining items change nothing. |
| Unblocker.WalkAbortsOnlyOnLogFailure | rust/src/unblocker.rs:85-132 | A walk only uses up scripted appends, and it ends early only with the I/O error of one of them. |
| Unblocker.WalkCounters | rust/src/unblocker.rs:85-132 | A completed walk counts every regular file as processed. It records exactly one outcome per file and per enumeration error. It counts no more permission errors than failures. New permission errors come with the flag. |
| Unblocker.WalkElevation | rust/src/unblocker.rs:85-132 | The flag is never lowered and is raised only if some item was denied. A completed walk raises it exactly when some item was denied. |
| Unblocker.DirectoryStatistics | rust/src/unblocker.rs:79-136 | A successful directory run returns the file count as processed. Outcomes equal files plus enumeration errors, and permission errors are at most failures. The flag is raised exactly when a visited item was denied. |
| Unblocker.FreshWalkStatistics | rust/src/unblocker.rs:81-132 | A completed walk from zero counters has processed exactly the regular files, has files plus enumeration errors outcomes, at most as many permission errors as failures, and raised the flag exactly when some item was denied. |
| Unblocker.DirectoryOutcome | rust/src/unblocker.rs:79-136 | After a valid root and a written opening line, the run ends with the error that ended the walk, or else with the I/O error of a failed summary append (line 134), or else with the walk's counters. The flag is the walk's in every case. A successful run therefore had a complete walk and a written summary. |
| Unblocker.DirectoryFailsOnlyOnInvalidRoot | rust/src/unblocker.rs:79-136 | Without a log file, a directory run fails exactly when its root path is invalid. |
| Unblocker.ElevationErrorRaisesFlag | rust/src/unblocker.rs:59-66 | Every error from one file that calls for elevation is PermissionDenied of that path, and the flag was raised. |
| Unblocker.SingleFileOutcomes | rust/src/unblocker.rs:142-159 | For a file target with a working log, the four deletion answers give (1,1,0,0,0), (1,0,1,0,0), (1,0,0,1,1) with the flag, or the Io error. |
| Unblocker.FileTargetErrors | rust/src/unblocker.rs:139-165 | For a file target, an invalid path is the validation error with no effect, and on a valid, safe path a failed log append is the call's I/O error whatever the deletion answered. |
| Unblocker.WalkWithNothingToUnblock | rust/src/unblocker.rs:85-132 | Without a log file, a walk over items with nothing to unblock counts each file as processed and without stream. Nothing else changes. |
| Unblocker.DirectoryWithNothingToUnblock | rust/src/unblocker.rs:219-234 | A directory of n files without streams gives (n, 0, n, 0, 0) and no flag. |
| Unblocker.SummaryRoundTrip | rust/src/unblocker.rs:23-32 | The summary names the five counters in order processed, unblocked, no stream, failed, permission errors. Reading it back gives exactly those counters. |
| Unblocker.UnblockStats.Summary | rust/src/unblocker.rs:23-32 | The summary starts with "Processed ". SummaryRoundTrip proves it carries all five counters in order. |
| Decimal.NatToString | rust/src/unblocker.rs:24-31 | The `{}` rendering of a counter is a non-empty string of decimal digits without a leading zero. |
| Decimal.ValueOfNatToString | rust/src/unblocker.rs:24-31 | The rendered digits denote the counter itself. |
| Decimal.ReadNatAfterNatToString | rust/src/unblocker.rs:24-31 | Reading digits from a rendered counter followed by a non-digit gives back the counter and stops where the digits end. |
| Unblocker.SummaryExample | rust/src/unblocker.rs:236-252 | The counters (10, 5, 3, 2, 1) render as "Processed 10 files: 5 unblocked, 3 had no ADS, 2 failed (1 permission errors)". |
| Unblocker.UnblockFile | rust/src/unblocker.rs:36-76 | Returns exactly the specified result and world. Raises the shared flag in place exactly when specified, and never lowers it. |
| Unblocker.VisitFile | rust/src/unblocker.rs:88-106 | Updating the counters in place agrees with the file step. The shared flag is raised exactly for a denied deletion. |
| Unblocker.RecordFile | rust/src/unblocker.rs:91-106 | Filing one `unblock_file` result in place gives exactly the counters, world and early error of the counting step. |
| Unblocker.VisitEnumError | rust/src/unblocker.rs:109-130 | Updating the counters in place agrees with the enumeration-error step. The shared flag is raised exactly for a denial. |
| Unblocker.VisitEntry | rust/src/unblocker.rs:86-131 | One loop iteration agrees with the walk step. It raises the shared flag exactly for a denied item. |
| Unblocker.WalkLoop | rust/src/unblocker.rs:85-132 | The loop's counters, world and early error are exactly those of the walk over all items. The shared flag ends raised exactly when it was already raised or the walk raised it. |
| Unblocker.UnblockDirectory | rust/src/unblocker.rs:79-136 | Returns exactly the specified result and world, and leaves the shared flag as specified. |
| Unblocker.ProcessTarget | rust/src/unblocker.rs:139-165 | Returns exactly the specified result and world, and leaves the shared flag as specified. |
| Escalation.RunSpec | rust/src/main.rs:106-113 | A failed dispatch is the run's error, with its world. |
| Escalation.RelaunchFollowsRule | rust/src/main.rs:106-113 | The run goes on to relaunch exactly when all of these hold: the dispatch succeeded and raised the flag, the process reported that it is not elevated, and both log lines were written. |
| Escalation.ShouldRelaunch | rust/src/main.rs:110 | The relaunch condition: the flag is raised and the process is not elevated. |
| Escalation.PermissionErrorsLeadToRelaunch | rust/src/main.rs:110 | Without a log file, counted permission errors in a non-elevated process always lead to a relaunch. |
| Escalation.RelaunchHasCause | rust/src/main.rs:110 | A relaunch needs a valid target and a denied deletion of the target file, or a denied item in the walked directory. |
| Escalation.FlagHasCause | rust/src/unblocker.rs:139-165 | The dispatch raises the flag only for a valid target that exists: a file whose stream deletion was denied on a non-denylisted path, or a directory in which some item was denied. |
| Escalation.Run | rust/src/main.rs:106-113 | Returns exactly what the run specification says. Leaves the flag at what the dispatch raised. |
| Elevation.EscapeArgument | rust/src/elevation.rs:63-67 | The result starts and ends with a quote. |
| Elevation.Replace | rust/src/elevation.rs:65 | `str::replace` leaves a string without the pattern character unchanged. |
| Elevation.TwoPassesAreOnePass | rust/src/elevation.rs:65 | The two replace passes equal one character-by-character pass: `\` becomes `\\`, `"` becomes `\"`, and nothing else changes. |
| Elevation.EscapeArgumentQuotesEachCharacter | rust/src/elevation.rs:65-66 | The escaped argument is a quote, the character-by-character escaping, then a quote. |
| Elevation.EscapeArgumentLength | rust/src/elevation.rs:65-66 | Its length is that of the argument plus the number of backslashes, plus the number of quotes, plus 2. |
| Elevation.PlainArgumentOnlyQuoted | rust/src/elevation.rs:63-67 | An argument without backslashes or quotes is only wrapped in quotes. |
| Elevation.EscapeRoundTrip | rust/src/elevation.rs:65-66 | Reading `\\` as `\` and `\"` as `"` recovers the argument exactly. Reading stops at the added closing quote, so the argument cannot end the quotes early. |
| Elevation.ArgumentsLineRoundTrip | rust/src/elevation.rs:81-84 | The parameter line parses back to exactly `args[1..]`, in order. |
| Elevation.ArgumentsLine | rust/src/elevation.rs:81-84 | With no arguments after the program name the line is empty; otherwise it starts with the first argument, escaped. |
| Elevation.EscapeAround | rust/src/elevation.rs:63-67 | An argument of plain text, one special piece and plain text is escaped piece by piece: the plain parts are kept inside the quotes and only the special piece is escaped. |
| Elevation.EscapeSimple | rust/src/elevation.rs:123 | The test's "simple" becomes `"simple"`. |
| Elevation.EscapeSpace | rust/src/elevation.rs:124 | The test's `with space` is only quoted. |
| Elevation.EscapeQuote | rust/src/elevation.rs:125 | The test's `with"quote` becomes `"with\"quote"`: the inner quote gains one backslash. |
| Elevation.EscapeBackslash | rust/src/elevation.rs:126 | The test's `with\backslash` becomes `"with\\backslash"`: the backslash is doubled. |
| Elevation.EscapeBackslashQuote | rust/src/elevation.rs:127 | The test's `with\"both` becomes `"with\\\"both"`: the backslash is doubled and the quote gains one. |
| WinArgs.EscapedBackslashIsDoubledOnRelaunch | rust/src/elevation.rs:63-67 | `a\b` is escaped as `"a\\b"`, and the Windows rules read that back as `a\\b`, one character longer than the argument. |
| WinArgs.AsWrittenLineChangesArgument | rust/src/elevation.rs:81-84 | For the arguments `unblocker a\b`, the relaunched process receives `a\\b`, not the argument that was passed. |
| WinArgs.SystemPathEscapesDenylistOnRelaunch | rust/src/elevation.rs:63-67 | A path under `C:\Windows\System32` is unsafe, but the path the relaunched process receives starts with `C:\\W`, and `is_safe_path` accepts it. |
| WinArgs.WinEscape | rust/src/elevation.rs:63-67 | The corrected escaping starts and ends with a quote. |
| WinArgs.WinEscapeRoundTrip | rust/src/elevation.rs:63-67 | The Windows rules read the corrected escaping back as the argument itself, and its closing quote ends the argument. |
| WinArgs.WinEscapeAgreesWithoutBackslashes | rust/src/elevation.rs:63-67 | An argument without backslashes is escaped exactly as `escape_argument` escapes it. |
| WinArgs.WinArgumentsLineRoundTrip | rust/src/elevation.rs:81-84 | With the corrected escaping, the relaunched process receives exactly `args[1..]`, in order. |

## Left out

- Console output, message boxes, timestamps and the clock in
  `rust/src/ui.rs` are left out. Each `log_message` call keeps only its
  message and whether it failed.
- `show_error`, `show_message_box` and the exit codes are left out. They
  only display.
- `is_elevated`, `relaunch_as_admin` beyond the parameter line, and
  `HandleGuard` are left out. They call Windows token APIs and
  `ShellExecuteW`. What `is_elevated` answers is a parameter of
  `Escalation.Run`.
- Argument parsing in `rust/src/main.rs` (clap, console attachment) is not
  modelled. `run` is modelled from `process_target` on.
- Filesystem state is left out. Each file's `fs::remove_file` answer is
  given per item, so a second visit is not made to see the first one's
  deletion.
- `WalkDir` ordering, its symbolic-link policy and the root item it yields
  are inputs: the item stream is given.
- Path existence (`Path::exists`, `is_file`, `is_dir`) and `Path::parent`
  are oracles. `to_string_lossy` is the identity, since strings are
  already Unicode here.
- The `log::warn!` calls in `rust/src/path_utils.rs` (lines 36 and 64) are
  left out. They only log.
- The builds for non-Windows systems are left out. The model follows the
  Windows build, where `validate_path` demands an absolute path.
- PathUtils.ValidatePath: `Path::is_absolute` is approximated. A drive
  letter, a colon and a separator count as absolute, and so do two leading
  separators (UNC and device paths).
- PathUtils.IsAbsolute: any two leading separators count as absolute. The
  Windows prefix parser of Rust's standard library accepts `\\server\share`
  only when both the server and the share are non-empty. So the model
  accepts `\\`, `\\x` and `//x`, which `Path::is_absolute` rejects.
- PathUtils.ValidatePath: the test at `rust/src/path_utils.rs:80` expects
  "normal/path/file.txt" to be accepted. The Windows code rejects it as
  relative, and the model follows the code.
- Unblocker.ProcessTargetSpec: for a single file, the code returns a
  denied deletion as statistics with one permission error, not as an
  error. The model follows the code.
- Counters are unbounded: `usize` overflow is not modelled, as no
  realistic run reaches it.
- Elevation.EscapeRoundTrip: the reader models the rule `\\` and `\"`
  only. The Windows splitting rules are modelled in `WinArgs`.
- WinArgs.WinParseQuotedList: it reads only quoted arguments separated by
  single spaces. Unquoted arguments and text glued to a closing quote are
  refused, not split. These cases do not occur in a line made by the
  escaping.

## Findings

| source | as written | input that shows it | evidently intended | confidence | as-written member | corrected member |
|---|---|---|---|---|---|---|
| rust/src/elevation.rs:63-67 | Every backslash is doubled. Under the Windows rules, backslashes are literal unless they precede a quote, so the doubling is read back as two backslashes. | The argument `a\b` (for example a target path `C:\dir\file`) is sent as `"a\\b"` and received as `a\\b`. A target under `C:\Windows\System32` is received as `C:\\Windows\\System32...`, which `is_safe_path` no longer matches, so the denylist does not hold in the elevated run. | The relaunched process receives the arguments it was given. The comment at line 64 says the escaping follows the Windows command-line rules. Backslashes should be doubled only before a quote or before the closing quote. | medium; not executed. Windows path handling often tolerates doubled separators, so the doubled path usually still names the same file, and then the denylist of the elevated run is bypassed. The test at line 126 expects the doubling. | WinArgs.EscapedBackslashIsDoubledOnRelaunch | WinArgs.WinEscapeRoundTrip |
