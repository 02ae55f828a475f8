/**
 * The error taxonomy of the unblocker (rust/src/error.rs): the eight
 * variants of `UnblockerError`, their `Display` texts, the user-facing
 * messages and the elevation classifier.
 */
module Errors {
  import opened Wrappers

  /** The kinds of `std::io::ErrorKind` the program tells apart. */
  datatype ErrorKind = NotFound | PermissionDenied | Other

  /** An operating-system I/O error: its kind and the text its `Display` renders. */
  datatype IoError = IoError(kind: ErrorKind, text: string)

  /**
   * An error of the recursive directory iterator: the path it concerns (if
   * any), the underlying I/O error (if any; loops have none) and its text.
   */
  datatype WalkError = WalkError(path: Option<string>, io: Option<IoError>, text: string)

  datatype UnblockerError =
    | InvalidPath(reason: string)
    | PathNotFound(path: string)
    | PermissionDenied(details: string)
    | Io(io: IoError)
    | Config(message: string)
    | ElevationFailed
    | WindowsApi(message: string)
    | WalkDir(walk: WalkError)
  {
    /** Whether running with administrator rights could help. */
    predicate RequiresElevation()
      ensures RequiresElevation() ==> UserMessage() == "Access denied. " + Detail()
    {
      PermissionDenied?
    }

    /** The `Display` text, as the `#[error(...)]` attributes format it. */
    function Display(): (d: string)
      ensures |d| > |Detail()| && d[|d| - |Detail()|..] == Detail()
    {
      match this
      case InvalidPath(p) => "Invalid path: " + p
      case PathNotFound(p) => "Path not found: " + p
      case PermissionDenied(p) => "Permission denied: " + p
      case Io(e) => "I/O error: " + e.text
      case Config(m) => "Configuration error: " + m
      case ElevationFailed => "Elevation required but failed"
      case WindowsApi(m) => "Windows API error: " + m
      case WalkDir(e) => "Walkdir error: " + e.text
    }

    /** The human-readable message shown for a fatal error; total over all variants. */
    function UserMessage(): (m: string)
      ensures InvalidPath? ==> m == "Invalid or unsafe path: " + reason
      ensures PathNotFound? ==> m == "Path not found: " + path
      ensures PermissionDenied? ==> m == "Access denied. " + details
      ensures Config? ==> m == "Configuration error: " + message
      ensures ElevationFailed? ==> m == "Failed to restart with administrator privileges"
      ensures |m| > 0
    {
      match this
      case InvalidPath(p) => "Invalid or unsafe path: " + p
      case PathNotFound(p) => "Path not found: " + p
      case PermissionDenied(d) => "Access denied. " + d
      case Io(e) => "File operation failed: " + e.text
      case Config(m) => "Configuration error: " + m
      case ElevationFailed => "Failed to restart with administrator privileges"
      case WindowsApi(m) => "Windows system error: " + m
      case WalkDir(e) => "Directory traversal error: " + e.text
    }

    /** The text a message carries after its kind-specific wording. */
    function Detail(): string {
      match this
      case InvalidPath(p) => p
      case PathNotFound(p) => p
      case PermissionDenied(d) => d
      case Io(e) => e.text
      case Config(m) => m
      case ElevationFailed => ""
      case WindowsApi(m) => m
      case WalkDir(e) => e.text
    }
  }

  /** Rust's `crate::error::Result<T>`. */
  datatype Result<+T> = Ok(value: T) | Err(error: UnblockerError) {

    predicate IsFailure() {
      Err?
    }

    function PropagateFailure<U>(): Result<U>
      requires Err?
    {
      Err(error)
    }

    function Extract(): T
      requires Ok?
    {
      value
    }
  }

  /**
   * The user message tells the variant apart and carries the detail text:
   * two errors with the same message are of the same variant and carry the
   * same detail (an I/O error's kind is not shown, only its text).
   */
  lemma UserMessageIdentifiesError(a: UnblockerError, b: UnblockerError)
    requires a.UserMessage() == b.UserMessage()
    ensures a.InvalidPath? <==> b.InvalidPath?
    ensures a.PathNotFound? <==> b.PathNotFound?
    ensures a.PermissionDenied? <==> b.PermissionDenied?
    ensures a.Io? <==> b.Io?
    ensures a.Config? <==> b.Config?
    ensures a.ElevationFailed? <==> b.ElevationFailed?
    ensures a.WindowsApi? <==> b.WindowsApi?
    ensures a.WalkDir? <==> b.WalkDir?
    ensures a.Detail() == b.Detail()
  {
    InitialsGiveTag(a);
    InitialsGiveTag(b);
    assert Tag(a) == Tag(b);
    assert Wording(a) == Wording(b) by {
      match a
      case InvalidPath(_) =>
      case PathNotFound(_) =>
      case PermissionDenied(_) =>
      case Io(_) =>
      case Config(_) =>
      case ElevationFailed =>
      case WindowsApi(_) =>
      case WalkDir(_) =>
    }
    var m, w := a.UserMessage(), Wording(a);
    assert a.Detail() == m[|w|..] == b.Detail();
  }

  /**
   * The classifier and the message agree: exactly the errors that call for
   * elevation are shown to the user as "Access denied. ...".
   */
  lemma RequiresElevationIffAccessDenied(e: UnblockerError)
    ensures e.RequiresElevation() <==> "Access denied. " <= e.UserMessage()
  {
    InitialsGiveTag(e);
    if "Access denied. " <= e.UserMessage() {
      assert e.UserMessage()[0] == 'A';
    }
  }

  /** The kind-specific wording that starts each variant's user message. */
  function Wording(e: UnblockerError): (w: string)
    ensures e.UserMessage() == w + e.Detail()
  {
    match e
    case InvalidPath(_) => "Invalid or unsafe path: "
    case PathNotFound(_) => "Path not found: "
    case PermissionDenied(_) => "Access denied. "
    case Io(_) => "File operation failed: "
    case Config(_) => "Configuration error: "
    case ElevationFailed => "Failed to restart with administrator privileges"
    case WindowsApi(_) => "Windows system error: "
    case WalkDir(_) => "Directory traversal error: "
  }

  /** A number per variant. */
  function Tag(e: UnblockerError): nat {
    match e
    case InvalidPath(_) => 0
    case PathNotFound(_) => 1
    case PermissionDenied(_) => 2
    case Io(_) => 3
    case Config(_) => 4
    case ElevationFailed => 5
    case WindowsApi(_) => 6
    case WalkDir(_) => 7
  }

  /** Reads the variant back from the first two characters of a user message. */
  function TagOfInitials(first: char, second: char): nat {
    if first == 'I' then 0
    else if first == 'P' then 1
    else if first == 'A' then 2
    else if first == 'F' && second == 'i' then 3
    else if first == 'C' then 4
    else if first == 'F' then 5
    else if first == 'W' then 6
    else 7
  }

  lemma InitialsGiveTag(e: UnblockerError)
    ensures |e.UserMessage()| >= 2
    ensures TagOfInitials(e.UserMessage()[0], e.UserMessage()[1]) == Tag(e)
  {
    var w := Wording(e);
    assert |w| >= 2 && e.UserMessage()[0] == w[0] && e.UserMessage()[1] == w[1];
    match e
    case InvalidPath(_) => assert w[0] == 'I';
    case PathNotFound(_) => assert w[0] == 'P';
    case PermissionDenied(_) => assert w[0] == 'A';
    case Io(_) => assert w[0] == 'F' && w[1] == 'i';
    case Config(_) => assert w[0] == 'C';
    case ElevationFailed =>
      ElevationFailedInitials();
      assert w[0] == w[..2][0] && w[1] == w[..2][1];
    case WindowsApi(_) => assert w[0] == 'W';
    case WalkDir(_) => assert w[0] == 'D';
  }

  lemma ElevationFailedInitials()
    ensures Wording(ElevationFailed)[..2] == "Fa"
  {
    // The one long wording, split so that its first characters are in reach.
    assert Wording(ElevationFailed) == "Failed to restart " + "with administrator privileges";
  }
}
