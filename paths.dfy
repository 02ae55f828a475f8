/**
 * Path qualification (rust/src/path_utils.rs), for the Windows build:
 * rejecting traversal sequences, relative paths and forbidden characters,
 * deriving the `Zone.Identifier` stream path, and the prefix denylist of
 * system locations.
 */
module PathUtils {
  import opened Errors

  const TraversalReason: string := "Path contains directory traversal sequences"
  const RelativeReason: string := "Path must be absolute on Windows"
  const CharacterReason: string := "Path contains invalid characters"

  /** Appended to a file path to name its Zone.Identifier alternate data stream. */
  const AdsSuffix: string := ":Zone.Identifier"

  /** System locations that are never touched, matched as case-sensitive prefixes. */
  const DangerousPrefixes: seq<string> := [
    "C:\\Windows\\System32",
    "C:\\Windows\\SysWOW64",
    "C:\\Program Files\\Windows",
    "\\\\?\\"  // raw device paths
  ]

  /** `path.contains("..")`: two consecutive dots anywhere, not only as a component. */
  predicate HasTraversal(path: string) {
    exists i :: 0 <= i < |path| - 1 && path[i] == '.' && path[i + 1] == '.'
  }

  predicate IsForbiddenChar(c: char) {
    c == '<' || c == '>' || c == '|' || c == '\0'
  }

  predicate HasForbiddenChar(path: string) {
    exists i :: 0 <= i < |path| && IsForbiddenChar(path[i])
  }

  predicate IsSeparator(c: char) {
    c == '\\' || c == '/'
  }

  predicate IsAsciiLetter(c: char) {
    ('a' <= c <= 'z') || ('A' <= c <= 'Z')
  }

  /**
   * `Path::is_absolute` on Windows: a drive letter, a colon and a
   * separator (`C:\...`), or a path that starts with two separators
   * (UNC, device and verbatim paths).
   */
  predicate IsAbsolute(path: string) {
    || (|path| >= 3 && IsAsciiLetter(path[0]) && path[1] == ':' && IsSeparator(path[2]))
    || (|path| >= 2 && IsSeparator(path[0]) && IsSeparator(path[1]))
  }

  /**
   * `validate_path`: the checks run in the order traversal, absoluteness,
   * characters, and the first that fails names the reason. A path longer
   * than 260 characters only draws a warning. An accepted path comes back
   * unchanged.
   */
  function ValidatePath(path: string): (r: Result<string>)
    ensures r.Ok? <==> !HasTraversal(path) && IsAbsolute(path) && !HasForbiddenChar(path)
    ensures r.Ok? ==> r.value == path
    ensures r.Err? ==> r.error.InvalidPath?
  {
    if HasTraversal(path) then
      Err(InvalidPath(TraversalReason))
    else if !IsAbsolute(path) then
      Err(InvalidPath(RelativeReason))
    else if HasForbiddenChar(path) then
      Err(InvalidPath(CharacterReason))
    else
      Ok(path)
  }

  /** `get_ads_path`: re-validates the path and appends the stream suffix. */
  function GetAdsPath(filePath: string): (r: Result<string>)
    ensures r.Ok? <==> ValidatePath(filePath).Ok?
    ensures r.Err? ==> r == ValidatePath(filePath).PropagateFailure()
    ensures r.Ok? ==> r.value == filePath + AdsSuffix && |r.value| == |filePath| + 16
  {
    var p :- ValidatePath(filePath);
    Ok(p + AdsSuffix)
  }

  /**
   * `is_safe_path`: the early-return search over the denylist. Every
   * denylisted prefix starts with `C` or a backslash, so a path on any
   * other drive is safe.
   */
  function IsSafePath(path: string): (safe: bool)
    ensures safe <==> forall k :: 0 <= k < |DangerousPrefixes| ==> !(DangerousPrefixes[k] <= path)
    ensures |path| > 0 && path[0] != 'C' && path[0] != '\\' ==> safe
  {
    assert forall k :: 0 <= k < |DangerousPrefixes| ==> DangerousPrefixes[k][0] == 'C' || DangerousPrefixes[k][0] == '\\';
    SafeFrom(path, 0)
  }

  /** No denylisted prefix from position k on matches. */
  function SafeFrom(path: string, k: nat): (safe: bool)
    requires k <= |DangerousPrefixes|
    ensures safe <==> forall j :: k <= j < |DangerousPrefixes| ==> !(DangerousPrefixes[j] <= path)
    decreases |DangerousPrefixes| - k
  {
    if k == |DangerousPrefixes| then true
    else if DangerousPrefixes[k] <= path then false
    else SafeFrom(path, k + 1)
  }

  /** Two dots anywhere reject the path, even inside a name such as `a..b`, with the traversal reason. */
  lemma {:induction false} TraversalAnywhereRejected(before: string, after: string)
    ensures ValidatePath(before + ".." + after) == Err(InvalidPath(TraversalReason))
  {
    var s := before + ".." + after;
    assert s[|before|] == '.' && s[|before| + 1] == '.';
  }

  /** A traversal-free relative path is rejected as relative, whatever characters it holds. */
  lemma RelativeRejected(path: string)
    requires !HasTraversal(path) && !IsAbsolute(path)
    ensures ValidatePath(path) == Err(InvalidPath(RelativeReason))
  {
  }

  /** One forbidden character anywhere rejects the path; if nothing earlier in the order fails, with the character reason. */
  lemma {:induction false} ForbiddenCharRejected(before: string, c: char, after: string)
    requires IsForbiddenChar(c)
    ensures ValidatePath(before + [c] + after).Err?
    ensures var s := before + [c] + after;
      !HasTraversal(s) && IsAbsolute(s) ==> ValidatePath(s) == Err(InvalidPath(CharacterReason))
  {
    var s := before + [c] + after;
    assert s[|before|] == c;
  }

  /** Validation is idempotent: an accepted path is accepted again, unchanged. */
  lemma ValidateIdempotent(path: string)
    requires ValidatePath(path).Ok?
    ensures ValidatePath(ValidatePath(path).value) == ValidatePath(path)
  {
  }

  /** The stream path of a valid path is itself valid: the suffix adds no dots pair, separator or forbidden character. */
  lemma {:induction false} AdsPathIsValid(path: string)
    requires ValidatePath(path).Ok?
    ensures ValidatePath(GetAdsPath(path).value).Ok?
  {
    var s := path + AdsSuffix;
    assert AdsSuffix == ":Zone.Identifier";
    forall i | 0 <= i < |s| - 1
      ensures !(s[i] == '.' && s[i + 1] == '.')
    {
      if i + 1 < |path| {
        assert s[i] == path[i] && s[i + 1] == path[i + 1];
      } else {
        assert s[i + 1] == AdsSuffix[i + 1 - |path|];
      }
    }
    forall i | 0 <= i < |s|
      ensures !IsForbiddenChar(s[i])
    {
      if i < |path| {
        assert s[i] == path[i];
      } else {
        assert s[i] == AdsSuffix[i - |path|];
      }
    }
  }

  /** The four system locations, and everything below them, are unsafe. */
  lemma {:induction false} SystemLocationsUnsafe(rest: string)
    ensures !IsSafePath("C:\\Windows\\System32" + rest)
    ensures !IsSafePath("C:\\Windows\\SysWOW64" + rest)
    ensures !IsSafePath("C:\\Program Files\\Windows" + rest)
    ensures !IsSafePath("\\\\?\\" + rest)
  {
    assert DangerousPrefixes[0] <= DangerousPrefixes[0] + rest;
    assert DangerousPrefixes[1] <= DangerousPrefixes[1] + rest;
    assert DangerousPrefixes[2] <= DangerousPrefixes[2] + rest;
    assert DangerousPrefixes[3] <= DangerousPrefixes[3] + rest;
  }
}
