module WinArgs {
  import opened Wrappers
  import opened Elevation
  import PathUtils

  /** `n` backslashes. */
  function Backslashes(n: nat): (r: string)
    ensures |r| == n
  {
    if n == 0 then [] else "\\" + Backslashes(n - 1)
  }

  /**
   * Windows argument splitting inside a quoted argument (the rules the
   * Microsoft C runtime applies and Rust's standard library follows for
   * `std::env::args`): `j` backslashes are pending. A run of backslashes
   * followed by a quote is halved, and an odd run makes the quote literal;
   * a run followed by anything else is taken literally; an unescaped quote
   * followed by another quote is a literal quote, otherwise it ends the
   * quoted part. Gives the argument and what follows the closing quote.
   */
  function WinQuoted(s: string, j: nat): (r: (string, string))
    ensures |r.1| <= |s|
    decreases |s|
  {
    if s == [] then (Backslashes(j), [])
    else if s[0] == '\\' then WinQuoted(s[1..], j + 1)
    else if s[0] == '"' then
      if j % 2 == 1 then
        var p := WinQuoted(s[1..], 0);
        (Backslashes(j / 2) + "\"" + p.0, p.1)
      else if |s| >= 2 && s[1] == '"' then
        var p := WinQuoted(s[2..], 0);
        (Backslashes(j / 2) + "\"" + p.0, p.1)
      else (Backslashes(j / 2), s[1..])
    else
      var p := WinQuoted(s[1..], 0);
      (Backslashes(j) + [s[0]] + p.0, p.1)
  }

  lemma {:induction false} WinQuotedAfterBackslashes(n: nat, t: string, j: nat)
    ensures WinQuoted(Backslashes(n) + t, j) == WinQuoted(t, j + n)
    decreases n
  {
    if n > 0 {
      var s := Backslashes(n) + t;
      assert s[0] == '\\';
      assert s[1..] == Backslashes(n - 1) + t;
      WinQuotedAfterBackslashes(n - 1, t, j + 1);
    } else {
      assert Backslashes(n) + t == t;
    }
  }

  /** The argument `a\b`, three characters long. */
  const OneBackslash: string := "a\\b"

  /**
   * `escape_argument` doubles a backslash that is not followed by a quote,
   * and Windows reads such a backslash literally: `a\b` reaches the
   * relaunched process as `a\\b`.
   */
  lemma EscapedBackslashIsDoubledOnRelaunch()
    ensures EscapeArgument(OneBackslash) == "\"a" + Backslashes(2) + "b\""
    ensures var read := WinQuoted(EscapeArgument(OneBackslash)[1..], 0);
      read == ("a" + Backslashes(2) + "b", []) && |read.0| == |OneBackslash| + 1
  {
    OneBackslashEscaped();
    var u := Backslashes(2) + "b\"";
    var s := EscapeArgument(OneBackslash)[1..];
    assert s == "a" + u;
    DoubledBackslashReadBack();
    assert s[0] == 'a' && s[1..] == u;
    assert WinQuoted(s, 0) == (Backslashes(0) + "a" + WinQuoted(u, 0).0, WinQuoted(u, 0).1);
    assert Backslashes(0) + "a" + (Backslashes(2) + "b") == "a" + Backslashes(2) + "b";
  }

  lemma OneBackslashEscaped()
    ensures EscapeArgument(OneBackslash) == "\"a" + Backslashes(2) + "b\""
  {
    assert Backslashes(2) == "\\\\";
    var tail := OneBackslash[1..];
    assert tail[0] == '\\' && tail[1..] == "b" && "b"[1..] == [];
    EscapedHead("b", "b");
    EscapedHead(tail, "\\\\");
    EscapedHead(OneBackslash, "a");
    EscapeArgumentQuotesEachCharacter(OneBackslash);
  }

  /** Two backslashes before a letter, then the closing quote, read back as they are. */
  lemma DoubledBackslashReadBack()
    ensures WinQuoted(Backslashes(2) + "b\"", 0) == (Backslashes(2) + "b", [])
  {
    WinQuotedAfterBackslashes(2, "b\"", 0);
    var t := "b\"";
    assert t[0] == 'b' && t[1..] == "\"";
    var p := WinQuoted(t[1..], 0);
    assert p == ([], []);
    assert WinQuoted(t, 2) == (Backslashes(2) + [t[0]] + p.0, p.1);
    assert Backslashes(2) + [t[0]] + p.0 == Backslashes(2) + "b";
  }

  /**
   * The doubling also defeats the denylist of `is_safe_path` in the
   * elevated run: a path under `C:\Windows\System32` is unsafe, but the
   * path the relaunched process receives starts with `C:\\W`, which no
   * denylisted prefix matches.
   */
  lemma SystemPathEscapesDenylistOnRelaunch(rest: string)
    ensures var path := "C:\\Windows\\System32" + rest;
      var received := WinQuoted(EscapeArgument(path)[1..], 0).0;
      && !PathUtils.IsSafePath(path)
      && "C:" + Backslashes(2) + "W" <= received
      && PathUtils.IsSafePath(received)
  {
    var path := "C:\\Windows\\System32" + rest;
    PathUtils.SystemLocationsUnsafe(rest);
    assert path[0] == 'C' && path[1] == ':' && path[2] == '\\' && path[3] == 'W';
    var y := DriveHeadEscaped(path);
    assert Backslashes(2) == "\\\\";
    ReadBackDoubledHead(y);
    var received := WinQuoted(EscapeArgument(path)[1..], 0).0;
    DoubledHeadSafe(received);
  }

  /** An escaped path that starts `C:\W`: `C`, `:`, two backslashes, `W`, then the escaped remainder and the closing quote. */
  lemma DriveHeadEscaped(path: string) returns (y: string)
    requires |path| >= 4 && path[0] == 'C' && path[1] == ':' && path[2] == '\\' && path[3] == 'W'
    ensures EscapeArgument(path)[1..] == "C" + (":" + ("\\\\" + ("W" + y)))
  {
    var t := EscapeEach(path[4..]);
    y := t + "\"";
    DriveHeadEscapedEach(path);
    EscapedInsideQuotes(path);
    RegroupRight("C", ":", "\\\\", "W", t, "\"");
  }

  lemma DriveHeadEscapedEach(path: string)
    requires |path| >= 4 && path[0] == 'C' && path[1] == ':' && path[2] == '\\' && path[3] == 'W'
    ensures EscapeEach(path) == "C" + (":" + ("\\\\" + ("W" + EscapeEach(path[4..]))))
  {
    var p1 := path[1..];
    var p2 := p1[1..];
    var p3 := p2[1..];
    assert p3[1..] == path[4..];
    EscapedHead(p3, "W");
    EscapedHead(p2, "\\\\");
    EscapedHead(p1, ":");
    EscapedHead(path, "C");
  }

  /** What follows the opening quote of an escaped argument. */
  lemma EscapedInsideQuotes(arg: string)
    ensures EscapeArgument(arg)[1..] == EscapeEach(arg) + "\""
  {
    EscapeArgumentQuotesEachCharacter(arg);
  }

  lemma RegroupRight(a: string, b: string, c: string, d: string, e: string, f: string)
    ensures (a + (b + (c + (d + e)))) + f == a + (b + (c + (d + (e + f))))
  {
  }

  /** Escaping a non-empty string escapes its first character, then the rest. */
  lemma EscapedHead(s: string, head: string)
    requires s != [] && head == EscapeChar(s[0])
    ensures EscapeEach(s) == head + EscapeEach(s[1..])
  {
  }

  /** Two backslashes before a letter are read literally. */
  lemma ReadBackDoubledHead(y: string)
    ensures "C:" + Backslashes(2) + "W" <= WinQuoted("C" + (":" + (Backslashes(2) + ("W" + y))), 0).0
  {
    var s2 := Backslashes(2) + ("W" + y);
    var s1 := ":" + s2;
    var s0 := "C" + s1;
    var z := WinQuoted(y, 0).0;
    assert WinQuoted(s2, 0).0 == Backslashes(2) + "W" + z by {
      WinQuotedAfterBackslashes(2, "W" + y, 0);
      assert ("W" + y)[0] == 'W' && ("W" + y)[1..] == y;
    }
    assert s1[0] == ':' && s1[1..] == s2;
    assert s0[0] == 'C' && s0[1..] == s1;
    assert WinQuoted(s0, 0).0 == Backslashes(0) + "C" + (Backslashes(0) + ":" + (Backslashes(2) + "W" + z));
    assert WinQuoted(s0, 0).0 == "C:" + Backslashes(2) + "W" + z;
  }

  /** A path starting `C:\\` matches no denylisted prefix. */
  lemma DoubledHeadSafe(path: string)
    requires "C:" + Backslashes(2) + "W" <= path
    ensures PathUtils.IsSafePath(path)
  {
    assert path[0] == 'C' && path[3] == '\\';
    forall k | 0 <= k < |PathUtils.DangerousPrefixes|
      ensures !(PathUtils.DangerousPrefixes[k] <= path)
    {
      assert PathUtils.DangerousPrefixes[k][0] == '\\' || PathUtils.DangerousPrefixes[k][3] != '\\';
    }
  }

  /**
   * The escaping the Windows rules call for: a run of backslashes is kept
   * as it is, doubled before a quote (which then gets one more) and
   * doubled at the end (before the closing quote). `k` backslashes are
   * pending.
   */
  function WinEscapeBody(s: string, k: nat): string
    decreases |s|
  {
    if s == [] then Backslashes(2 * k)
    else if s[0] == '\\' then WinEscapeBody(s[1..], k + 1)
    else if s[0] == '"' then Backslashes(2 * k + 1) + "\"" + WinEscapeBody(s[1..], 0)
    else Backslashes(k) + [s[0]] + WinEscapeBody(s[1..], 0)
  }

  /** The corrected `escape_argument`. */
  function WinEscape(arg: string): (r: string)
    ensures |r| >= 2 && r[0] == '"' && r[|r| - 1] == '"'
  {
    "\"" + WinEscapeBody(arg, 0) + "\""
  }

  lemma {:induction false} WinQuotedEscapeBody(s: string, k: nat, rest: string)
    requires rest == [] || rest[0] != '"'
    ensures WinQuoted(WinEscapeBody(s, k) + "\"" + rest, 0) == (Backslashes(k) + s, rest)
    decreases |s|
  {
    if s == [] {
      EndReadsBack(k, rest);
      assert Backslashes(k) + s == Backslashes(k);
    } else if s[0] == '\\' {
      assert WinEscapeBody(s, k) == WinEscapeBody(s[1..], k + 1);
      WinQuotedEscapeBody(s[1..], k + 1, rest);
      assert Backslashes(k + 1) + s[1..] == Backslashes(k) + s by {
        BackslashesSnoc(k);
        assert s == [s[0]] + s[1..];
      }
    } else {
      assert WinQuoted(WinEscapeBody(s[1..], 0) + "\"" + rest, 0) == (s[1..], rest) by {
        WinQuotedEscapeBody(s[1..], 0, rest);
        assert Backslashes(0) + s[1..] == s[1..];
      }
      if s[0] == '"' {
        EscapedQuoteReadsBack(s[1..], k, rest);
        assert Backslashes(k) + "\"" + s[1..] == Backslashes(k) + s by {
          assert "\"" + s[1..] == s;
        }
      } else {
        PlainCharacterReadsBack(s[0], s[1..], k, rest);
        assert Backslashes(k) + [s[0]] + s[1..] == Backslashes(k) + s by {
          assert [s[0]] + s[1..] == s;
        }
      }
    }
  }

  /** The end of the argument after `k` pending backslashes: `2k` backslashes before the closing quote read back as `k`. */
  lemma EndReadsBack(k: nat, rest: string)
    requires rest == [] || rest[0] != '"'
    ensures WinQuoted(WinEscapeBody([], k) + "\"" + rest, 0) == (Backslashes(k), rest)
  {
    var t := "\"" + rest;
    assert WinEscapeBody([], k) + "\"" + rest == Backslashes(2 * k) + t;
    assert WinQuoted(Backslashes(2 * k) + t, 0) == WinQuoted(t, 2 * k) by {
      WinQuotedAfterBackslashes(2 * k, t, 0);
    }
    assert WinQuoted(t, 2 * k) == (Backslashes(k), rest) by {
      assert t[0] == '"' && t[1..] == rest;
      assert (2 * k) % 2 == 0 && (2 * k) / 2 == k;
    }
  }

  /** A quote after `k` pending backslashes: `2k + 1` backslashes and the quote read back as `k` and the quote. */
  lemma EscapedQuoteReadsBack(tail: string, k: nat, rest: string)
    requires WinQuoted(WinEscapeBody(tail, 0) + "\"" + rest, 0) == (tail, rest)
    ensures WinQuoted(WinEscapeBody("\"" + tail, k) + "\"" + rest, 0) == (Backslashes(k) + "\"" + tail, rest)
  {
    var x := WinEscapeBody(tail, 0) + "\"" + rest;
    var t := "\"" + x;
    EscapedQuoteLayout(tail, k, rest);
    WinQuotedAfterBackslashes(2 * k + 1, t, 0);
    OddRunBeforeQuote(k, x);
  }

  lemma EscapedQuoteLayout(tail: string, k: nat, rest: string)
    ensures WinEscapeBody("\"" + tail, k) + "\"" + rest
      == Backslashes(2 * k + 1) + ("\"" + (WinEscapeBody(tail, 0) + "\"" + rest))
  {
    assert ("\"" + tail)[0] == '"' && ("\"" + tail)[1..] == tail;
    assert WinEscapeBody("\"" + tail, k) == Backslashes(2 * k + 1) + "\"" + WinEscapeBody(tail, 0);
    Regroup(Backslashes(2 * k + 1), "\"", WinEscapeBody(tail, 0), "\"", rest);
  }

  /** An odd run of `2k + 1` backslashes before a quote reads as `k` backslashes and a literal quote. */
  lemma OddRunBeforeQuote(k: nat, x: string)
    ensures WinQuoted("\"" + x, 2 * k + 1) == (Backslashes(k) + "\"" + WinQuoted(x, 0).0, WinQuoted(x, 0).1)
  {
    var t := "\"" + x;
    assert t[0] == '"' && t[1..] == x;
    assert (2 * k + 1) % 2 == 1 && (2 * k + 1) / 2 == k;
  }

  /** Any other character after `k` pending backslashes: they and it read back literally. */
  lemma PlainCharacterReadsBack(c: char, tail: string, k: nat, rest: string)
    requires c != '"' && c != '\\'
    requires WinQuoted(WinEscapeBody(tail, 0) + "\"" + rest, 0) == (tail, rest)
    ensures WinQuoted(WinEscapeBody([c] + tail, k) + "\"" + rest, 0) == (Backslashes(k) + [c] + tail, rest)
  {
    var w := WinEscapeBody(tail, 0);
    var x := w + "\"" + rest;
    var t := [c] + x;
    assert WinEscapeBody([c] + tail, k) + "\"" + rest == Backslashes(k) + t by {
      assert ([c] + tail)[0] == c && ([c] + tail)[1..] == tail;
      assert WinEscapeBody([c] + tail, k) == Backslashes(k) + [c] + w;
      Regroup(Backslashes(k), [c], w, "\"", rest);
    }
    assert WinQuoted(Backslashes(k) + t, 0) == WinQuoted(t, k) by {
      WinQuotedAfterBackslashes(k, t, 0);
    }
    assert WinQuoted(t, k) == (Backslashes(k) + [c] + tail, rest) by {
      assert t[0] == c && t[1..] == x;
    }
  }

  lemma Regroup(a: string, b: string, c: string, d: string, e: string)
    ensures a + b + c + d + e == a + (b + (c + d + e))
  {
  }

  lemma {:induction false} BackslashesSnoc(k: nat)
    ensures Backslashes(k + 1) == Backslashes(k) + "\\"
  {
    if k > 0 {
      BackslashesSnoc(k - 1);
    }
  }

  /**
   * Under the Windows rules the corrected escaping reads back as the
   * argument itself, and the quote it closes with is the end of the
   * argument.
   */
  lemma WinEscapeRoundTrip(arg: string, rest: string)
    requires rest == [] || rest[0] != '"'
    ensures WinQuoted(WinEscape(arg)[1..] + rest, 0) == (arg, rest)
  {
    assert WinEscape(arg)[1..] + rest == WinEscapeBody(arg, 0) + "\"" + rest;
    WinQuotedEscapeBody(arg, 0, rest);
    assert Backslashes(0) + arg == arg;
  }

  // ---------------------------------------------------------------------
  // The parameter line under the Windows rules
  // ---------------------------------------------------------------------

  /** Reads a non-empty list of quoted arguments separated by single spaces, each by the Windows rules. */
  function WinParseQuotedList(line: string): Option<seq<string>>
    decreases |line|
  {
    if line == [] || line[0] != '"' then None
    else
      var p := WinQuoted(line[1..], 0);
      if p.1 == [] then Some([p.0])
      else if p.1[0] != ' ' then None
      else
        match WinParseQuotedList(p.1[1..])
        case None => None
        case Some(rest) => Some([p.0] + rest)
  }

  /** What the relaunched process receives as its arguments after the program name. */
  function WinParseArguments(line: string): Option<seq<string>> {
    if line == [] then Some([]) else WinParseQuotedList(line)
  }

  function WinEscapeAll(args: seq<string>): (r: seq<string>)
    ensures |r| == |args|
    ensures forall i :: 0 <= i < |args| ==> r[i] == WinEscape(args[i])
    decreases |args|
  {
    if args == [] then [] else [WinEscape(args[0])] + WinEscapeAll(args[1..])
  }

  /** The corrected parameter string of the relaunch. */
  function WinArgumentsLine(args: seq<string>): string
    requires |args| >= 1
  {
    Join(WinEscapeAll(args[1..]), " ")
  }

  /**
   * The parameter line as written, for the program name and `a\b`: the
   * relaunched process receives `a\\b` instead of `a\b`.
   */
  lemma AsWrittenLineChangesArgument()
    ensures var args := ["unblocker", OneBackslash];
      WinParseArguments(ArgumentsLine(args)) == Some(["a" + Backslashes(2) + "b"])
      && WinParseArguments(ArgumentsLine(args)) != Some(args[1..])
  {
    var args := ["unblocker", OneBackslash];
    var e := EscapeArgument(OneBackslash);
    assert args[1..] == [OneBackslash];
    assert ArgumentsLine(args) == e by {
      assert EscapeAll(args[1..]) == [e];
    }
    EscapedBackslashIsDoubledOnRelaunch();
    assert "a" + Backslashes(2) + "b" != OneBackslash by {
      assert |"a" + Backslashes(2) + "b"| == 4;
    }
  }

  lemma WinParseSingle(x: string)
    ensures WinParseQuotedList(WinEscape(x)) == Some([x])
  {
    var e := WinEscape(x);
    WinEscapeRoundTrip(x, []);
    assert e[1..] + [] == e[1..];
  }

  lemma WinParseCons(x: string, line: string, rest: seq<string>)
    requires WinParseQuotedList(line) == Some(rest)
    ensures WinParseQuotedList(WinEscape(x) + " " + line) == Some([x] + rest)
  {
    var e := WinEscape(x);
    var whole := e + " " + line;
    WinEscapeRoundTrip(x, " " + line);
    assert whole[0] == '"';
    assert whole[1..] == e[1..] + (" " + line);
    assert (" " + line)[1..] == line;
  }

  lemma {:induction false} WinParseJoined(args: seq<string>)
    requires args != []
    ensures WinParseQuotedList(Join(WinEscapeAll(args), " ")) == Some(args)
    decreases |args|
  {
    if |args| == 1 {
      WinParseSingle(args[0]);
      assert [args[0]] == args;
    } else {
      assert WinEscapeAll(args)[1..] == WinEscapeAll(args[1..]);
      WinParseJoined(args[1..]);
      WinParseCons(args[0], Join(WinEscapeAll(args[1..]), " "), args[1..]);
      assert [args[0]] + args[1..] == args;
    }
  }

  /**
   * With the corrected escaping the relaunched process receives exactly
   * the arguments after the program name, in order, under the Windows rules.
   */
  lemma WinArgumentsLineRoundTrip(args: seq<string>)
    requires |args| >= 1
    ensures WinParseArguments(WinArgumentsLine(args)) == Some(args[1..])
  {
    if |args| > 1 {
      WinParseJoined(args[1..]);
      assert WinArgumentsLine(args) != [] by {
        assert WinEscapeAll(args[1..])[0] == WinEscape(args[1]);
        JoinStartsWithFirst(WinEscapeAll(args[1..]), " ");
      }
    }
  }

  lemma {:induction false} WinEscapeBodyWithoutBackslashes(s: string)
    requires '\\' !in s
    ensures WinEscapeBody(s, 0) == EscapeEach(s)
    decreases |s|
  {
    if s != [] {
      assert forall c :: c in s[1..] ==> c in s;
      WinEscapeBodyWithoutBackslashes(s[1..]);
      if s[0] == '"' {
        assert Backslashes(1) == "\\";
      }
    }
  }

  /**
   * The correction only concerns backslashes: an argument without one is
   * escaped as `escape_argument` escapes it (so a quote still gains one
   * backslash, as the tests of `escape_argument` expect).
   */
  lemma WinEscapeAgreesWithoutBackslashes(arg: string)
    requires '\\' !in arg
    ensures WinEscape(arg) == EscapeArgument(arg)
  {
    WinEscapeBodyWithoutBackslashes(arg);
    EscapeArgumentQuotesEachCharacter(arg);
  }
}
