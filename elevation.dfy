/**
 * The parameter string of the elevated relaunch (rust/src/elevation.rs):
 * each argument after the program name is escaped and quoted, and the
 * results are joined with single spaces.
 */
module Elevation {
  import opened Wrappers

  /** `str::replace` with a single-character pattern: every occurrence of `c` becomes `replacement`, left to right. */
  function Replace(s: string, c: char, replacement: string): (r: string)
    ensures c !in s ==> r == s
    decreases |s|
  {
    if s == [] then [] else (if s[0] == c then replacement else [s[0]]) + Replace(s[1..], c, replacement)
  }

  /** The number of occurrences of `c` in `s`. */
  function Count(s: string, c: char): nat
    decreases |s|
  {
    if s == [] then 0 else (if s[0] == c then 1 else 0) + Count(s[1..], c)
  }

  /** What one character of the argument becomes inside the quotes. */
  function EscapeChar(c: char): string {
    if c == '\\' then "\\\\" else if c == '"' then "\\\"" else [c]
  }

  /** The character-by-character reading of the escaping rule. */
  function EscapeEach(s: string): string
    decreases |s|
  {
    if s == [] then [] else EscapeChar(s[0]) + EscapeEach(s[1..])
  }

  /** `escape_argument`: backslashes doubled first, then quotes preceded by a backslash, then the whole quoted. */
  function EscapeArgument(arg: string): (r: string)
    ensures |r| >= 2 && r[0] == '"' && r[|r| - 1] == '"'
  {
    "\"" + Replace(Replace(arg, '\\', "\\\\"), '"', "\\\"") + "\""
  }

  /** `escaped_args.join(" ")`. */
  function Join(parts: seq<string>, sep: string): string
    decreases |parts|
  {
    if parts == [] then []
    else if |parts| == 1 then parts[0]
    else parts[0] + sep + Join(parts[1..], sep)
  }

  function EscapeAll(args: seq<string>): (r: seq<string>)
    ensures |r| == |args|
    ensures forall i :: 0 <= i < |args| ==> r[i] == EscapeArgument(args[i])
    decreases |args|
  {
    if args == [] then [] else [EscapeArgument(args[0])] + EscapeAll(args[1..])
  }

  /** The parameter string of `relaunch_as_admin`: the arguments after the program name, escaped and joined. */
  function ArgumentsLine(args: seq<string>): (line: string)
    requires |args| >= 1
    ensures |args| == 1 ==> line == []
    ensures |args| > 1 ==> EscapeArgument(args[1]) <= line
  {
    Join(EscapeAll(args[1..]), " ")
  }

  // ---------------------------------------------------------------------
  // Reading a parameter string back
  // ---------------------------------------------------------------------

  /**
   * Reads the inside of a quoted argument up to its closing quote, where
   * `\\` stands for a backslash and `\"` for a quote. Gives the argument
   * and what follows the closing quote.
   */
  function Unescape(s: string): (r: Option<(string, string)>)
    ensures r.Some? ==> |r.value.1| < |s|
    decreases |s|
  {
    if s == [] then None
    else if s[0] == '"' then Some(([], s[1..]))
    else if s[0] == '\\' then
      if |s| >= 2 && (s[1] == '\\' || s[1] == '"') then
        match Unescape(s[2..])
        case None => None
        case Some(p) => Some(([s[1]] + p.0, p.1))
      else None
    else
      match Unescape(s[1..])
      case None => None
      case Some(p) => Some(([s[0]] + p.0, p.1))
  }

  /** Reads a non-empty list of quoted arguments separated by single spaces. */
  function ParseQuotedList(line: string): Option<seq<string>>
    decreases |line|
  {
    if line == [] || line[0] != '"' then None
    else
      match Unescape(line[1..])
      case None => None
      case Some(p) =>
        if p.1 == [] then Some([p.0])
        else if p.1[0] != ' ' then None
        else
          match ParseQuotedList(p.1[1..])
          case None => None
          case Some(rest) => Some([p.0] + rest)
  }

  /** Reads a parameter string back into the arguments it was made from. */
  function ParseArguments(line: string): Option<seq<string>> {
    if line == [] then Some([]) else ParseQuotedList(line)
  }

  // ---------------------------------------------------------------------
  // Properties
  // ---------------------------------------------------------------------

  lemma {:induction false} ReplaceAppend(a: string, b: string, c: char, replacement: string)
    ensures Replace(a + b, c, replacement) == Replace(a, c, replacement) + Replace(b, c, replacement)
    decreases |a|
  {
    if a == [] {
      assert a + b == b;
    } else {
      assert (a + b)[0] == a[0];
      assert (a + b)[1..] == a[1..] + b;
      ReplaceAppend(a[1..], b, c, replacement);
    }
  }

  /**
   * The two `replace` passes act as one pass over the characters: the
   * backslash the second pass puts before a quote is not doubled, and the
   * backslashes the first pass writes are not touched by the second.
   */
  lemma {:induction false} TwoPassesAreOnePass(s: string)
    ensures Replace(Replace(s, '\\', "\\\\"), '"', "\\\"") == EscapeEach(s)
    decreases |s|
  {
    if s != [] {
      var head := if s[0] == '\\' then "\\\\" else [s[0]];
      assert Replace(s, '\\', "\\\\") == head + Replace(s[1..], '\\', "\\\\");
      ReplaceAppend(head, Replace(s[1..], '\\', "\\\\"), '"', "\\\"");
      TwoPassesAreOnePass(s[1..]);
      if s[0] == '\\' {
        assert Replace(head, '"', "\\\"") == "\\\\" by {
          assert head[1..] == "\\";
          assert head[1..][1..] == [];
        }
      } else if s[0] == '"' {
        assert Replace(head, '"', "\\\"") == "\\\"" by {
          assert head[1..] == [];
        }
      } else {
        assert Replace(head, '"', "\\\"") == [s[0]] by {
          assert head[1..] == [];
        }
      }
    }
  }

  /** `escape_argument` quotes the character-by-character escaping. */
  lemma EscapeArgumentQuotesEachCharacter(arg: string)
    ensures EscapeArgument(arg) == "\"" + EscapeEach(arg) + "\""
  {
    TwoPassesAreOnePass(arg);
  }

  lemma {:induction false} EscapeEachLength(s: string)
    ensures |EscapeEach(s)| == |s| + Count(s, '\\') + Count(s, '"')
    decreases |s|
  {
    if s != [] {
      EscapeEachLength(s[1..]);
    }
  }

  /** The escaped argument is two quotes longer than the argument, plus one for each backslash and each quote. */
  lemma EscapeArgumentLength(arg: string)
    ensures |EscapeArgument(arg)| == |arg| + Count(arg, '\\') + Count(arg, '"') + 2
  {
    EscapeArgumentQuotesEachCharacter(arg);
    EscapeEachLength(arg);
  }

  lemma {:induction false} EscapeEachPlain(s: string)
    requires '\\' !in s && '"' !in s
    ensures EscapeEach(s) == s
    decreases |s|
  {
    if s != [] {
      assert s[1..][..] == s[1..];
      assert forall c :: c in s[1..] ==> c in s;
      EscapeEachPlain(s[1..]);
    }
  }

  /** An argument without backslashes or quotes is only wrapped in quotes. */
  lemma PlainArgumentOnlyQuoted(arg: string)
    requires '\\' !in arg && '"' !in arg
    ensures EscapeArgument(arg) == "\"" + arg + "\""
  {
    EscapeArgumentQuotesEachCharacter(arg);
    EscapeEachPlain(arg);
  }

  lemma {:induction false} UnescapeEscapeEach(arg: string, rest: string)
    ensures Unescape(EscapeEach(arg) + "\"" + rest) == Some((arg, rest))
    decreases |arg|
  {
    var s := EscapeEach(arg) + "\"" + rest;
    if arg == [] {
      assert s == "\"" + rest;
      assert s[1..] == rest;
    } else {
      UnescapeEscapeEach(arg[1..], rest);
      var tail := EscapeEach(arg[1..]) + "\"" + rest;
      var e := EscapeChar(arg[0]);
      assert s == e + tail;
      if arg[0] == '\\' || arg[0] == '"' {
        assert s[2..] == tail;
      } else {
        assert s[1..] == tail;
      }
      assert [arg[0]] + arg[1..] == arg;
    }
  }

  /**
   * Reading an escaped argument back, with `\\` read as a backslash and
   * `\"` as a quote, recovers the argument exactly and stops at the
   * closing quote the escaping added: no character of the argument can
   * close the quotes early.
   */
  lemma EscapeRoundTrip(arg: string, rest: string)
    ensures var e := EscapeArgument(arg);
      Unescape(e[1..] + rest) == Some((arg, rest))
  {
    var e := EscapeArgument(arg);
    EscapeArgumentQuotesEachCharacter(arg);
    assert e[1..] + rest == EscapeEach(arg) + "\"" + rest;
    UnescapeEscapeEach(arg, rest);
  }

  lemma ParseSingle(x: string)
    ensures ParseQuotedList(EscapeArgument(x)) == Some([x])
  {
    var e := EscapeArgument(x);
    EscapeRoundTrip(x, []);
    assert e[1..] + [] == e[1..];
  }

  lemma ParseCons(x: string, line: string, rest: seq<string>)
    requires ParseQuotedList(line) == Some(rest)
    ensures ParseQuotedList(EscapeArgument(x) + " " + line) == Some([x] + rest)
  {
    var e := EscapeArgument(x);
    var whole := e + " " + line;
    EscapeRoundTrip(x, " " + line);
    assert whole[0] == '"';
    assert whole[1..] == e[1..] + (" " + line);
    assert (" " + line)[1..] == line;
  }

  lemma {:induction false} ParseJoined(args: seq<string>)
    requires args != []
    ensures ParseQuotedList(Join(EscapeAll(args), " ")) == Some(args)
    decreases |args|
  {
    if |args| == 1 {
      ParseSingle(args[0]);
      assert [args[0]] == args;
    } else {
      assert EscapeAll(args)[1..] == EscapeAll(args[1..]);
      ParseJoined(args[1..]);
      ParseCons(args[0], Join(EscapeAll(args[1..]), " "), args[1..]);
      assert [args[0]] + args[1..] == args;
    }
  }

  /**
   * The parameter string names exactly the arguments after the program
   * name, in order: reading it back gives `args[1..]`.
   */
  lemma ArgumentsLineRoundTrip(args: seq<string>)
    requires |args| >= 1
    ensures ParseArguments(ArgumentsLine(args)) == Some(args[1..])
  {
    if |args| > 1 {
      ParseJoined(args[1..]);
      assert ArgumentsLine(args) != [] by {
        assert EscapeAll(args[1..])[0] == EscapeArgument(args[1]);
        JoinStartsWithFirst(EscapeAll(args[1..]), " ");
      }
    }
  }

  lemma JoinStartsWithFirst(parts: seq<string>, sep: string)
    requires parts != []
    ensures parts[0] <= Join(parts, sep)
  {
  }

  /** Escaping works character by character, so it distributes over concatenation. */
  lemma {:induction false} EscapeEachAppend(a: string, b: string)
    ensures EscapeEach(a + b) == EscapeEach(a) + EscapeEach(b)
    decreases |a|
  {
    if a == [] {
      assert a + b == b;
    } else {
      EscapeEachAppend(a[1..], b);
      assert (a + b)[0] == a[0] && (a + b)[1..] == a[1..] + b;
      assert EscapeEach(a + b) == EscapeChar(a[0]) + (EscapeEach(a[1..]) + EscapeEach(b));
    }
  }

  lemma QuotedRegroup(a: string, b: string, c: string)
    ensures "\"" + (a + b + c) + "\"" == "\"" + a + b + c + "\""
  {
  }

  /**
   * An argument made of plain text, one special piece and plain text is
   * escaped piece by piece: the plain parts are kept and only the special
   * piece changes.
   */
  lemma EscapeAround(before: string, special: string, after: string)
    requires '\\' !in before && '"' !in before && '\\' !in after && '"' !in after
    ensures EscapeArgument(before + special + after) == "\"" + before + EscapeEach(special) + after + "\""
  {
    var arg := before + special + after;
    EscapeArgumentQuotesEachCharacter(arg);
    EscapeEachAppend(before + special, after);
    EscapeEachAppend(before, special);
    EscapeEachPlain(before);
    EscapeEachPlain(after);
    QuotedRegroup(before, EscapeEach(special), after);
  }

  // The test cases of `escape_argument`. An argument with a special
  // character is written as its pieces, `"with" + "\"" + "quote"` for
  // `with"quote`, and so is the expected result.

  /** The first test case: plain text is only quoted. */
  lemma EscapeSimple()
    ensures EscapeArgument("simple") == "\"simple\""
  {
    EscapeArgumentQuotesEachCharacter("simple");
  }

  /** The second test case: a space needs no escaping. */
  lemma EscapeSpace()
    ensures EscapeArgument("with" + " " + "space") == "\"" + "with" + " " + "space" + "\""
  {
    EscapeAround("with", " ", "space");
  }

  /** The third test case: the inner quote gains one backslash. */
  lemma EscapeQuote()
    ensures EscapeArgument("with" + "\"" + "quote") == "\"" + "with" + "\\\"" + "quote" + "\""
  {
    EscapeAround("with", "\"", "quote");
  }

  /** The fourth test case: the backslash is doubled. */
  lemma EscapeBackslash()
    ensures EscapeArgument("with" + "\\" + "backslash") == "\"" + "with" + "\\\\" + "backslash" + "\""
  {
    EscapeAround("with", "\\", "backslash");
  }

  /** The fifth test case: the backslash is doubled and the quote after it gains one. */
  lemma EscapeBackslashQuote()
    ensures EscapeArgument("with" + "\\\"" + "both") == "\"" + "with" + "\\\\\\\"" + "both" + "\""
  {
    EscapeAround("with", "\\\"", "both");
    assert "\\\""[1..] == "\"";
  }
}
