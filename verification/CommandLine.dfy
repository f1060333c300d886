/** Which counters a `pred` command line is charged to. */
module CommandLine {
  import opened Text
  import opened Budget

  predicate StartsWith(s: string, prefix: string) { prefix <= s }

  predicate ValueOption(arg: string) { arg == "-o" || arg == "--output" }

  /** Global options that carry their value themselves or have none. */
  predicate SingleOption(arg: string) {
    StartsWith(arg, "--output=") || (StartsWith(arg, "-o") && arg != "-o")
    || arg == "-q" || arg == "--quiet" || arg == "--json"
  }

  /** The first word that is neither a global option nor an option value. */
  function CommandName(args: seq<string>): Option<string> {
    if args == [] then None
    else if ValueOption(args[0]) then (if |args| == 1 then None else CommandName(args[2..]))
    else if SingleOption(args[0]) then CommandName(args[1..])
    else if StartsWith(args[0], "-") then CommandName(args[1..])
    else Some(args[0])
  }

  predicate IsCommandWord(arg: string) {
    arg in {"create", "reduce", "solve", "evaluate", "extract", "list", "help"}
  }

  lemma CommandWordsArePlain(arg: string)
    requires IsCommandWord(arg)
    ensures !StartsWith(arg, "-")
  {
    assert arg[0] != '-';
  }

  /** `_command_name`, a loop with a flag that skips the next argument. */
  method FindCommandName(args: seq<string>) returns (r: Option<string>)
    ensures r == CommandName(args)
  {
    var skipValue, i := false, 0;
    while i < |args|
      invariant 0 <= i <= |args|
      invariant CommandName(args) == if skipValue && i < |args| then CommandName(args[i + 1..])
                                     else if skipValue then None else CommandName(args[i..])
    {
      var arg := args[i];
      ghost var rest := args[i..];
      assert rest[0] == arg && rest[1..] == args[i + 1..];
      assert |rest| > 1 ==> rest[2..] == args[i + 2..];
      i := i + 1;
      if skipValue {
        skipValue := false;
        continue;
      }
      if arg == "-o" || arg == "--output" {
        skipValue := true;
        continue;
      }
      if StartsWith(arg, "--output=") || (StartsWith(arg, "-o") && arg != "-o") { continue; }
      if arg in {"-q", "--quiet", "--json"} { continue; }
      if IsCommandWord(arg) {
        CommandWordsArePlain(arg);
        return Some(arg);
      }
      if !StartsWith(arg, "-") { return Some(arg); }
    }
    return None;
  }

  /** A well-formed run of options: `-o` and `--output` are followed by a value, which may be anything, and every
      other word with a dash stands for itself. */
  predicate GlobalOptions(prefix: seq<string>) {
    || prefix == []
    || (prefix[0] in {"-o", "--output"} && |prefix| >= 2 && GlobalOptions(prefix[2..]))
    || (prefix[0] !in {"-o", "--output"} && "-" <= prefix[0] && GlobalOptions(prefix[1..]))
  }

  lemma OptionKindsDisjoint(arg: string)
    ensures ValueOption(arg) <==> arg in {"-o", "--output"}
    ensures !(ValueOption(arg) && SingleOption(arg))
    ensures ValueOption(arg) || SingleOption(arg) ==> "-" <= arg
  {
    assert "-o"[0] == "-q"[0] == "--quiet"[0] == "--json"[0] == "--output"[0] == "--output="[0] == '-';
    if arg == "--output" {
      assert |"--output="| == 9 && arg[1] == '-' && "-o"[1] == 'o';
    }
  }

  /** No run of global options, however long, hides the command behind it. */
  lemma {:induction false} GlobalOptionsTransparent(prefix: seq<string>, rest: seq<string>)
    requires GlobalOptions(prefix)
    ensures CommandName(prefix + rest) == CommandName(rest)
    decreases |prefix|
  {
    if prefix == [] {
      assert prefix + rest == rest;
    } else {
      OptionKindsDisjoint(prefix[0]);
      if ValueOption(prefix[0]) {
        GlobalOptionsTransparent(prefix[2..], rest);
        assert (prefix + rest)[2..] == prefix[2..] + rest;
      } else {
        GlobalOptionsTransparent(prefix[1..], rest);
        assert (prefix + rest)[1..] == prefix[1..] + rest;
      }
    }
  }

  predicate AsksForHelp(args: seq<string>) {
    exists arg :: arg in args && arg in {"--help", "-h", "--version", "-V"}
  }

  /** `_is_free_command`. */
  predicate IsFree(args: seq<string>, command: Option<string>) {
    args == [] || AsksForHelp(args) || command == Some("help") || (command == Some("list") && "--rules" in args)
  }

  /** The counters a call reserves. */
  function Counters(args: seq<string>): (r: seq<Counter>)
    ensures Distinct(r)
  {
    if IsFree(args, CommandName(args)) then []
    else if CommandName(args) == Some("solve") then [PredCalls, SolveCalls]
    else [PredCalls]
  }

  /** The words with which a call asks for help or the version. */
  predicate HelpWord(arg: string) { arg == "--help" || arg == "-h" || arg == "--version" || arg == "-V" }

  /** What a call is charged, read off its words. Behind any run of options, and unless a word asks for help or the
      version, the first word that is no option decides: `help` is free, `list` is free with `--rules` anywhere,
      and everything else reserves one pred call, and a solve call on top exactly if it is `solve`. */
  lemma ChargedByFirstWord(prefix: seq<string>, rest: seq<string>)
    requires GlobalOptions(prefix) && rest != [] && !("-" <= rest[0])
    requires forall arg :: arg in prefix + rest ==> !HelpWord(arg)
    ensures var free := rest[0] == "help" || (rest[0] == "list" && "--rules" in prefix + rest);
      Counters(prefix + rest) == if free then [] else if rest[0] == "solve" then [PredCalls, SolveCalls] else [PredCalls]
  {
    GlobalOptionsTransparent(prefix, rest);
    OptionKindsDisjoint(rest[0]);
    assert CommandName(rest) == Some(rest[0]);
    assert "solve"[0] == 's' && "help"[0] == 'h' && "list"[0] == 'l';
  }

  /** Options without a command are charged as a pred call, also when the value of the last one is missing. */
  lemma OptionsAloneAreCharged(prefix: seq<string>, dangling: seq<string>)
    requires GlobalOptions(prefix) && prefix + dangling != [] && dangling in {[], ["-o"], ["--output"]}
    requires forall arg :: arg in prefix + dangling ==> !HelpWord(arg)
    ensures Counters(prefix + dangling) == [PredCalls]
  {
    GlobalOptionsTransparent(prefix, dangling);
  }

  /** Nothing at all, or a word that asks for help or the version, wherever it stands, makes a call free. */
  lemma HelpIsFree(args: seq<string>)
    requires args == [] || exists arg :: arg in args && HelpWord(arg)
    ensures Counters(args) == []
  {
    if args != [] {
      var arg :| arg in args && HelpWord(arg);
      assert arg in args && arg in {"--help", "-h", "--version", "-V"};
    }
  }

  /** The first `n` words are options, and behind them is a first word, or nothing, or an option without its value. */
  predicate SplitsAt(args: seq<string>, n: nat) {
    n <= |args| && GlobalOptions(args[..n])
    && if n < |args| then !("-" <= args[n]) || args[n..] == ["-o"] || args[n..] == ["--output"] else true
  }

  /** These are all command lines there are. */
  lemma {:induction false} EveryCallSplits(args: seq<string>)
    ensures exists n :: SplitsAt(args, n)
    decreases |args|
  {
    if args == [] || !("-" <= args[0]) || args == ["-o"] || args == ["--output"] {
      assert SplitsAt(args, 0) by { assert args[0..] == args; }
    } else {
      var skip := if args[0] in {"-o", "--output"} then 2 else 1;
      if |args| == 1 { assert args == [args[0]]; }
      EveryCallSplits(args[skip..]);
      var m: nat :| SplitsAt(args[skip..], m);
      OptionsExtend(args, skip, m);
      assert args[skip..][m..] == args[skip + m..];
      assert SplitsAt(args, skip + m);
    }
  }

  lemma OptionsExtend(args: seq<string>, skip: nat, m: nat)
    requires "-" <= (if args == [] then "" else args[0])
    requires skip == (if args[0] in {"-o", "--output"} then 2 else 1) && skip + m <= |args|
    requires GlobalOptions(args[skip..][..m])
    ensures GlobalOptions(args[..skip + m])
  {
    assert args[..skip + m][skip..] == args[skip..][..m];
  }

  /** A solve behind global options is still charged as a solve unless it asks for help. */
  lemma SolveBehindOptionsIsCharged(prefix: seq<string>, rest: seq<string>)
    requires GlobalOptions(prefix) && CommandName(rest) == Some("solve") && !AsksForHelp(prefix + rest)
    ensures Counters(prefix + rest) == [PredCalls, SolveCalls]
  {
    GlobalOptionsTransparent(prefix, rest);
    assert "solve"[0] == 's' && "help"[0] == 'h' && "list"[0] == 'l';
    assert rest != [];
  }

  // ---------------------------------------------------------------- shell quoting, as in `shlex`

  predicate IsSafe(c: char) {
    'a' <= c <= 'z' || 'A' <= c <= 'Z' || IsDigit(c) || c in "_@%+=:,./-"
  }

  function EscapeQuotes(s: string): string {
    if s == "" then "" else (if s[0] == '\'' then "'\"'\"'" else [s[0]]) + EscapeQuotes(s[1..])
  }

  function Quote(s: string): string {
    if s == "" then "''" else if forall c :: c in s ==> IsSafe(c) then s else "'" + EscapeQuotes(s) + "'"
  }

  function JoinQuoted(args: seq<string>): string {
    if args == [] then "" else if |args| == 1 then Quote(args[0]) else Quote(args[0]) + " " + JoinQuoted(args[1..])
  }

  /** Where a reader of shell words is: between words, in a word, or within quotes. */
  datatype Mode = Between | Plain | Single | Double

  /** Reads a command line into words, as a POSIX shell does: blanks separate, single quotes hold everything, double
      quotes hold everything but a backslash, a backslash takes the next character. `None` if a quote stays open. */
  function ShellWords(s: string, mode: Mode, word: string): Option<seq<string>>
    decreases |s|
  {
    if s == "" then (if mode.Between? then Some([]) else if mode.Plain? then Some([word]) else None)
    else
      var c, rest := s[0], s[1..];
      match mode
      case Single => if c == '\'' then ShellWords(rest, Plain, word) else ShellWords(rest, Single, word + [c])
      case Double =>
        if c == '"' then ShellWords(rest, Plain, word)
        else if c == '\\' then (if rest == "" then None else ShellWords(rest[1..], Double, word + [rest[0]]))
        else ShellWords(rest, Double, word + [c])
      case _ =>
        if c == ' ' || c == '\t' || c == '\r' || c == '\n' then
          var words := ShellWords(rest, Between, "");
          if mode.Between? || words.None? then words else Some([word] + words.value)
        else if c == '\'' then ShellWords(rest, Single, word)
        else if c == '"' then ShellWords(rest, Double, word)
        else if c == '\\' then (if rest == "" then None else ShellWords(rest[1..], Plain, word + [rest[0]]))
        else ShellWords(rest, Plain, word + [c])
  }

  lemma {:induction false} PlainReads(t: string, rest: string, word: string)
    requires forall c :: c in t ==> IsSafe(c)
    ensures ShellWords(t + rest, Plain, word) == ShellWords(rest, Plain, word + t)
  {
    if t == "" {
      assert t + rest == rest && word + t == word;
    } else {
      assert (t + rest)[1..] == t[1..] + rest && (word + [t[0]]) + t[1..] == word + t;
      assert IsSafe(t[0]);
      PlainReads(t[1..], rest, word + [t[0]]);
    }
  }

  lemma {:induction false} SingleReads(t: string, rest: string, word: string)
    ensures ShellWords(EscapeQuotes(t) + ("'" + rest), Single, word) == ShellWords(rest, Plain, word + t)
    decreases |t|
  {
    var tail := "'" + rest;
    if t == "" {
      assert EscapeQuotes(t) + tail == tail && tail[1..] == rest && word + t == word;
    } else {
      var more := EscapeQuotes(t[1..]) + tail;
      SingleReads(t[1..], rest, word + [t[0]]);
      assert (word + [t[0]]) + t[1..] == word + t;
      if t[0] == '\'' {
        assert EscapeQuotes(t) + tail == "'\"'\"'" + more;
        QuoteInQuotes(more, word);
      } else {
        assert EscapeQuotes(t) + tail == [t[0]] + more;
        assert ([t[0]] + more)[1..] == more;
      }
    }
  }

  /** A quote within single quotes: out of them, in double quotes, and back in. */
  lemma QuoteInQuotes(more: string, word: string)
    ensures ShellWords("'\"'\"'" + more, Single, word) == ShellWords(more, Single, word + ['\''])
  {
    var s := "'\"'\"'" + more;
    var s1, s2, s3, s4, s5 := s[1..], s[2..], s[3..], s[4..], s[5..];
    assert s5 == more && s4[1..] == s5 && s3[1..] == s4 && s2[1..] == s3 && s1[1..] == s2;
    assert ShellWords(s, Single, word) == ShellWords(s1, Plain, word);
    assert ShellWords(s1, Plain, word) == ShellWords(s2, Double, word);
    assert ShellWords(s2, Double, word) == ShellWords(s3, Double, word + ['\'']);
    assert ShellWords(s3, Double, word + ['\'']) == ShellWords(s4, Plain, word + ['\'']);
  }

  lemma SafeStarts(c: char, rest: string)
    requires IsSafe(c)
    ensures ShellWords([c] + rest, Between, "") == ShellWords(rest, Plain, [c])
  {
    assert ([c] + rest)[1..] == rest && "" + [c] == [c];
  }

  lemma EmptyReads(rest: string)
    ensures ShellWords("''" + rest, Between, "") == ShellWords(rest, Plain, "")
  {
    assert ("''" + rest)[1..] == "'" + rest && ("'" + rest)[1..] == rest;
  }

  lemma QuoteOpens(more: string)
    ensures ShellWords("'" + more, Between, "") == ShellWords(more, Single, "")
  {
    assert ("'" + more)[1..] == more;
  }

  lemma QuoteReads(arg: string, rest: string)
    ensures ShellWords(Quote(arg) + rest, Between, "") == ShellWords(rest, Plain, arg)
  {
    hide ShellWords, IsSafe, EscapeQuotes;
    if arg == "" {
      EmptyReads(rest);
    } else if forall c :: c in arg ==> IsSafe(c) {
      var tail := arg[1..] + rest;
      assert arg == [arg[0]] + arg[1..] && arg + rest == [arg[0]] + tail;
      SafeStarts(arg[0], tail);
      PlainReads(arg[1..], rest, [arg[0]]);
    } else {
      var more := EscapeQuotes(arg) + ("'" + rest);
      assert Quote(arg) + rest == "'" + more;
      QuoteOpens(more);
      SingleReads(arg, rest, "");
      assert "" + arg == arg;
    }
  }

  /** The command text of a call tells its arguments: read as a shell reads it, it gives them back, whatever
      characters are in them. */
  lemma {:induction false} CommandReadsBack(args: seq<string>)
    ensures ShellWords(JoinQuoted(args), Between, "") == Some(args)
  {
    if |args| == 1 {
      QuoteReads(args[0], "");
      assert Quote(args[0]) + "" == Quote(args[0]) && args == [args[0]];
    } else if args != [] {
      var rest := " " + JoinQuoted(args[1..]);
      QuoteReads(args[0], rest);
      CommandReadsBack(args[1..]);
      assert JoinQuoted(args) == Quote(args[0]) + rest && rest[1..] == JoinQuoted(args[1..]);
      assert args == [args[0]] + args[1..];
    }
  }

  /** An argument is quoted exactly if it is empty or has a character that is no letter, digit, or one of a few. */
  lemma QuotedIfNeeded(arg: string)
    ensures Quote(arg) == arg <==>
      arg != "" && forall c :: c in arg ==> 'a' <= c <= 'z' || 'A' <= c <= 'Z' || '0' <= c <= '9' || c in "_@%+=:,./-"
  {
    if arg != "" && !(forall c :: c in arg ==> IsSafe(c)) {
      var escaped := EscapeQuotes(arg);
      EscapedLength(arg);
      assert |Quote(arg)| > |arg|;
    }
  }

  lemma {:induction false} EscapedLength(arg: string)
    ensures |EscapeQuotes(arg)| >= |arg|
  {
    if arg != "" { EscapedLength(arg[1..]); }
  }

  /** The command text under which a gateway call is recorded. */
  function PredCommand(args: seq<string>): string { "pred " + JoinQuoted(args) }
}
