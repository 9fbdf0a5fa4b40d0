/**
 * `NUnitBuilder`: the build step that resolves the NUnit console, assembles its argument list,
 * launches it (directly on Unix, through a temporary batch script elsewhere) and turns its exit
 * code into a build result.
 *
 * Jenkins is replaced by explicit objects and parameters: the build (`Run`), the workspace's
 * temporary files (`Workspace`), the process launcher (`Launcher`), the build log
 * (`TaskLog.Logger`) and the tool descriptor (`NUnitInstallation.InstallationDescriptor`).
 * Macro expansion, glob listing, URI relativisation, the node translation of a tool home and the
 * quoting of a command line for the log are foreign code and enter through `Host`.
 */
module NUnitBuilder {
  import opened Wrappers
  import opened JavaText
  import TaskLog
  import Inst = NUnitInstallation
  import Decorator = NUnitListenerDecorator

  // ---------------------------------------------------------------------------------------------
  // Formatting of single arguments
  // ---------------------------------------------------------------------------------------------

  /** Position of the first `c` in `s` at or after `from`, or `|s|` when there is none. */
  function IndexOf(s: string, c: char, from: nat): (k: nat)
    requires from <= |s|
    ensures from <= k <= |s| && (k < |s| ==> s[k] == c)
    ensures forall m :: from <= m < k ==> s[m] != c
    decreases |s| - from
  {
    if from == |s| || s[from] == c then from else IndexOf(s, c, from + 1)
  }

  /** Reads an argument of the form `/option:param` back into its two parts. */
  function ParseOption(s: string): Option<(string, string)> {
    if |s| == 0 || s[0] != '/' then None
    else
      var k := IndexOf(s, ':', 1);
      if k == |s| then None else Some((s[1..k], s[k + 1..]))
  }

  /** Removes one pair of surrounding double quotes. */
  function Unquote(s: string): Option<string> {
    if |s| >= 2 && s[0] == '"' && s[|s| - 1] == '"' then Some(s[1..|s| - 1]) else None
  }

  /** `convertArgument`: `/option:param`. The option name and the value read back from it whenever
      the option name holds no colon (every option name the builder uses is a colon-free constant). */
  function ConvertArgument(option: string, param: string): (r: string)
    ensures (forall m :: 0 <= m < |option| ==> option[m] != ':') ==> ParseOption(r) == Some((option, param))
  {
    var r := "/" + option + ":" + param;
    assert (forall m :: 0 <= m < |option| ==> option[m] != ':') ==> ParseOption(r) == Some((option, param)) by {
      if forall m :: 0 <= m < |option| ==> option[m] != ':' {
        assert r[1..1 + |option|] == option;
        assert r[1 + |option|] == ':';
        assert forall m :: 1 <= m < 1 + |option| ==> r[m] == option[m - 1];
        assert IndexOf(r, ':', 1) == 1 + |option|;
        assert r[2 + |option|..] == param;
      }
    }
    r
  }

  /** `appendQuote`: the value between double quotes, which `Unquote` removes again. */
  function AppendQuote(value: string): (r: string)
    ensures Unquote(r) == Some(value)
  {
    var r := "\"" + value + "\"";
    assert r[1..|r| - 1] == value;
    r
  }

  /** `convertArgumentWithQuote`: `/option:"param"`, the plain form applied to the quoted value, so
      it reads back the same way. */
  function ConvertArgumentWithQuote(option: string, param: string): (r: string)
    ensures r == ConvertArgument(option, AppendQuote(param))
    ensures (forall m :: 0 <= m < |option| ==> option[m] != ':') ==>
              var p := ParseOption(r); p.Some? && p.value.0 == option && Unquote(p.value.1) == Some(param)
  {
    var r := "/" + option + ":\"" + param + "\"";
    assert r == ConvertArgument(option, AppendQuote(param));
    r
  }

  // ---------------------------------------------------------------------------------------------
  // concatString: the text of the Windows batch script
  // ---------------------------------------------------------------------------------------------

  /** The words joined by single spaces. */
  function Join(words: seq<string>): string {
    if words == [] then ""
    else if |words| == 1 then words[0]
    else Join(words[..|words| - 1]) + " " + words[|words| - 1]
  }

  /** The arguments after the leading empty ones, which add no separator to an empty buffer. */
  function DropLeadingEmpty(args: seq<string>): (r: seq<string>)
    ensures r == [] || r[0] != ""
  {
    if args != [] && args[0] == "" then DropLeadingEmpty(args[1..]) else args
  }

  /** Only empty arguments are dropped, and only from the front: what is left is a suffix of the
      arguments, and every argument before it is empty. */
  lemma {:induction false} DropLeadingEmptyIsSuffix(args: seq<string>)
    ensures var r := DropLeadingEmpty(args);
            && |r| <= |args| && r == args[|args| - |r|..]
            && forall m :: 0 <= m < |args| - |r| ==> args[m] == ""
  {
    if args != [] && args[0] == "" {
      var rest := args[1..];
      DropLeadingEmptyIsSuffix(rest);
      var r := DropLeadingEmpty(rest);
      assert rest[|rest| - |r|..] == args[|args| - |r|..];
      forall m | 0 <= m < |args| - |r| ensures args[m] == "" {
        if m > 0 {
          assert args[m] == rest[m - 1];
        }
      }
    }
  }

  lemma {:induction false} DropLeadingEmptySnoc(args: seq<string>, a: string)
    ensures DropLeadingEmpty(args + [a])
            == if DropLeadingEmpty(args) == [] then DropLeadingEmpty([a]) else DropLeadingEmpty(args) + [a]
  {
    if args != [] {
      assert (args + [a])[1..] == args[1..] + [a];
      if args[0] == "" {
        DropLeadingEmptySnoc(args[1..], a);
      }
    }
  }

  lemma JoinNonEmpty(words: seq<string>)
    requires words != [] && words[0] != ""
    ensures Join(words) != ""
  {
    if |words| > 1 {
      assert Join(words) == Join(words[..|words| - 1]) + " " + words[|words| - 1];
    }
  }

  /** Appending an argument: it becomes the whole text of an empty buffer, and is added after a
      single space otherwise. */
  lemma JoinDropSnoc(args: seq<string>, a: string)
    ensures var before := Join(DropLeadingEmpty(args));
            Join(DropLeadingEmpty(args + [a])) == if before == "" then a else before + " " + a
  {
    DropLeadingEmptySnoc(args, a);
    var d := DropLeadingEmpty(args);
    if d != [] {
      JoinNonEmpty(d);
      assert (d + [a])[..|d|] == d;
    }
  }

  /**
   * `concatString`: the arguments joined by single spaces, where a separator is written only once
   * the buffer is non-empty (so leading empty arguments vanish).
   */
  method ConcatString(args: seq<string>) returns (r: string)
    ensures r == Join(DropLeadingEmpty(args))
  {
    r := "";
    var i := 0;
    while i < |args|
      invariant 0 <= i <= |args|
      invariant r == Join(DropLeadingEmpty(args[..i]))
    {
      assert args[..i + 1] == args[..i] + [args[i]];
      JoinDropSnoc(args[..i], args[i]);
      if |r| > 0 {
        r := r + " " + args[i];
      } else {
        r := args[i];
      }
      i := i + 1;
    }
    assert args[..|args|] == args;
  }

  /** A single-space join of non-empty words without delimiters splits back into the same words,
      so the script holds exactly the arguments when none of them contains white space. */
  lemma {:induction false} JoinSplitsBack(words: seq<string>)
    requires forall k :: 0 <= k < |words| ==> words[k] != "" && DelimiterFree(words[k])
    ensures Tokens(Join(words)) == words
  {
    if words == [] {
      assert Tokens("") == [];
    } else if |words| == 1 {
      TokensOfWord(words[0]);
    } else {
      var init := words[..|words| - 1];
      var last := words[|words| - 1];
      JoinSplitsBack(init);
      TokensOfWord(last);
      TokensSplitAtDelimiter(Join(init), ' ', last);
      assert Join(init) + " " + last == Join(init) + [' '] + last;
      assert words == init + [last];
    }
  }

  /** When every argument is a non-empty word, the script's words are exactly the arguments. */
  lemma ScriptWordsAreArguments(args: seq<string>)
    requires forall k :: 0 <= k < |args| ==> args[k] != "" && DelimiterFree(args[k])
    ensures Tokens(Join(DropLeadingEmpty(args))) == args
  {
    assert DropLeadingEmpty(args) == args;
    JoinSplitsBack(args);
  }

  // ---------------------------------------------------------------------------------------------
  // The host: foreign code the builder calls
  // ---------------------------------------------------------------------------------------------

  /** What `translateFor` gives for a tool home on the build's node: a home, or an exception. */
  datatype Translation = Translated(home: Option<string>) | TranslationFailed

  /**
   * The foreign functions of one build:
   * `expand` is macro expansion with the build's environment (`Util.replaceMacro`, `EnvVars.expand`);
   * `list` is `workspace.list(pattern)`, the matched files, or `None` for an `IOException`;
   * `relativize` gives a matched file's path relative to the workspace;
   * `translate` is `translateFor` on the build's node;
   * `pathSeparator` is `File.pathSeparatorChar` of the controller;
   * `quoteForLog` is `ArgumentListBuilder.toStringWithQuote`.
   */
  datatype Host = Host(
    expand: string -> string,
    list: string -> Option<seq<string>>,
    relativize: string -> string,
    translate: Inst.Installation -> Translation,
    pathSeparator: char,
    quoteForLog: seq<string> -> string)

  /** `Util.replaceMacro` on a possibly null string: null stays null. */
  function ExpandOrNull(host: Host, s: Option<string>): (r: Option<string>)
    ensures r.None? <==> s.None?
    ensures s.Some? ==> r.value == host.expand(s.value)
  {
    if s.Some? then Some(host.expand(s.value)) else None
  }

  // ---------------------------------------------------------------------------------------------
  // getTestFilesArguments
  // ---------------------------------------------------------------------------------------------

  predicate NoDuplicates(xs: seq<string>) {
    forall i, j :: 0 <= i < j < |xs| ==> xs[i] != xs[j]
  }

  /** `files.add(x)` on a set kept in first-insertion order. */
  function AddIfAbsent(acc: seq<string>, x: string): seq<string> {
    if x in acc then acc else acc + [x]
  }

  /** Adding each of `xs` in turn. */
  function AddAll(acc: seq<string>, xs: seq<string>): seq<string> {
    if xs == [] then acc else AddIfAbsent(AddAll(acc, xs[..|xs| - 1]), xs[|xs| - 1])
  }

  lemma AddAllSnoc(acc: seq<string>, xs: seq<string>, j: nat)
    requires j < |xs|
    ensures AddAll(acc, xs[..j + 1]) == AddIfAbsent(AddAll(acc, xs[..j]), xs[j])
  {
    assert xs[..j + 1][..j] == xs[..j];
  }

  /** Adding to a set: nothing is duplicated, and the members are the old ones and the added ones. */
  lemma {:induction false} AddAllCharacterised(acc: seq<string>, xs: seq<string>)
    ensures NoDuplicates(acc) ==> NoDuplicates(AddAll(acc, xs))
    ensures forall y :: y in AddAll(acc, xs) <==> y in acc || y in xs
  {
    if xs != [] {
      var init := xs[..|xs| - 1];
      AddAllCharacterised(acc, init);
      assert xs == init + [xs[|xs| - 1]];
    }
  }

  /** The quoted, workspace-relative paths of the files one token matches; a token that expands
      to a blank pattern, or whose listing fails, contributes nothing. */
  function TokenTargets(host: Host, token: string): seq<string> {
    var pattern := host.expand(token);
    if IsBlank(pattern) then []
    else match host.list(pattern)
      case None => []
      case Some(files) => seq(|files|, k requires 0 <= k < |files| => AppendQuote(host.relativize(files[k])))
  }

  /** The targets of the tokens, collected in order into one duplicate-free list. */
  function Collect(host: Host, tokens: seq<string>): seq<string> {
    if tokens == [] then [] else AddAll(Collect(host, tokens[..|tokens| - 1]), TokenTargets(host, tokens[|tokens| - 1]))
  }

  lemma CollectSnoc(host: Host, tokens: seq<string>, i: nat, before: seq<string>, after: seq<string>)
    requires i < |tokens| && before == Collect(host, tokens[..i])
    requires after == AddAll(before, TokenTargets(host, tokens[i]))
             || ((IsBlank(host.expand(tokens[i])) || host.list(host.expand(tokens[i])).None?) && after == before)
    ensures after == Collect(host, tokens[..i + 1])
  {
    assert tokens[..i + 1][..i] == tokens[..i];
  }

  lemma AddMatchSnoc(host: Host, token: string, files: seq<string>, acc: seq<string>, j: nat)
    requires !IsBlank(host.expand(token)) && host.list(host.expand(token)) == Some(files) && j < |files|
    ensures AddAll(acc, TokenTargets(host, token)[..j + 1])
            == AddIfAbsent(AddAll(acc, TokenTargets(host, token)[..j]), AppendQuote(host.relativize(files[j])))
  {
    AddAllSnoc(acc, TokenTargets(host, token), j);
  }

  lemma AddMatchesDone(host: Host, token: string, files: seq<string>, acc: seq<string>)
    requires !IsBlank(host.expand(token)) && host.list(host.expand(token)) == Some(files)
    ensures AddAll(acc, TokenTargets(host, token)[..|files|]) == AddAll(acc, TokenTargets(host, token))
  {
    assert TokenTargets(host, token)[..|files|] == TokenTargets(host, token);
  }

  /** The test-file arguments for a pattern string. */
  function TestFileTargets(host: Host, testFiles: string): seq<string> {
    Collect(host, Tokens(testFiles))
  }

  lemma {:induction false} CollectCharacterised(host: Host, tokens: seq<string>)
    ensures NoDuplicates(Collect(host, tokens))
    ensures forall x :: x in Collect(host, tokens)
                        <==> exists k :: 0 <= k < |tokens| && x in TokenTargets(host, tokens[k])
  {
    if tokens != [] {
      var init := tokens[..|tokens| - 1];
      CollectCharacterised(host, init);
      AddAllCharacterised(Collect(host, init), TokenTargets(host, tokens[|tokens| - 1]));
      forall x | x in Collect(host, tokens)
        ensures exists k :: 0 <= k < |tokens| && x in TokenTargets(host, tokens[k])
      {
        if x in Collect(host, init) {
          var k :| 0 <= k < |init| && x in TokenTargets(host, init[k]);
          assert tokens[k] == init[k];
        }
      }
      forall x | exists k :: 0 <= k < |tokens| && x in TokenTargets(host, tokens[k])
        ensures x in Collect(host, tokens)
      {
        var k :| 0 <= k < |tokens| && x in TokenTargets(host, tokens[k]);
        if k < |init| {
          assert tokens[k] == init[k];
        }
      }
    }
  }

  /**
   * The test-file arguments hold no duplicates, and a string is among them exactly when it is
   * the quoted relative path of a file matched by some token of the pattern string (split on
   * space, tab, CR and LF), after macro expansion, with blank patterns and failed listings skipped.
   */
  lemma TestFileTargetsCharacterised(host: Host, testFiles: string, x: string)
    ensures NoDuplicates(TestFileTargets(host, testFiles))
    ensures x in TestFileTargets(host, testFiles)
            <==> exists t, f :: t in Tokens(testFiles) && !IsBlank(host.expand(t))
                                && host.list(host.expand(t)).Some? && f in host.list(host.expand(t)).value
                                && x == AppendQuote(host.relativize(f))
  {
    var tokens := Tokens(testFiles);
    CollectCharacterised(host, tokens);
    if x in TestFileTargets(host, testFiles) {
      var k :| 0 <= k < |tokens| && x in TokenTargets(host, tokens[k]);
      var t := tokens[k];
      var files := host.list(host.expand(t)).value;
      var m :| 0 <= m < |files| && x == AppendQuote(host.relativize(files[m]));
      assert t in tokens && files[m] in files;
    }
    if exists t, f :: t in tokens && !IsBlank(host.expand(t))
                      && host.list(host.expand(t)).Some? && f in host.list(host.expand(t)).value
                      && x == AppendQuote(host.relativize(f)) {
      var t, f :| t in tokens && !IsBlank(host.expand(t))
                  && host.list(host.expand(t)).Some? && f in host.list(host.expand(t)).value
                  && x == AppendQuote(host.relativize(f));
      var k :| 0 <= k < |tokens| && tokens[k] == t;
      var files := host.list(host.expand(t)).value;
      var m :| 0 <= m < |files| && files[m] == f;
      assert TokenTargets(host, t)[m] == x;
    }
  }

  // ---------------------------------------------------------------------------------------------
  // The argument list of perform
  // ---------------------------------------------------------------------------------------------

  /** The builder's configuration: the eight optional strings and the two flags. */
  datatype Config = Config(
    nunitName: Option<string>,
    testFiles: Option<string>,
    settings: Option<string>,
    tests: Option<string>,
    testCaseFilter: Option<string>,
    platform: Option<string>,
    framework: Option<string>,
    cmdLineArgs: Option<string>,
    enableCodeCoverage: bool,
    failBuild: bool)

  /** The groups of the argument list, in the order `perform` appends them. */
  datatype Group = Executable | TestFiles | Settings | Tests | TestCaseFilter | CodeCoverage
                 | Platform | Framework | CmdLineArgs

  /** The groups in argument-list order. */
  const Groups: seq<Group> :=
    [Executable, TestFiles, Settings, Tests, TestCaseFilter, CodeCoverage, Platform, Framework, CmdLineArgs]

  /** Number of groups. */
  const GroupCount: nat := 9

  /** The position of a group in the argument list. */
  function Rank(g: Group): (k: nat)
    ensures k < GroupCount && k < |Groups| && Groups[k] == g
  {
    match g
    case Executable => 0
    case TestFiles => 1
    case Settings => 2
    case Tests => 3
    case TestCaseFilter => 4
    case CodeCoverage => 5
    case Platform => 6
    case Framework => 7
    case CmdLineArgs => 8
  }

  /** The group at position `k`; the inverse of `Rank`. */
  function GroupAt(k: nat): (g: Group)
    requires k < GroupCount
    ensures Rank(g) == k
  {
    Groups[k]
  }

  /** What one group contributes: the executable always; test files only for a non-blank
      pattern; Settings, Tests, TestCaseFilter and the manual arguments only when the field is
      not blank, expanded afterwards; Platform and Framework when the expanded field is not blank. */
  function GroupTexts(c: Config, host: Host, exe: string, targets: seq<string>, g: Group): seq<string>
  {
    match g
    case Executable => [exe]
    case TestFiles => if IsBlankOrNull(c.testFiles) then [] else targets
    case Settings =>
      if IsBlankOrNull(c.settings) then [] else [ConvertArgumentWithQuote("Settings", host.expand(c.settings.value))]
    case Tests =>
      if IsBlankOrNull(c.tests) then [] else [ConvertArgument("Tests", host.expand(c.tests.value))]
    case TestCaseFilter =>
      if IsBlankOrNull(c.testCaseFilter) then []
      else [ConvertArgumentWithQuote("TestCaseFilter", host.expand(c.testCaseFilter.value))]
    case CodeCoverage => if c.enableCodeCoverage then ["/Enablecodecoverage"] else []
    case Platform =>
      var p := ExpandOrNull(host, c.platform);
      if IsBlankOrNull(p) then [] else [ConvertArgument("Platform", p.value)]
    case Framework =>
      var f := ExpandOrNull(host, c.framework);
      if IsBlankOrNull(f) then [] else [ConvertArgument("Framework", f.value)]
    case CmdLineArgs => if IsBlankOrNull(c.cmdLineArgs) then [] else [host.expand(c.cmdLineArgs.value)]
  }

  /** The groups that are not options: the executable alone, the targets for a non-blank
      pattern, the coverage switch exactly when enabled, and the expanded manual arguments as one
      argument exactly when they are not blank. Only the test files can hold several arguments. */
  lemma PlainGroups(c: Config, host: Host, exe: string, targets: seq<string>, g: Group)
    ensures var r := GroupTexts(c, host, exe, targets, g);
            && (|r| <= 1 || g == TestFiles)
            && (g == Executable ==> r == [exe])
            && (g == TestFiles ==> r == if IsBlankOrNull(c.testFiles) then [] else targets)
            && (g == CodeCoverage ==> (r != [] <==> c.enableCodeCoverage) && (r != [] ==> r == ["/Enablecodecoverage"]))
            && (g == CmdLineArgs ==> (r == [] <==> IsBlankOrNull(c.cmdLineArgs)))
            && (g == CmdLineArgs && r != [] ==> c.cmdLineArgs.Some? && r == [host.expand(c.cmdLineArgs.value)])
  {
  }

  /** Settings and TestCaseFilter are emitted exactly when the configured field is not blank (a
      value that expands to blank is still emitted), as one `/option:"value"` argument that reads
      back to the option name and the quoted expanded value. */
  lemma QuotedOptionGroups(c: Config, host: Host, exe: string, targets: seq<string>, g: Group)
    ensures var r := GroupTexts(c, host, exe, targets, g);
            && (g == Settings ==> (r == [] <==> IsBlankOrNull(c.settings)))
            && (g == Settings && r != [] ==> (c.settings.Some? &&
                  ParseOption(r[0]) == Some(("Settings", AppendQuote(host.expand(c.settings.value))))))
            && (g == TestCaseFilter ==> (r == [] <==> IsBlankOrNull(c.testCaseFilter)))
            && (g == TestCaseFilter && r != [] ==> (c.testCaseFilter.Some? &&
                  ParseOption(r[0]) == Some(("TestCaseFilter", AppendQuote(host.expand(c.testCaseFilter.value))))))
  {
    var r := GroupTexts(c, host, exe, targets, g);
    if g == Settings && r != [] {
      assert forall m :: 0 <= m < |"Settings"| ==> "Settings"[m] != ':';
    } else if g == TestCaseFilter && r != [] {
      assert forall m :: 0 <= m < |"TestCaseFilter"| ==> "TestCaseFilter"[m] != ':';
    }
  }

  /** Tests is emitted exactly when the configured field is not blank, Platform and Framework
      exactly when the expanded field is not blank; each as one `/option:value` argument that reads
      back to the option name and the expanded value. */
  lemma PlainOptionGroups(c: Config, host: Host, exe: string, targets: seq<string>, g: Group)
    ensures var r := GroupTexts(c, host, exe, targets, g);
            && (g == Tests ==> (r == [] <==> IsBlankOrNull(c.tests)))
            && (g == Tests && r != [] ==> c.tests.Some? && ParseOption(r[0]) == Some(("Tests", host.expand(c.tests.value))))
            && (g == Platform ==> (r == [] <==> IsBlankOrNull(ExpandOrNull(host, c.platform))))
            && (g == Platform && r != [] ==> (ExpandOrNull(host, c.platform).Some? &&
                  ParseOption(r[0]) == Some(("Platform", ExpandOrNull(host, c.platform).value))))
            && (g == Framework ==> (r == [] <==> IsBlankOrNull(ExpandOrNull(host, c.framework))))
            && (g == Framework && r != [] ==> (ExpandOrNull(host, c.framework).Some? &&
                  ParseOption(r[0]) == Some(("Framework", ExpandOrNull(host, c.framework).value))))
  {
    var r := GroupTexts(c, host, exe, targets, g);
    if g == Tests && r != [] {
      assert forall m :: 0 <= m < |"Tests"| ==> "Tests"[m] != ':';
    } else if g == Platform && r != [] {
      assert forall m :: 0 <= m < |"Platform"| ==> "Platform"[m] != ':';
    } else if g == Framework && r != [] {
      assert forall m :: 0 <= m < |"Framework"| ==> "Framework"[m] != ':';
    }
  }

  /** An argument together with the group it belongs to. */
  datatype Arg = Arg(group: Group, text: string)

  function Tag(g: Group, texts: seq<string>): (r: seq<Arg>)
    ensures |r| == |texts|
    ensures forall k :: 0 <= k < |r| ==> r[k] == Arg(g, texts[k])
  {
    seq(|texts|, k requires 0 <= k < |texts| => Arg(g, texts[k]))
  }

  function Texts(args: seq<Arg>): (r: seq<string>)
    ensures |r| == |args|
    ensures forall k :: 0 <= k < |r| ==> r[k] == args[k].text
  {
    seq(|args|, k requires 0 <= k < |args| => args[k].text)
  }

  /** The arguments of the group `g`, in their order. */
  function Select(args: seq<Arg>, g: Group): seq<Arg> {
    if args == [] then []
    else (if args[0].group == g then [args[0]] else []) + Select(args[1..], g)
  }

  /** The first `k` groups, one after another. */
  function Layout(k: nat, texts: Group -> seq<string>): seq<Arg>
    requires k <= GroupCount
  {
    if k == 0 then [] else Layout(k - 1, texts) + Tag(GroupAt(k - 1), texts(GroupAt(k - 1)))
  }

  /** `GroupTexts` for one configuration, as a function of the group. */
  function TextsOf(c: Config, host: Host, exe: string, targets: seq<string>): Group -> seq<string> {
    g => GroupTexts(c, host, exe, targets, g)
  }

  /** The argument list `perform` builds, each argument with its group. */
  function TaggedArguments(c: Config, host: Host, exe: string, targets: seq<string>): seq<Arg> {
    Layout(GroupCount, TextsOf(c, host, exe, targets))
  }

  /** The argument list `perform` hands to `execNUnit`. */
  function Arguments(c: Config, host: Host, exe: string, targets: seq<string>): (r: seq<string>)
    ensures |r| >= 1 && r[0] == exe
  {
    LayoutHead(GroupCount, TextsOf(c, host, exe, targets));
    Texts(TaggedArguments(c, host, exe, targets))
  }

  lemma {:induction false} SelectAppend(a: seq<Arg>, b: seq<Arg>, g: Group)
    ensures Select(a + b, g) == Select(a, g) + Select(b, g)
  {
    if a == [] {
      assert a + b == b;
    } else {
      assert (a + b)[1..] == a[1..] + b;
      SelectAppend(a[1..], b, g);
    }
  }

  lemma {:induction false} SelectTag(h: Group, texts: seq<string>, g: Group)
    ensures Select(Tag(h, texts), g) == if h == g then Tag(h, texts) else []
  {
    if texts != [] {
      assert Tag(h, texts)[1..] == Tag(h, texts[1..]);
      SelectTag(h, texts[1..], g);
    }
  }

  /** Selecting a group from the first `k` groups: its own texts when it is among them, else nothing. */
  lemma {:induction false} SelectLayout(k: nat, texts: Group -> seq<string>, g: Group)
    requires k <= GroupCount
    ensures Select(Layout(k, texts), g) == if Rank(g) < k then Tag(g, texts(g)) else []
  {
    if k > 0 {
      var h := GroupAt(k - 1);
      assert Layout(k, texts) == Layout(k - 1, texts) + Tag(h, texts(h));
      SelectAppend(Layout(k - 1, texts), Tag(h, texts(h)), g);
      SelectTag(h, texts(h), g);
      SelectLayout(k - 1, texts, g);

    }
  }

  /** Ranks never decrease along `t`. */
  predicate InGroupOrder(t: seq<Arg>) {
    forall i, j :: 0 <= i < j < |t| ==> Rank(t[i].group) <= Rank(t[j].group)
  }

  lemma {:induction false} LayoutOrdered(k: nat, texts: Group -> seq<string>)
    requires k <= GroupCount
    ensures forall m :: 0 <= m < |Layout(k, texts)| ==> Rank(Layout(k, texts)[m].group) < k
    ensures InGroupOrder(Layout(k, texts))
  {
    if k > 0 {
      var rest := Layout(k - 1, texts);
      var last := Tag(GroupAt(k - 1), texts(GroupAt(k - 1)));
      LayoutOrdered(k - 1, texts);
      var t := rest + last;
      forall i, j | 0 <= i < j < |t|
        ensures Rank(t[i].group) <= Rank(t[j].group)
      {
        if i < |rest| {
          if j < |rest| {
            assert t[i] == rest[i] && t[j] == rest[j];
          } else {
            assert t[i] == rest[i] && t[j] == last[j - |rest|];
          }
        } else {
          assert t[i] == last[i - |rest|] && t[j] == last[j - |rest|];
        }
      }
      forall m | 0 <= m < |t| ensures Rank(t[m].group) < k {
        if m < |rest| {
          assert t[m] == rest[m];
        } else {
          assert t[m] == last[m - |rest|];
        }
      }
    }
  }

  lemma {:induction false} TextsAppend(a: seq<Arg>, b: seq<Arg>)
    ensures Texts(a + b) == Texts(a) + Texts(b)
  {
    assert forall k :: 0 <= k < |a + b| ==> Texts(a + b)[k] == (Texts(a) + Texts(b))[k];
  }

  /** One more group appends its texts. */
  lemma LayoutStep(k: nat, texts: Group -> seq<string>)
    requires k < GroupCount
    ensures Texts(Layout(k + 1, texts)) == Texts(Layout(k, texts)) + texts(GroupAt(k))
  {
    TextsAppend(Layout(k, texts), Tag(GroupAt(k), texts(GroupAt(k))));
  }

  /** Appending the texts of group `k` to the first `k` groups' texts gives the first `k + 1`. */
  lemma GroupStep(c: Config, host: Host, exe: string, targets: seq<string>, k: nat,
                  before: seq<string>, after: seq<string>)
    requires k < GroupCount
    requires before == Texts(Layout(k, TextsOf(c, host, exe, targets)))
    requires after == before + GroupTexts(c, host, exe, targets, GroupAt(k))
    ensures after == Texts(Layout(k + 1, TextsOf(c, host, exe, targets)))
  {
    LayoutStep(k, TextsOf(c, host, exe, targets));
  }

  /** The first two groups: the executable, then the targets when the pattern is not blank. */
  lemma ExecutableAndTargets(c: Config, host: Host, exe: string, targets: seq<string>, args: seq<string>)
    requires args == [exe] + (if IsBlankOrNull(c.testFiles) then [] else targets)
    ensures args == Texts(Layout(2, TextsOf(c, host, exe, targets)))
  {
    var t := TextsOf(c, host, exe, targets);
    LayoutStep(0, t);
    LayoutStep(1, t);
  }

  lemma {:induction false} LayoutHead(k: nat, texts: Group -> seq<string>)
    requires 1 <= k <= GroupCount && |texts(Executable)| >= 1
    ensures |Layout(k, texts)| >= 1 && Layout(k, texts)[0] == Arg(Executable, texts(Executable)[0])
  {
    if k > 1 {
      LayoutHead(k - 1, texts);
    } else {
      assert Layout(0, texts) == [];
    }
  }

  /** The groups follow one another in the fixed order executable, test files, Settings, Tests,
      TestCaseFilter, code coverage, Platform, Framework, manual arguments. */
  lemma ArgumentsInFixedOrder(c: Config, host: Host, exe: string, targets: seq<string>)
    ensures InGroupOrder(TaggedArguments(c, host, exe, targets))
  {
    LayoutOrdered(GroupCount, TextsOf(c, host, exe, targets));
  }

  /** Each group holds exactly what `GroupTexts` says, in that order: blank options emit nothing,
      present ones emit their one rendered argument, the test files emit the targets. */
  lemma ArgumentGroupContents(c: Config, host: Host, exe: string, targets: seq<string>, g: Group)
    ensures Texts(Select(TaggedArguments(c, host, exe, targets), g)) == GroupTexts(c, host, exe, targets, g)
  {
    SelectFullLayout(TextsOf(c, host, exe, targets), g);
  }

  /** In the full layout, each group's texts are exactly the ones it was given. */
  lemma SelectFullLayout(texts: Group -> seq<string>, g: Group)
    ensures Texts(Select(Layout(GroupCount, texts), g)) == texts(g)
  {
    SelectLayout(GroupCount, texts, g);
    assert Texts(Tag(g, texts(g))) == texts(g);
  }

  /** The TestCaseFilter of the plugin's own test reaches the argument list in its quoted form. */
  lemma TestCaseFilterRendering(c: Config, host: Host, exe: string, targets: seq<string>)
    requires c.testCaseFilter == Some("Priority=1|TestCategory=Odd Nightly")
    requires host.expand("Priority=1|TestCategory=Odd Nightly") == "Priority=1|TestCategory=Odd Nightly"
    ensures ConvertArgumentWithQuote("TestCaseFilter", "Priority=1|TestCategory=Odd Nightly") in Arguments(c, host, exe, targets)
  {
    var v := "Priority=1|TestCategory=Odd Nightly";
    assert !IsBlank(v) by {
      assert !IsWhitespace(v[0]);
    }
    var t := TaggedArguments(c, host, exe, targets);
    var rendered := ConvertArgumentWithQuote("TestCaseFilter", v);
    ArgumentGroupContents(c, host, exe, targets, TestCaseFilter);
    assert Texts(Select(t, TestCaseFilter)) == [rendered];
    SelectMember(t, TestCaseFilter, 0);
    var k :| 0 <= k < |t| && t[k] == Select(t, TestCaseFilter)[0];
    assert Arguments(c, host, exe, targets)[k] == rendered;
  }

  lemma {:induction false} SelectMember(t: seq<Arg>, g: Group, k: nat)
    requires k < |Select(t, g)|
    ensures Select(t, g)[k] in t
  {
    if t != [] {
      if t[0].group == g && k == 0 {
      } else {
        var k' := if t[0].group == g then k - 1 else k;
        SelectMember(t[1..], g, k');
        assert Select(t, g)[k] == Select(t[1..], g)[k'];
      }
    }
  }

  // ---------------------------------------------------------------------------------------------
  // getNUnit and getNUnitPath
  // ---------------------------------------------------------------------------------------------

  const MissingToolMessage: string := "Selected NUnit installation does not exist. Using Default"
  const TranslationFailedMessage: string := "Failed to get NUnit executable"

  /** The installation `getNUnit` returns, and whether it reported the named one missing. */
  datatype Selection = Selection(tool: Inst.Installation, missing: bool)

  /** Choosing the default after loading gives the same installation as choosing it before. */
  lemma DefaultForLoaded(installations: seq<Inst.Installation>, pathSeparator: char)
    ensures Inst.DefaultFor(Inst.Loaded(installations, pathSeparator), pathSeparator)
            == Inst.DefaultFor(installations, pathSeparator)
  {
    if installations == [] {
      var loaded := Inst.Loaded(installations, pathSeparator);
      assert Inst.Lookup(loaded, Inst.Default) == Some(0);
    }
  }

  /**
   * `getNUnit`'s choice: without a name, the default installation; with a name, the first
   * installation of that name present after loading, or, when there is none, the default
   * installation together with the "does not exist" report.
   */
  function SelectTool(nunitName: Option<string>, installations: seq<Inst.Installation>, pathSeparator: char): (sel: Selection)
    ensures nunitName.None? ==> sel.tool == Inst.DefaultFor(installations, pathSeparator) && !sel.missing
    ensures var loaded := Inst.Loaded(installations, pathSeparator);
            nunitName.Some? ==> (sel.missing <==> forall k :: 0 <= k < |loaded| ==> loaded[k].name != nunitName.value)
    ensures var loaded := Inst.Loaded(installations, pathSeparator);
            nunitName.Some? && !sel.missing ==>
              exists k :: 0 <= k < |loaded| && sel.tool == loaded[k] && loaded[k].name == nunitName.value
                          && forall m :: 0 <= m < k ==> loaded[m].name != nunitName.value
    ensures sel.missing ==> sel.tool == Inst.DefaultFor(installations, pathSeparator)
  {
    if nunitName.None? then Selection(Inst.DefaultFor(installations, pathSeparator), false)
    else
      var loaded := Inst.Loaded(installations, pathSeparator);
      match Inst.Lookup(loaded, nunitName.value)
      case Some(k) => Selection(loaded[k], false)
      case None =>
        DefaultForLoaded(installations, pathSeparator);
        Selection(Inst.DefaultFor(loaded, pathSeparator), true)
  }

  /** `getNUnitPath` after `getNUnit`: the home translated for the node (kept as it was when the
      translation fails) and then macro-expanded. */
  function ResolvePath(tool: Inst.Installation, host: Host): (exe: Option<string>)
    ensures host.translate(tool).TranslationFailed? ==> exe == ExpandOrNull(host, tool.home)
    ensures host.translate(tool).Translated? ==> exe == ExpandOrNull(host, host.translate(tool).home)
  {
    var onNode := match host.translate(tool)
      case Translated(home) => Inst.ForNode(tool, home)
      case TranslationFailed => tool;
    Inst.NUnitExe(Inst.ForEnvironment(onNode, host.expand))
  }

  /** Java's string conversion of a possibly null string. */
  function JavaString(s: Option<string>): string {
    if s.Some? then s.value else "null"
  }

  // ---------------------------------------------------------------------------------------------
  // The Jenkins objects execNUnit acts on
  // ---------------------------------------------------------------------------------------------

  /** The results this code sets on a build. */
  datatype BuildResult = Unstable | Failure

  /** The build; `result` is the last result this code set on it, `None` when it set none. */
  class Run {
    var result: Option<BuildResult>

    constructor ()
      ensures result == None
    {
      result := None;
    }

    method SetResult(r: BuildResult)
      modifies this
      ensures result == Some(r)
    {
      result := Some(r);
    }
  }

  /** The workspace's temporary files (path to contents). `nextTemp` is the path the next temporary
      file receives, or `None` when creating it fails; `deleteFails` says whether deleting fails. */
  class Workspace {
    var files: map<string, string>
    const nextTemp: Option<string>
    const deleteFails: bool

    constructor (nextTemp: Option<string>, deleteFails: bool)
      ensures files == map[] && this.nextTemp == nextTemp && this.deleteFails == deleteFails
    {
      files := map[];
      this.nextTemp := nextTemp;
      this.deleteFails := deleteFails;
    }

    /** `createTextTempFile`: a new file holding `text`, or `None` for an `IOException`. */
    method CreateTextTempFile(text: string) returns (path: Option<string>)
      modifies this
      ensures path == nextTemp
      ensures nextTemp.Some? ==> files == old(files)[nextTemp.value := text]
      ensures nextTemp.None? ==> files == old(files)
    {
      path := nextTemp;
      if nextTemp.Some? {
        files := files[nextTemp.value := text];
      }
    }

    /** `delete`: removes the file, or reports an `IOException` and leaves it. */
    method Delete(path: string) returns (deleted: bool)
      modifies this
      ensures deleted == !deleteFails
      ensures deleted ==> files == old(files) - {path}
      ensures !deleted ==> files == old(files)
    {
      deleted := !deleteFails;
      if deleted {
        files := files - {path};
      }
    }
  }

  /** How the launched process ends: an exit code and the lines of its standard output, or an
      `IOException` from the launch itself. */
  datatype Process = Exited(code: int, output: seq<string>) | LaunchFailed

  /** The launcher: whether the node is Unix, the process a launch produces, and the command
      vectors launched so far. */
  class Launcher {
    const isUnix: bool
    const process: Process
    var launched: seq<seq<string>>

    constructor (isUnix: bool, process: Process)
      ensures this.isUnix == isUnix && this.process == process && launched == []
    {
      this.isUnix := isUnix;
      this.process := process;
      launched := [];
    }

    method Launch(cmds: seq<string>) returns (p: Process)
      modifies this
      ensures launched == old(launched) + [cmds] && p == process
    {
      launched := launched + [cmds];
      p := process;
    }
  }

  /** The standard output of a process, line by line, in the decorator: every line reaches the
      build log, and the decorator's state steps on each. */
  method Pump(parser: Decorator.ListenerDecorator, lines: seq<string>)
    requires parser.Valid() && parser.listener != null
    modifies parser, parser.listener
    ensures parser.Valid()
    ensures parser.received == old(parser.received) + lines
    ensures parser.listener.lines == old(parser.listener.lines) + lines
  {
    var i := 0;
    while i < |lines|
      invariant 0 <= i <= |lines|
      invariant parser.Valid()
      invariant parser.received == old(parser.received) + lines[..i]
      invariant parser.listener.lines == old(parser.listener.lines) + lines[..i]
    {
      parser.Eol(lines[i]);
      assert lines[..i + 1] == lines[..i] + [lines[i]];
      i := i + 1;
    }
    assert lines[..|lines|] == lines;
  }

  // ---------------------------------------------------------------------------------------------
  // execNUnit and perform as specifications
  // ---------------------------------------------------------------------------------------------

  const ExecFailedMessage: string := "NUnit command execution failed"
  const DeleteFailedMessage: string := "temporary file delete failed"
  const NoMatchPrefix: string := "no files matching the pattern "

  /** How `execNUnit` or `perform` ends: normally, by the no-match abort, or by an `IOException`
      from creating the script, which is raised before the `try` and so propagates. */
  datatype Completion = Returned | Aborted(message: string) | ScriptNotCreated

  /** What a call does to the world: how it ends, the script it created (path, text), the command
      vectors it launched, the result it set, the build log lines it wrote, and whether it removed
      the script again. */
  datatype Effects = Effects(
    completion: Completion,
    script: Option<(string, string)>,
    launched: seq<seq<string>>,
    requested: Option<BuildResult>,
    log: seq<string>,
    scriptDeleted: bool)

  /** The vector that runs the batch script on Windows and passes its exit code on. */
  function WindowsVector(script: string): seq<string> {
    ["cmd.exe", "/C", script, "&&", "exit", "%ERRORLEVEL%"]
  }

  /** The result set for an exit code: none for 0, FAILURE when the build is to fail, else UNSTABLE. */
  function ResultFor(code: int, failBuild: bool): (r: Option<BuildResult>)
    ensures r.None? <==> code == 0
    ensures r == Some(Failure) <==> code != 0 && failBuild
    ensures r == Some(Unstable) <==> code != 0 && !failBuild
  {
    if code == 0 then None else if failBuild then Some(Failure) else Some(Unstable)
  }

  /** The `IOException` handler runs: the launch failed, or the "NUnit exited with" abort was thrown. */
  predicate Caught(p: Process, failBuild: bool) {
    p.LaunchFailed? || (p.code != 0 && failBuild)
  }

  function Output(p: Process): seq<string> {
    if p.Exited? then p.output else []
  }

  /** The effects of `execNUnit` for the arguments `args`: without a script nothing happens at all;
      otherwise exactly one vector is launched, a script exists exactly off Unix, a result is
      requested only for a nonzero exit code, and a failed delete is the last line logged. */
  function Exec(args: seq<string>, failBuild: bool, isUnix: bool, nextTemp: Option<string>,
                deleteFails: bool, p: Process, host: Host): (r: Effects)
    ensures r.completion == ScriptNotCreated <==> !isUnix && nextTemp.None?
    ensures r.completion == ScriptNotCreated ==>
              r.launched == [] && r.log == [] && r.requested.None? && r.script.None?
    ensures r.completion == Returned ==> |r.launched| == 1 && |r.log| >= 1
    ensures r.script.Some? <==> !isUnix && nextTemp.Some?
    ensures r.scriptDeleted <==> r.script.Some? && !deleteFails
    ensures r.script.Some? && !r.scriptDeleted ==> |r.log| >= 1 && r.log[|r.log| - 1] == DeleteFailedMessage
    ensures r.requested.Some? <==> r.completion == Returned && p.Exited? && p.code != 0
  {
    if !isUnix && nextTemp.None? then Effects(ScriptNotCreated, None, [], None, [], false)
    else
      var vector := if isUnix then args else WindowsVector(nextTemp.value);
      Effects(
        Returned,
        if isUnix then None else Some((nextTemp.value, Join(DropLeadingEmpty(args)))),
        [vector],
        if p.Exited? then ResultFor(p.code, failBuild) else None,
        ["Executing NUnit: " + host.quoteForLog(vector)] + Output(p)
          + (if Caught(p, failBuild) then [ExecFailedMessage] else [])
          + (if !isUnix && deleteFails then [DeleteFailedMessage] else []),
        !isUnix && !deleteFails)
  }

  /** The log of `execNUnit` assembled from its three parts. */
  lemma ExecLogShape(start: seq<string>, header: seq<string>, afterTry: seq<string>, final: seq<string>,
                     args: seq<string>, failBuild: bool, isUnix: bool, nextTemp: Option<string>,
                     deleteFails: bool, p: Process, host: Host)
    requires isUnix || nextTemp.Some?
    requires header == start + ["Executing NUnit: " + host.quoteForLog(if isUnix then args else WindowsVector(nextTemp.value))]
    requires afterTry == header + Output(p) + (if Caught(p, failBuild) then [ExecFailedMessage] else [])
    requires final == afterTry + (if !isUnix && deleteFails then [DeleteFailedMessage] else [])
    ensures final == start + Exec(args, failBuild, isUnix, nextTemp, deleteFails, p, host).log
  {
  }

  /** The workspace's files after the effects. */
  function FilesAfter(files: map<string, string>, e: Effects): map<string, string> {
    match e.script
    case None => files
    case Some(s) => if e.scriptDeleted then files[s.0 := s.1] - {s.0} else files[s.0 := s.1]
  }

  /** The build result after the effects: the one set, if any, else the previous one. */
  function ResultAfter(result: Option<BuildResult>, e: Effects): Option<BuildResult> {
    if e.requested.Some? then e.requested else result
  }

  /** The lines `getNUnitPath` writes for the selection `sel` and the path `exe`. */
  function PathLog(sel: Selection, host: Host, exe: string): seq<string> {
    (if sel.missing then [MissingToolMessage] else [])
    + (if host.translate(sel.tool).TranslationFailed? then [TranslationFailedMessage] else [])
    + ["Path To NUnit: " + exe]
  }

  /** The targets `perform` collects: none for a blank pattern. */
  function PlanTargets(c: Config, host: Host): seq<string> {
    if IsBlankOrNull(c.testFiles) then [] else TestFileTargets(host, c.testFiles.value)
  }

  /** A non-blank pattern matched nothing. */
  predicate NoMatch(c: Config, host: Host) {
    !IsBlankOrNull(c.testFiles) && PlanTargets(c, host) == []
  }

  function NoMatchLog(c: Config, host: Host): seq<string> {
    if NoMatch(c, host) then [NoMatchPrefix + c.testFiles.value] else []
  }

  /** The path `perform` passes as the executable. */
  function PlanExe(c: Config, installations: seq<Inst.Installation>, host: Host): string {
    JavaString(ResolvePath(SelectTool(c.nunitName, installations, host.pathSeparator).tool, host))
  }

  /** What `perform` logs before it runs NUnit (or aborts). */
  function PrefixLog(c: Config, installations: seq<Inst.Installation>, host: Host): seq<string> {
    PathLog(SelectTool(c.nunitName, installations, host.pathSeparator), host, PlanExe(c, installations, host))
    + NoMatchLog(c, host)
  }

  /** The argument list `perform` builds. */
  function PlanArgs(c: Config, installations: seq<Inst.Installation>, host: Host): seq<string> {
    Arguments(c, host, PlanExe(c, installations, host), PlanTargets(c, host))
  }

  /** `perform` aborts: the pattern matched nothing and the build is to fail. */
  predicate Aborts(c: Config, host: Host) {
    NoMatch(c, host) && c.failBuild
  }

  /** Exit-code classification: 0 sets nothing and is not caught; a nonzero code sets FAILURE
      when the build is to fail (and the abort is caught and reported), UNSTABLE otherwise; the
      call returns normally whenever the script could be created. */
  lemma ExitCodeClassification(args: seq<string>, failBuild: bool, isUnix: bool, nextTemp: Option<string>,
                               deleteFails: bool, code: int, output: seq<string>, host: Host)
    requires isUnix || nextTemp.Some?
    ensures var e := Exec(args, failBuild, isUnix, nextTemp, deleteFails, Exited(code, output), host);
            && e.completion == Returned
            && (code == 0 ==> e.requested.None? && ExecFailedMessage !in e.log[|output| + 1..])
            && (code != 0 && failBuild ==> e.requested == Some(Failure) && e.log[|output| + 1] == ExecFailedMessage)
            && (code != 0 && !failBuild ==> e.requested == Some(Unstable) && ExecFailedMessage !in e.log[|output| + 1..])
  {
    var e := Exec(args, failBuild, isUnix, nextTemp, deleteFails, Exited(code, output), host);
    var vector := if isUnix then args else WindowsVector(nextTemp.value);
    var tail := (if code != 0 && failBuild then [ExecFailedMessage] else [])
                + (if !isUnix && deleteFails then [DeleteFailedMessage] else []);
    assert e.log == ["Executing NUnit: " + host.quoteForLog(vector)] + output + tail;
    assert e.log[|output| + 1..] == tail;
  }

  /** The launch vector: on Unix the argument list itself; elsewhere the fixed `cmd.exe` vector
      around a new script whose text is the arguments joined by single spaces. */
  lemma LaunchVector(args: seq<string>, failBuild: bool, isUnix: bool, nextTemp: Option<string>,
                     deleteFails: bool, p: Process, host: Host)
    ensures var e := Exec(args, failBuild, isUnix, nextTemp, deleteFails, p, host);
            && (isUnix ==> e.launched == [args] && e.script.None?)
            && (!isUnix && nextTemp.Some? ==>
                  e.launched == [["cmd.exe", "/C", nextTemp.value, "&&", "exit", "%ERRORLEVEL%"]]
                  && e.script == Some((nextTemp.value, Join(DropLeadingEmpty(args)))))
            && (!isUnix && nextTemp.None? ==> e.launched == [] && e.completion == ScriptNotCreated)
  {
  }

  /** Clean-up: whenever a script was created, it is gone afterwards unless deleting failed, in
      which case that failure is reported as the last log line; other files are untouched. */
  lemma ScriptRemoved(args: seq<string>, failBuild: bool, isUnix: bool, nextTemp: Option<string>,
                      deleteFails: bool, p: Process, host: Host, files: map<string, string>)
    ensures var e := Exec(args, failBuild, isUnix, nextTemp, deleteFails, p, host);
            e.script.Some? && !deleteFails ==>
              e.script.value.0 !in FilesAfter(files, e) && FilesAfter(files, e) == files - {e.script.value.0}
    ensures var e := Exec(args, failBuild, isUnix, nextTemp, deleteFails, p, host);
            e.script.Some? && deleteFails ==>
              e.log[|e.log| - 1] == DeleteFailedMessage && e.script.value.0 in FilesAfter(files, e)
    ensures var e := Exec(args, failBuild, isUnix, nextTemp, deleteFails, p, host);
            e.script.None? ==> FilesAfter(files, e) == files
  {
    var e := Exec(args, failBuild, isUnix, nextTemp, deleteFails, p, host);
    if e.script.Some? && !deleteFails {
      var path := e.script.value.0;
      assert FilesAfter(files, e) == files[path := e.script.value.1] - {path};
      assert files[path := e.script.value.1] - {path} == files - {path};
    }
  }

  /** The no-match rule: a non-blank pattern that matches nothing is reported as the last line
      before the launch; `perform` then aborts exactly when the build is to fail, and otherwise
      runs NUnit with no test-file arguments. */
  lemma NoMatchingFiles(c: Config, installations: seq<Inst.Installation>, host: Host)
    requires !IsBlankOrNull(c.testFiles) && TestFileTargets(host, c.testFiles.value) == []
    ensures Aborts(c, host) <==> c.failBuild
    ensures var log := PrefixLog(c, installations, host);
            |log| >= 2 && log[|log| - 1] == NoMatchPrefix + c.testFiles.value
    ensures var t := TaggedArguments(c, host, PlanExe(c, installations, host), PlanTargets(c, host));
            Select(t, TestFiles) == []
  {
    var exe := PlanExe(c, installations, host);
    var t := TaggedArguments(c, host, exe, PlanTargets(c, host));
    ArgumentGroupContents(c, host, exe, PlanTargets(c, host), TestFiles);
    assert |Select(t, TestFiles)| == |Texts(Select(t, TestFiles))| == 0;
  }

  /** Whatever `perform` launches on Unix starts with the resolved executable path. */
  lemma PerformLaunchesExecutableFirst(c: Config, installations: seq<Inst.Installation>, host: Host,
                                       nextTemp: Option<string>, deleteFails: bool, p: Process)
    ensures var e := Exec(PlanArgs(c, installations, host), c.failBuild, true, nextTemp, deleteFails, p, host);
            forall v :: v in e.launched ==> |v| >= 1 && v[0] == PlanExe(c, installations, host)
  {
  }

  // ---------------------------------------------------------------------------------------------
  // The builder object
  // ---------------------------------------------------------------------------------------------

  /** The build step with its configuration fields, each string kept through `fixEmptyAndTrim`. */
  class Builder {
    var nunitName: Option<string>
    var testFiles: Option<string>
    var settings: Option<string>
    var tests: Option<string>
    var testCaseFilter: Option<string>
    var platform: Option<string>
    var framework: Option<string>
    var cmdLineArgs: Option<string>
    var enableCodeCoverage: bool
    var failBuild: bool

    function Configuration(): Config
      reads this
    {
      Config(nunitName, testFiles, settings, tests, testCaseFilter, platform, framework, cmdLineArgs,
             enableCodeCoverage, failBuild)
    }

    /** A new step: no strings, code coverage off, failing the build on test failures. */
    constructor ()
      ensures Configuration() == Config(None, None, None, None, None, None, None, None, false, true)
    {
      nunitName, testFiles, settings, tests := None, None, None, None;
      testCaseFilter, platform, framework, cmdLineArgs := None, None, None, None;
      enableCodeCoverage := false;
      failBuild := true;
    }

    method SetNUnitName(value: Option<string>)
      modifies this
      ensures Configuration() == old(Configuration()).(nunitName := FixEmptyAndTrim(value))
    {
      nunitName := FixEmptyAndTrim(value);
    }

    method SetTestFiles(value: Option<string>)
      modifies this
      ensures Configuration() == old(Configuration()).(testFiles := FixEmptyAndTrim(value))
    {
      testFiles := FixEmptyAndTrim(value);
    }

    method SetSettings(value: Option<string>)
      modifies this
      ensures Configuration() == old(Configuration()).(settings := FixEmptyAndTrim(value))
    {
      settings := FixEmptyAndTrim(value);
    }

    method SetTests(value: Option<string>)
      modifies this
      ensures Configuration() == old(Configuration()).(tests := FixEmptyAndTrim(value))
    {
      tests := FixEmptyAndTrim(value);
    }

    method SetTestCaseFilter(value: Option<string>)
      modifies this
      ensures Configuration() == old(Configuration()).(testCaseFilter := FixEmptyAndTrim(value))
    {
      testCaseFilter := FixEmptyAndTrim(value);
    }

    method SetPlatform(value: Option<string>)
      modifies this
      ensures Configuration() == old(Configuration()).(platform := FixEmptyAndTrim(value))
    {
      platform := FixEmptyAndTrim(value);
    }

    method SetFramework(value: Option<string>)
      modifies this
      ensures Configuration() == old(Configuration()).(framework := FixEmptyAndTrim(value))
    {
      framework := FixEmptyAndTrim(value);
    }

    method SetCmdLineArgs(value: Option<string>)
      modifies this
      ensures Configuration() == old(Configuration()).(cmdLineArgs := FixEmptyAndTrim(value))
    {
      cmdLineArgs := FixEmptyAndTrim(value);
    }

    method SetEnableCodeCoverage(value: bool)
      modifies this
      ensures Configuration() == old(Configuration()).(enableCodeCoverage := value)
    {
      enableCodeCoverage := value;
    }

    method SetFailBuild(value: bool)
      modifies this
      ensures Configuration() == old(Configuration()).(failBuild := value)
    {
      failBuild := value;
    }

    /** `getNUnit`: the selected installation; the descriptor is loaded on the way (it is given
        the default installation if it had none), and a missing named tool is reported. */
    method GetNUnit(descriptor: Inst.InstallationDescriptor, listener: TaskLog.Logger, pathSeparator: char)
      returns (tool: Inst.Installation)
      modifies descriptor, listener
      ensures var sel := SelectTool(nunitName, old(descriptor.installations), pathSeparator);
              tool == sel.tool
              && listener.lines == old(listener.lines) + (if sel.missing then [MissingToolMessage] else [])
      ensures descriptor.installations == Inst.Loaded(old(descriptor.installations), pathSeparator)
      ensures descriptor.saved == if old(descriptor.installations) == [] then descriptor.installations
                                  else old(descriptor.saved)
    {
      if nunitName.None? {
        tool := descriptor.GetDefaultInstallation(pathSeparator);
        return;
      }
      var _ := descriptor.GetDefaultInstallation(pathSeparator);
      var found := descriptor.GetInstallation(nunitName.value);
      if found.None? {
        listener.Println(MissingToolMessage);
        DefaultForLoaded(old(descriptor.installations), pathSeparator);
        tool := descriptor.GetDefaultInstallation(pathSeparator);
      } else {
        tool := found.value;
      }
    }

    /** `getNUnitPath`: the executable of the selected installation, translated for the node and
        macro-expanded, after reporting a failed translation and logging the path. */
    method GetNUnitPath(descriptor: Inst.InstallationDescriptor, listener: TaskLog.Logger, host: Host)
      returns (exe: Option<string>)
      modifies descriptor, listener
      ensures var sel := SelectTool(nunitName, old(descriptor.installations), host.pathSeparator);
              exe == ResolvePath(sel.tool, host)
              && listener.lines == old(listener.lines)
                                   + (if sel.missing then [MissingToolMessage] else [])
                                   + (if host.translate(sel.tool).TranslationFailed? then [TranslationFailedMessage] else [])
                                   + ["Path To NUnit: " + JavaString(exe)]
      ensures descriptor.installations == Inst.Loaded(old(descriptor.installations), host.pathSeparator)
      ensures descriptor.saved == if old(descriptor.installations) == [] then descriptor.installations
                                  else old(descriptor.saved)
    {
      var installation := GetNUnit(descriptor, listener, host.pathSeparator);
      match host.translate(installation) {
        case Translated(home) =>
          installation := Inst.ForNode(installation, home);
        case TranslationFailed =>
          listener.Println(TranslationFailedMessage);
      }
      installation := Inst.ForEnvironment(installation, host.expand);
      exe := Inst.NUnitExe(installation);
      listener.Println("Path To NUnit: " + JavaString(exe));
    }

    /** `getTestFilesArguments`: every file matched by every token of the pattern string, quoted
        and workspace-relative, each once. */
    method GetTestFilesArguments(host: Host) returns (r: seq<string>)
      requires testFiles.Some?
      ensures r == TestFileTargets(host, testFiles.value)
    {
      var tokens := Tokens(testFiles.value);
      r := [];
      var i := 0;
      while i < |tokens|
        invariant 0 <= i <= |tokens|
        invariant r == Collect(host, tokens[..i])
      {
        var testFile := host.expand(tokens[i]);
        ghost var before := r;
        if !IsBlank(testFile) {
          var listed := host.list(testFile);
          if listed.Some? {
            var files := listed.value;
            var j := 0;
            while j < |files|
              invariant 0 <= j <= |files|
              invariant r == AddAll(before, TokenTargets(host, tokens[i])[..j])
            {
              AddMatchSnoc(host, tokens[i], files, before, j);
              r := AddIfAbsent(r, AppendQuote(host.relativize(files[j])));
              j := j + 1;
            }
            AddMatchesDone(host, tokens[i], files, before);
          }
        }
        CollectSnoc(host, tokens, i, before, r);
        i := i + 1;
      }
      assert tokens[..|tokens|] == tokens;
    }

    /** The first part of `execNUnit`: on Unix the arguments are copied into the command vector;
        elsewhere they are written, joined by spaces, into a new batch script that `cmd.exe` runs.
        An `IOException` from creating the script gives `None`. */
    method BuildCommand(args: seq<string>, workspace: Workspace, launcher: Launcher)
      returns (command: Option<(seq<string>, Option<string>)>)
      modifies workspace
      ensures launcher.isUnix ==> command == Some((args, None)) && workspace.files == old(workspace.files)
      ensures !launcher.isUnix && workspace.nextTemp.None? ==> command.None? && workspace.files == old(workspace.files)
      ensures !launcher.isUnix && workspace.nextTemp.Some? ==>
                var path := workspace.nextTemp.value;
                command == Some((WindowsVector(path), Some(path)))
                && workspace.files == old(workspace.files)[path := Join(DropLeadingEmpty(args))]
    {
      if !launcher.isUnix {
        var text := ConcatString(args);
        var script := workspace.CreateTextTempFile(text);
        if script.None? {
          return None;
        }
        return Some((WindowsVector(script.value), script));
      }
      var vector := [];
      var i := 0;
      while i < |args|
        invariant 0 <= i <= |args|
        invariant vector == args[..i]
      {
        vector := vector + [args[i]];
        i := i + 1;
      }
      assert args[..|args|] == args;
      return Some((vector, None));
    }

    /** The `try` block of `execNUnit` with its handler: the process runs with its output going
        through a fresh decorator to the log; a nonzero exit code sets FAILURE (and the abort
        thrown then is caught and reported) or UNSTABLE; a failed launch is reported. */
    method LaunchAndClassify(vector: seq<string>, run: Run, launcher: Launcher, listener: TaskLog.Logger)
      modifies run, launcher, listener
      ensures launcher.launched == old(launcher.launched) + [vector]
      ensures launcher.process.Exited? ==>
                run.result == if ResultFor(launcher.process.code, failBuild).Some?
                              then ResultFor(launcher.process.code, failBuild) else old(run.result)
      ensures launcher.process.LaunchFailed? ==> run.result == old(run.result)
      ensures listener.lines == old(listener.lines) + Output(launcher.process)
                                + (if Caught(launcher.process, failBuild) then [ExecFailedMessage] else [])
    {
      var parser := new Decorator.ListenerDecorator(listener);
      var p := launcher.Launch(vector);
      if p.Exited? {
        Pump(parser, p.output);
        // The coverage path is read, and its workspace-relative form computed and dropped.
        var coverage := parser.GetCoverageFile();
        if p.code != 0 {
          if failBuild {
            run.SetResult(Failure);
            // The abort thrown here is an IOException and lands in the handler.
            listener.Println(ExecFailedMessage);
          } else {
            run.SetResult(Unstable);
          }
        }
      } else {
        listener.Println(ExecFailedMessage);
      }
    }

    /** `execNUnit`: builds the command, logs it, runs it, and finally deletes the script. */
    method ExecNUnit(args: seq<string>, run: Run, workspace: Workspace, launcher: Launcher,
                     listener: TaskLog.Logger, host: Host) returns (completion: Completion)
      modifies run, workspace, launcher, listener
      ensures var e := Exec(args, failBuild, launcher.isUnix, workspace.nextTemp, workspace.deleteFails,
                            launcher.process, host);
              && completion == e.completion
              && launcher.launched == old(launcher.launched) + e.launched
              && run.result == ResultAfter(old(run.result), e)
              && listener.lines == old(listener.lines) + e.log
              && workspace.files == FilesAfter(old(workspace.files), e)
    {
      var command := BuildCommand(args, workspace, launcher);
      if command.None? {
        return ScriptNotCreated;
      }
      var vector := command.value.0;
      var script := command.value.1;
      listener.Println("Executing NUnit: " + host.quoteForLog(vector));
      ghost var header := listener.lines;
      LaunchAndClassify(vector, run, launcher, listener);
      ghost var afterTry := listener.lines;
      // finally
      if script.Some? {
        var deleted := workspace.Delete(script.value);
        if !deleted {
          listener.Println(DeleteFailedMessage);
        }
      }
      ExecLogShape(old(listener.lines), header, afterTry, listener.lines, args, failBuild, launcher.isUnix,
                   workspace.nextTemp, workspace.deleteFails, launcher.process, host);
      completion := Returned;
    }

    /** The optional groups of `perform` that come straight from the fields, appended in their
        fixed order after the executable and the test files: Settings, Tests and TestCaseFilter
        when the field is not blank (expanded afterwards), code coverage when enabled. */
    method AppendOptionalArguments(args: seq<string>, host: Host, ghost exe: string, ghost targets: seq<string>)
      returns (r: seq<string>)
      requires args == Texts(Layout(2, TextsOf(Configuration(), host, exe, targets)))
      ensures r == Arguments(Configuration(), host, exe, targets)
    {
      ghost var c := Configuration();
      var settingsArg := if IsBlankOrNull(settings) then []
                         else [ConvertArgumentWithQuote("Settings", host.expand(settings.value))];
      GroupStep(c, host, exe, targets, 2, args, args + settingsArg);
      r := args + settingsArg;
      var testsArg := if IsBlankOrNull(tests) then [] else [ConvertArgument("Tests", host.expand(tests.value))];
      GroupStep(c, host, exe, targets, 3, r, r + testsArg);
      r := r + testsArg;
      var filterArg := if IsBlankOrNull(testCaseFilter) then []
                       else [ConvertArgumentWithQuote("TestCaseFilter", host.expand(testCaseFilter.value))];
      GroupStep(c, host, exe, targets, 4, r, r + filterArg);
      r := r + filterArg;
      var coverageArg := if enableCodeCoverage then ["/Enablecodecoverage"] else [];
      GroupStep(c, host, exe, targets, 5, r, r + coverageArg);
      r := r + coverageArg;
      r := AppendExpandedArguments(r, host, exe, targets);
    }

    /** The last groups of `perform`: Platform and Framework when their expansion is not blank,
        then the manual arguments, expanded, when the field is not blank. */
    method AppendExpandedArguments(args: seq<string>, host: Host, ghost exe: string, ghost targets: seq<string>)
      returns (r: seq<string>)
      requires args == Texts(Layout(6, TextsOf(Configuration(), host, exe, targets)))
      ensures r == Arguments(Configuration(), host, exe, targets)
    {
      ghost var c := Configuration();
      var platformArg := ExpandOrNull(host, platform);
      var platformArgs := if IsBlankOrNull(platformArg) then [] else [ConvertArgument("Platform", platformArg.value)];
      GroupStep(c, host, exe, targets, 6, args, args + platformArgs);
      r := args + platformArgs;
      var frameworkArg := ExpandOrNull(host, framework);
      var frameworkArgs := if IsBlankOrNull(frameworkArg) then [] else [ConvertArgument("Framework", frameworkArg.value)];
      GroupStep(c, host, exe, targets, 7, r, r + frameworkArgs);
      r := r + frameworkArgs;
      var manualArg := if IsBlankOrNull(cmdLineArgs) then [] else [host.expand(cmdLineArgs.value)];
      GroupStep(c, host, exe, targets, 8, r, r + manualArg);
      r := r + manualArg;
    }

    /** The part of `perform` between resolving the executable and the launch: collects the
        test files (failing the build and aborting on no match when the build is to fail) and
        builds the argument list behind the executable `exe`. */
    method CollectArguments(exe: string, run: Run, listener: TaskLog.Logger, host: Host)
      returns (args: seq<string>, aborted: bool)
      modifies run, listener
      ensures aborted == Aborts(Configuration(), host)
      ensures !aborted ==> args == Arguments(Configuration(), host, exe, PlanTargets(Configuration(), host))
      ensures listener.lines == old(listener.lines) + NoMatchLog(Configuration(), host)
      ensures run.result == if aborted then Some(Failure) else old(run.result)
    {
      args := [exe];
      ghost var targets: seq<string> := [];
      if !IsBlankOrNull(testFiles) {
        var found := GetTestFilesArguments(host);
        targets := found;
        if |found| == 0 {
          listener.Println(NoMatchPrefix + testFiles.value);
          if failBuild {
            run.SetResult(Failure);
            return args, true;
          }
        }
        args := args + found;
      }
      ExecutableAndTargets(Configuration(), host, exe, targets, args);
      args := AppendOptionalArguments(args, host, exe, targets);
      aborted := false;
    }

    /** The part of `perform` before the launch: resolves the executable, then collects the
        arguments behind it. */
    method PrepareArguments(run: Run, listener: TaskLog.Logger, descriptor: Inst.InstallationDescriptor,
                            host: Host) returns (args: seq<string>, aborted: bool)
      modifies run, listener, descriptor
      ensures aborted == Aborts(Configuration(), host)
      ensures !aborted ==> args == PlanArgs(Configuration(), old(descriptor.installations), host)
      ensures listener.lines == old(listener.lines) + PrefixLog(Configuration(), old(descriptor.installations), host)
      ensures run.result == if aborted then Some(Failure) else old(run.result)
      ensures descriptor.installations == Inst.Loaded(old(descriptor.installations), host.pathSeparator)
      ensures descriptor.saved == if old(descriptor.installations) == [] then descriptor.installations
                                  else old(descriptor.saved)
    {
      ghost var sel := SelectTool(nunitName, descriptor.installations, host.pathSeparator);
      var pathToNUnit := GetNUnitPath(descriptor, listener, host);
      var exe := JavaString(pathToNUnit);
      assert listener.lines == old(listener.lines) + PathLog(sel, host, exe);
      assert PrefixLog(Configuration(), old(descriptor.installations), host)
             == PathLog(sel, host, exe) + NoMatchLog(Configuration(), host);
      assert old(listener.lines) + PathLog(sel, host, exe) + NoMatchLog(Configuration(), host)
             == old(listener.lines) + (PathLog(sel, host, exe) + NoMatchLog(Configuration(), host));
      args, aborted := CollectArguments(exe, run, listener, host);
    }

    /** `perform`: prepares the arguments and, unless that aborted, runs NUnit with them. */
    method Perform(run: Run, workspace: Workspace, launcher: Launcher, listener: TaskLog.Logger,
                   descriptor: Inst.InstallationDescriptor, host: Host) returns (completion: Completion)
      modifies run, workspace, launcher, listener, descriptor
      ensures Aborts(Configuration(), host) ==>
                && completion == Aborted(NoMatchPrefix + testFiles.value)
                && launcher.launched == old(launcher.launched)
                && run.result == Some(Failure)
                && listener.lines == old(listener.lines) + PrefixLog(Configuration(), old(descriptor.installations), host)
                && workspace.files == old(workspace.files)
      ensures !Aborts(Configuration(), host) ==>
                var e := Exec(PlanArgs(Configuration(), old(descriptor.installations), host), failBuild,
                              launcher.isUnix, workspace.nextTemp, workspace.deleteFails, launcher.process, host);
                && completion == e.completion
                && launcher.launched == old(launcher.launched) + e.launched
                && run.result == ResultAfter(old(run.result), e)
                && listener.lines == old(listener.lines) + PrefixLog(Configuration(), old(descriptor.installations), host) + e.log
                && workspace.files == FilesAfter(old(workspace.files), e)
      ensures descriptor.installations == Inst.Loaded(old(descriptor.installations), host.pathSeparator)
      ensures descriptor.saved == if old(descriptor.installations) == [] then descriptor.installations
                                  else old(descriptor.saved)
    {
      var args, aborted := PrepareArguments(run, listener, descriptor, host);
      if aborted {
        return Aborted(NoMatchPrefix + testFiles.value);
      }
      completion := ExecNUnit(args, run, workspace, launcher, listener, host);
    }
  }
}
