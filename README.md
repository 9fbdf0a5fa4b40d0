# nunit-runner build step, modelled in Dafny

This project models the core of the Jenkins nunit-runner plugin: the build step that runs the
NUnit console on a build's workspace. It covers three classes.

- `NUnitBuilder` (module `NUnitBuilder`, file `builder.dfy`) is the build step. It has ten
  configuration fields. The setters normalise the eight strings and store the two flags as
  given. It selects and resolves the NUnit
  installation and collects the test files that the whitespace-separated patterns match. It
  builds the argument list in a fixed group order and launches the console. On Unix the
  arguments are the command vector. Elsewhere they go into a temporary batch script run by
  `cmd.exe`. A nonzero exit code then sets FAILURE or UNSTABLE.
- `NUnitListenerDecorator` (module `NUnitListenerDecorator`, file `listener_decorator.dfy`) is
  the line sink on the console's standard output. It passes every line to the build log
  unchanged. After the first `Attachments:` header it records the path named by each
  `.coverage` line.
- `NUnitInstallation` (module `NUnitInstallation`, file `installation.dfy`) is a named console
  installation, together with the descriptor that holds the configured list. It covers default
  selection, the creation of a `Default` installation when none is configured, and translation
  for a node and for an environment.

Supporting modules:

- `Wrappers` holds `Option`. Java `null` is `None`.
- `TaskLog` holds the build log, a class whose `Println` appends a line.
- `JavaText` models the library string handling the builder relies on:
  - `String.trim` and `Util.fixEmptyAndTrim`;
  - `StringUtils.isBlank` over `Character.isWhitespace`;
  - the token stream of a `StringTokenizer` over space, tab, CR and LF.

The objects the step acts on are small classes:

- `Run`, holding the result the step sets;
- `Workspace`, holding temporary files;
- `Launcher`, holding the vectors launched and the process a launch yields;
- the `TaskLog.Logger`;
- the tool descriptor.

Foreign code enters through the `Host` value:

- macro expansion;
- workspace glob listing;
- URI relativisation;
- `translateFor` on the node;
- the controller's path separator;
- `ArgumentListBuilder.toStringWithQuote`.

`perform` is specified end to end. `NUnitBuilder.Builder.Perform` states the completion, every
vector launched, the build result, every build-log line, the workspace files and the
descriptor's new state. It states them in terms of two specification functions:

- `PrefixLog`, for what is logged before the launch;
- `Exec`, for the effects of `execNUnit`.

Separate lemmas prove the properties of those functions:

- the argument order;
- each group's contents;
- the no-match abort;
- exit-code classification;
- clean-up of the script;
- the tool selection.

## Behaviour of the code worth noting

- The decorator keeps the *last* coverage line after the header. Every match overwrites the
  field (`NUnitListenerDecorator.java:63-66`). `NUnitListenerDecorator.LastMatchWins` and
  `TwoCoverageLinesKeepTheLast` state this.
- The abort for a nonzero exit code with `failBuild` is an `AbortException`. That is an
  `IOException`, so the handler of the same `try` catches it (`NUnitBuilder.java:437-447`).
  `execNUnit` then logs "NUnit command execution failed" and returns normally with FAILURE set.
- The coverage path is read after the run and its workspace-relative form is computed, but it
  is never published (`NUnitBuilder.java:430-435`). No environment variable is set.
- Platform and framework are free strings in the builder. They are appended when their
  expansion is not blank (`NUnitBuilder.java:284-293`).
- The manual command-line text is appended as one argument (`NUnitBuilder.java:296-298`). On
  Unix it is therefore a single element of the vector. On Windows it is split again only by the
  shell reading the script.
- `Attachments:` must fill the whole line (`NUnitListenerDecorator.java:19`, `matches()` at line
  59). A final `\n` or `\r\n` counts as whitespace there; a final U+0085, U+2028 or U+2029 does
  not, and such a line is not a header.

## Model

| member | source | states |
|---|---|---|
| JavaText.IsWhitespace | src/main/java/org/jenkinsci/plugins/nunit_runner/NUnitBuilder.java:359 | `Character.isWhitespace` holds for every tokenizer delimiter (space, tab, CR, LF), and an ASCII whitespace character is one that `String.trim` removes. |
| JavaText.StoredFieldNotBlank | src/main/java/org/jenkinsci/plugins/nunit_runner/NUnitBuilder.java:251-298 | A field stored by a setter whose first character is ASCII passes the `isBlank` guards: a non-null stored value that starts with an ASCII character is not blank. |
| JavaText.Trim | src/main/java/org/jenkinsci/plugins/nunit_runner/NUnitBuilder.java:104-107 | `String.trim` gives the empty string exactly when every character is at most U+0020. Otherwise it neither starts nor ends with such a character. It is the infix after the leading ones, followed by such characters only. |
| JavaText.FixEmptyAndTrim | src/main/java/org/jenkinsci/plugins/nunit_runner/NUnitBuilder.java:104-142 | A setter stores null exactly for null or an all-trimmable input. Otherwise it stores the non-empty trim, which has no trimmable character at either end. |
| JavaText.TrimOfTrimmed | src/main/java/org/jenkinsci/plugins/nunit_runner/NUnitBuilder.java:104-107 | A string with no trimmable character at either end is its own trim. |
| JavaText.FixEmptyAndTrimIdempotent | src/main/java/org/jenkinsci/plugins/nunit_runner/NUnitBuilder.java:104-142 | Setting a field to its own stored value leaves it unchanged. |
| JavaText.Tokens | src/main/java/org/jenkinsci/plugins/nunit_runner/NUnitBuilder.java:353-356 | Every token of the pattern string is non-empty and holds no space, tab, CR or LF. |
| JavaText.TokensSpellInput | src/main/java/org/jenkinsci/plugins/nunit_runner/NUnitBuilder.java:353-356 | Concatenated, the tokens are exactly the pattern string without its delimiters. Nothing is lost or reordered. |
| JavaText.TokensSplitAtDelimiter | src/main/java/org/jenkinsci/plugins/nunit_runner/NUnitBuilder.java:353-356 | Any delimiter separates: the tokens of `a d b` are those of `a` followed by those of `b`. |
| JavaText.TokensOfWord | src/main/java/org/jenkinsci/plugins/nunit_runner/NUnitBuilder.java:353-356 | A non-empty pattern without delimiters is one token. |
| NUnitInstallation.Make | src/main/java/org/jenkinsci/plugins/nunit_runner/NUnitInstallation.java:39-42 | The constructor keeps name and home and leaves the legacy field empty. |
| NUnitInstallation.DefaultExe | src/main/java/org/jenkinsci/plugins/nunit_runner/NUnitInstallation.java:102 | The default console is `nunit3-console.exe` on Windows (path separator `;`) and `nunit-console` elsewhere. |
| NUnitInstallation.DefaultTool | src/main/java/org/jenkinsci/plugins/nunit_runner/NUnitInstallation.java:102-103 | The created installation is named `Default` and its executable is the platform's default console. |
| NUnitInstallation.ForNode | src/main/java/org/jenkinsci/plugins/nunit_runner/NUnitInstallation.java:47-49 | Same name; the executable is the translated home. |
| NUnitInstallation.ForEnvironment | src/main/java/org/jenkinsci/plugins/nunit_runner/NUnitInstallation.java:55-57 | Same name. A null home stays null; otherwise the executable is the expanded home. |
| NUnitInstallation.ReadResolve | src/main/java/org/jenkinsci/plugins/nunit_runner/NUnitInstallation.java:64-69 | With a legacy path, the result is (name, legacy path); without one, the installation itself. The result never carries the legacy field. |
| NUnitInstallation.Lookup | src/main/java/org/jenkinsci/plugins/nunit_runner/NUnitInstallation.java:137-144 | None exactly when no installation has the name; otherwise the index of the first one that has it. |
| NUnitInstallation.Loaded | src/main/java/org/jenkinsci/plugins/nunit_runner/NUnitInstallation.java:92-106 | A configured list is unchanged; an empty one becomes the single default installation. |
| NUnitInstallation.DefaultFor | src/main/java/org/jenkinsci/plugins/nunit_runner/NUnitInstallation.java:75-89 | The default selection is always one of the installations present after loading. It is named `Default` exactly when such an installation exists. Without one named `Default`, it is the first configured installation, and with none configured it is the freshly created default. |
| NUnitInstallation.DefaultPrefersDefaultName | src/main/java/org/jenkinsci/plugins/nunit_runner/NUnitInstallation.java:75-79 | With an installation named `Default`, the default selection is the first such one. |
| NUnitInstallation.InstallationDescriptor.GetInstallation | src/main/java/org/jenkinsci/plugins/nunit_runner/NUnitInstallation.java:137-144 | Null exactly when no installation has the name. Otherwise the first installation with that name. |
| NUnitInstallation.InstallationDescriptor.OnLoaded | src/main/java/org/jenkinsci/plugins/nunit_runner/NUnitInstallation.java:92-106 | An empty list becomes the single default installation, which is saved. A non-empty list is left alone and not saved. |
| NUnitInstallation.InstallationDescriptor.GetDefaultInstallation | src/main/java/org/jenkinsci/plugins/nunit_runner/NUnitInstallation.java:75-89 | Returns the installation named `Default`, else the first one, else the one `onLoaded` creates. The list becomes the loaded list. |
| NUnitListenerDecorator.IsAttachmentsHeader | src/main/java/org/jenkinsci/plugins/nunit_runner/NUnitListenerDecorator.java:19 | The header pattern matches only a line that is `Attachments:` followed by whitespace to its very end, and such a line never names a coverage file. |
| NUnitListenerDecorator.CoverageMatch | src/main/java/org/jenkinsci/plugins/nunit_runner/NUnitListenerDecorator.java:21-22 | A captured path ends in `.coverage`, does not start with whitespace and holds no line terminator. |
| NUnitListenerDecorator.IndentedCoverageLine | src/main/java/org/jenkinsci/plugins/nunit_runner/NUnitListenerDecorator.java:21-22 | For an indented path line as NUnit prints it, the captured group is exactly the path. |
| NUnitListenerDecorator.Classify | src/main/java/org/jenkinsci/plugins/nunit_runner/NUnitListenerDecorator.java:19-22 | A line's kind is given by the header pattern and the coverage group. A captured group ends in `.coverage`, and no line is both a header and a coverage line. |
| NUnitListenerDecorator.Step | src/main/java/org/jenkinsci/plugins/nunit_runner/NUnitListenerDecorator.java:56-66 | Outside the section only a header changes the state, by entering it. Inside it, a coverage line overwrites the recorded path and any other line leaves it alone. The section flag is never cleared. |
| NUnitListenerDecorator.Scan | src/main/java/org/jenkinsci/plugins/nunit_runner/NUnitListenerDecorator.java:48-70 | After any sequence of lines, a recorded coverage path implies that the section was entered. |
| NUnitListenerDecorator.FirstHeader | src/main/java/org/jenkinsci/plugins/nunit_runner/NUnitListenerDecorator.java:56-61 | None exactly when no line is a header; otherwise the index of the first header. |
| NUnitListenerDecorator.LastCoverage | src/main/java/org/jenkinsci/plugins/nunit_runner/NUnitListenerDecorator.java:62-66 | None exactly when no line names a coverage file. |
| NUnitListenerDecorator.LastCoverageAt | src/main/java/org/jenkinsci/plugins/nunit_runner/NUnitListenerDecorator.java:62-66 | A coverage line with no coverage line after it gives the recorded value. |
| NUnitListenerDecorator.ScanIsExpected | src/main/java/org/jenkinsci/plugins/nunit_runner/NUnitListenerDecorator.java:48-70 | Stepping `eol` over a stream ends in a state determined by the stream. The section flag is whether a header occurred. The coverage file is the last coverage line after the first header. |
| NUnitListenerDecorator.SectionIffHeaderSeen | src/main/java/org/jenkinsci/plugins/nunit_runner/NUnitListenerDecorator.java:56-61 | The section flag is set exactly when some line so far was an `Attachments:` header. |
| NUnitListenerDecorator.SectionNeverReverts | src/main/java/org/jenkinsci/plugins/nunit_runner/NUnitListenerDecorator.java:56-61 | Once set, the section flag stays set whatever lines follow. |
| NUnitListenerDecorator.NoHeaderNoCoverage | src/main/java/org/jenkinsci/plugins/nunit_runner/NUnitListenerDecorator.java:56-66 | With no header line the state stays initial: no coverage file. |
| NUnitListenerDecorator.NothingCapturedBeforeSection | src/main/java/org/jenkinsci/plugins/nunit_runner/NUnitListenerDecorator.java:56-61 | The header line itself is not scanned for coverage. Up to and including the first header, nothing is recorded. |
| NUnitListenerDecorator.ExpectedLastMatch | src/main/java/org/jenkinsci/plugins/nunit_runner/NUnitListenerDecorator.java:62-66 | In the reference state, the last coverage line after a header gives the recorded path. |
| NUnitListenerDecorator.LastMatchWins | src/main/java/org/jenkinsci/plugins/nunit_runner/NUnitListenerDecorator.java:62-66 | After a header, the last line naming a coverage file decides the recorded path. |
| NUnitListenerDecorator.NonMatchingLineKeepsCoverage | src/main/java/org/jenkinsci/plugins/nunit_runner/NUnitListenerDecorator.java:63-66 | A line without a coverage match leaves the recorded path unchanged. |
| NUnitListenerDecorator.LastMatchIndexExists | src/main/java/org/jenkinsci/plugins/nunit_runner/NUnitListenerDecorator.java:62-66 | A recorded last coverage value comes from a line with no coverage line after it. |
| NUnitListenerDecorator.CoverageComesFromSection | src/main/java/org/jenkinsci/plugins/nunit_runner/NUnitListenerDecorator.java:56-66 | A recorded path is the coverage of some line that follows a header line. |
| NUnitListenerDecorator.RecordedPathIsCoverageFile | src/main/java/org/jenkinsci/plugins/nunit_runner/NUnitListenerDecorator.java:63-65 | Whatever is recorded ends in `.coverage`. |
| NUnitListenerDecorator.TwoCoverageLinesKeepTheLast | src/main/java/org/jenkinsci/plugins/nunit_runner/NUnitListenerDecorator.java:63-65 | For `Attachments:` followed by two indented coverage paths, the recorded path is the second one. |
| NUnitListenerDecorator.ListenerDecorator.constructor | src/main/java/org/jenkinsci/plugins/nunit_runner/NUnitListenerDecorator.java:33-41 | A new decorator is outside the section and has no coverage file. |
| NUnitListenerDecorator.ListenerDecorator.GetCoverageFile | src/main/java/org/jenkinsci/plugins/nunit_runner/NUnitListenerDecorator.java:43-45 | The value is the last coverage line after the first header of the lines received. It ends in `.coverage`. |
| NUnitListenerDecorator.ListenerDecorator.Eol | src/main/java/org/jenkinsci/plugins/nunit_runner/NUnitListenerDecorator.java:48-70 | Without a downstream, nothing changes. Otherwise the state takes one scan step on the line, and the line is appended unchanged to the log. |
| NUnitBuilder.ConvertArgument | src/main/java/org/jenkinsci/plugins/nunit_runner/NUnitBuilder.java:465-467 | `/option:param` parses back to the option and the parameter when the option contains no colon. |
| NUnitBuilder.AppendQuote | src/main/java/org/jenkinsci/plugins/nunit_runner/NUnitBuilder.java:482-484 | Removing the surrounding quotes from a quoted value gives the value back. |
| NUnitBuilder.ConvertArgumentWithQuote | src/main/java/org/jenkinsci/plugins/nunit_runner/NUnitBuilder.java:474-476 | `/option:"param"` is `/option:` around the quoted parameter, and it parses back to the option and the unquoted parameter. |
| NUnitBuilder.DropLeadingEmpty | src/main/java/org/jenkinsci/plugins/nunit_runner/NUnitBuilder.java:493-495 | The words that reach the script begin with a non-empty one: leading empty arguments add no separator. |
| NUnitBuilder.DropLeadingEmptyIsSuffix | src/main/java/org/jenkinsci/plugins/nunit_runner/NUnitBuilder.java:493-495 | Only leading empty arguments are dropped: the rest is a suffix of the arguments, and every argument before it is empty. |
| NUnitBuilder.ConcatString | src/main/java/org/jenkinsci/plugins/nunit_runner/NUnitBuilder.java:490-499 | The loop gives the arguments joined by single spaces, skipping leading empty arguments. |
| NUnitBuilder.JoinSplitsBack | src/main/java/org/jenkinsci/plugins/nunit_runner/NUnitBuilder.java:490-499 | A single-space join of non-empty words without delimiters splits back into the same words. |
| NUnitBuilder.ScriptWordsAreArguments | src/main/java/org/jenkinsci/plugins/nunit_runner/NUnitBuilder.java:490-499 | For non-empty arguments without blanks, splitting the script text at its delimiters gives the argument list back. |
| NUnitBuilder.ExpandOrNull | src/main/java/org/jenkinsci/plugins/nunit_runner/NUnitBuilder.java:376-387 | Null stays null; otherwise the macro-expanded string. |
| NUnitBuilder.TestFileTargetsCharacterised | src/main/java/org/jenkinsci/plugins/nunit_runner/NUnitBuilder.java:350-370 | The targets have no duplicates. A string is a target exactly when some token, expanded and non-blank, lists a file whose quoted relative path it is. |
| NUnitBuilder.Arguments | src/main/java/org/jenkinsci/plugins/nunit_runner/NUnitBuilder.java:247-248 | The argument list is never empty and its first element is the executable path. |
| NUnitBuilder.PlainGroups | src/main/java/org/jenkinsci/plugins/nunit_runner/NUnitBuilder.java:248-298 | The executable is one argument. The targets appear only for a non-blank pattern. The coverage switch appears exactly when enabled. The manual arguments appear, expanded, as one argument exactly when they are not blank. Only the test files can hold several arguments. |
| NUnitBuilder.QuotedOptionGroups | src/main/java/org/jenkinsci/plugins/nunit_runner/NUnitBuilder.java:263-276 | Settings and TestCaseFilter appear exactly when the configured field is not blank, as one argument that reads back to the option name and the quoted expanded value. |
| NUnitBuilder.PlainOptionGroups | src/main/java/org/jenkinsci/plugins/nunit_runner/NUnitBuilder.java:268-293 | Tests appears exactly when its field is not blank, Platform and Framework exactly when their expansion is not blank. Each is one argument that reads back to the option name and the expanded value. |
| NUnitBuilder.ArgumentsInFixedOrder | src/main/java/org/jenkinsci/plugins/nunit_runner/NUnitBuilder.java:242-298 | The groups appear in the fixed order: executable, test files, Settings, Tests, TestCaseFilter, coverage, Platform, Framework, manual arguments. |
| NUnitBuilder.ArgumentGroupContents | src/main/java/org/jenkinsci/plugins/nunit_runner/NUnitBuilder.java:250-298 | Each group holds exactly what its rule gives: the targets for a non-blank pattern; each option only when its field (or, for Platform and Framework, its expansion) is not blank, in its quoted or unquoted form; the coverage flag only when enabled. |
| NUnitBuilder.TestCaseFilterRendering | src/main/java/org/jenkinsci/plugins/nunit_runner/NUnitBuilder.java:273-276 | The filter `Priority=1\|TestCategory=Odd Nightly` appears in the arguments as `/TestCaseFilter:"Priority=1\|TestCategory=Odd Nightly"`. |
| NUnitBuilder.DefaultForLoaded | src/main/java/org/jenkinsci/plugins/nunit_runner/NUnitBuilder.java:156-161 | Calling `getDefaultInstallation` again after it has loaded the list selects the same installation. |
| NUnitBuilder.SelectTool | src/main/java/org/jenkinsci/plugins/nunit_runner/NUnitBuilder.java:154-164 | Without a name, the default installation. With a name, the first loaded installation of that name. "Missing" is reported exactly when there is none, and then the default is used. |
| NUnitBuilder.ResolvePath | src/main/java/org/jenkinsci/plugins/nunit_runner/NUnitBuilder.java:322-341 | The path is the expanded translated home. When translation fails, it is the expanded original home. |
| NUnitBuilder.Pump | src/main/java/org/jenkinsci/plugins/nunit_runner/NUnitBuilder.java:427-428 | Every output line reaches the log in order, and the decorator has seen exactly those lines. |
| NUnitBuilder.ResultFor | src/main/java/org/jenkinsci/plugins/nunit_runner/NUnitBuilder.java:437-444 | No result exactly for exit code 0. FAILURE exactly for a nonzero code with `failBuild`, UNSTABLE exactly for a nonzero code without it. |
| NUnitBuilder.Exec | src/main/java/org/jenkinsci/plugins/nunit_runner/NUnitBuilder.java:411-458 | When the script cannot be created (off Unix, no temporary file), nothing is launched, logged or set. Otherwise exactly one vector is launched and something is logged. A script exists exactly off Unix when its creation succeeds, and it is deleted unless deleting fails, which is then the last log line. A result is requested exactly for a nonzero exit code. |
| NUnitBuilder.ExitCodeClassification | src/main/java/org/jenkinsci/plugins/nunit_runner/NUnitBuilder.java:437-447 | Exit code 0 sets nothing. A nonzero code sets FAILURE with `failBuild` (the abort is caught and reported) and UNSTABLE without it. The call returns normally. |
| NUnitBuilder.LaunchVector | src/main/java/org/jenkinsci/plugins/nunit_runner/NUnitBuilder.java:415-422 | On Unix the arguments themselves are launched. Elsewhere `cmd.exe /C <script> && exit %ERRORLEVEL%` is launched, where the script holds the space-joined arguments. If the script cannot be created, nothing is launched. |
| NUnitBuilder.ScriptRemoved | src/main/java/org/jenkinsci/plugins/nunit_runner/NUnitBuilder.java:448-457 | A created script is gone afterwards and other files are untouched. If deleting fails, that is the last log line and the script stays. |
| NUnitBuilder.NoMatchingFiles | src/main/java/org/jenkinsci/plugins/nunit_runner/NUnitBuilder.java:251-260 | A non-blank pattern matching nothing is logged with the pattern, as the last line before the launch. `perform` aborts exactly when `failBuild` is set; otherwise the test-file group is empty. |
| NUnitBuilder.PerformLaunchesExecutableFirst | src/main/java/org/jenkinsci/plugins/nunit_runner/NUnitBuilder.java:242-301 | On Unix, every vector `perform` launches starts with the resolved executable path. |
| NUnitBuilder.Builder.constructor | src/main/java/org/jenkinsci/plugins/nunit_runner/NUnitBuilder.java:52-58 | A new step has no strings, coverage off and `failBuild` on. |
| NUnitBuilder.Builder.SetNUnitName | src/main/java/org/jenkinsci/plugins/nunit_runner/NUnitBuilder.java:104-107 | Stores the normalised name and changes no other field. |
| NUnitBuilder.Builder.SetTestFiles | src/main/java/org/jenkinsci/plugins/nunit_runner/NUnitBuilder.java:109-112 | Stores the normalised pattern and changes no other field. |
| NUnitBuilder.Builder.SetSettings | src/main/java/org/jenkinsci/plugins/nunit_runner/NUnitBuilder.java:114-117 | Stores the normalised settings and changes no other field. |
| NUnitBuilder.Builder.SetTests | src/main/java/org/jenkinsci/plugins/nunit_runner/NUnitBuilder.java:119-122 | Stores the normalised tests and changes no other field. |
| NUnitBuilder.Builder.SetTestCaseFilter | src/main/java/org/jenkinsci/plugins/nunit_runner/NUnitBuilder.java:124-127 | Stores the normalised filter and changes no other field. |
| NUnitBuilder.Builder.SetPlatform | src/main/java/org/jenkinsci/plugins/nunit_runner/NUnitBuilder.java:129-132 | Stores the normalised platform and changes no other field. |
| NUnitBuilder.Builder.SetFramework | src/main/java/org/jenkinsci/plugins/nunit_runner/NUnitBuilder.java:134-137 | Stores the normalised framework and changes no other field. |
| NUnitBuilder.Builder.SetCmdLineArgs | src/main/java/org/jenkinsci/plugins/nunit_runner/NUnitBuilder.java:139-142 | Stores the normalised manual arguments and changes no other field. |
| NUnitBuilder.Builder.SetEnableCodeCoverage | src/main/java/org/jenkinsci/plugins/nunit_runner/NUnitBuilder.java:144-147 | Stores the flag and changes no other field. |
| NUnitBuilder.Builder.SetFailBuild | src/main/java/org/jenkinsci/plugins/nunit_runner/NUnitBuilder.java:149-152 | Stores the flag and changes no other field. |
| NUnitBuilder.Builder.GetNUnit | src/main/java/org/jenkinsci/plugins/nunit_runner/NUnitBuilder.java:154-164 | Returns the selected installation and logs "does not exist" exactly when the named one is missing. The descriptor is loaded, and saved only if it was empty. |
| NUnitBuilder.Builder.GetNUnitPath | src/main/java/org/jenkinsci/plugins/nunit_runner/NUnitBuilder.java:322-341 | Returns the resolved path. Logs, in order: the missing-tool line, the translation-failure line, then `Path To NUnit: <path>`. |
| NUnitBuilder.Builder.GetTestFilesArguments | src/main/java/org/jenkinsci/plugins/nunit_runner/NUnitBuilder.java:350-370 | The nested loops return exactly the collected targets (see `TestFileTargetsCharacterised`). |
| NUnitBuilder.Builder.BuildCommand | src/main/java/org/jenkinsci/plugins/nunit_runner/NUnitBuilder.java:412-422 | On Unix the vector is a copy of the arguments and no file is created. Elsewhere a new script holds the joined arguments and the vector runs it. A failed creation yields no command. |
| NUnitBuilder.Builder.LaunchAndClassify | src/main/java/org/jenkinsci/plugins/nunit_runner/NUnitBuilder.java:426-447 | Launches the vector once. The output goes to the log, followed by the failure line when the handler runs. The result follows the exit code; a failed launch sets none. |
| NUnitBuilder.Builder.ExecNUnit | src/main/java/org/jenkinsci/plugins/nunit_runner/NUnitBuilder.java:411-458 | Completion, vectors launched, result, log and workspace files are exactly those that `Exec` gives for the arguments. |
| NUnitBuilder.Builder.AppendOptionalArguments | src/main/java/org/jenkinsci/plugins/nunit_runner/NUnitBuilder.java:263-281 | Appending Settings, Tests, TestCaseFilter and coverage, then the rest, gives exactly the specified argument list. |
| NUnitBuilder.Builder.AppendExpandedArguments | src/main/java/org/jenkinsci/plugins/nunit_runner/NUnitBuilder.java:283-298 | Appending Platform, Framework and the manual arguments completes exactly the specified argument list. |
| NUnitBuilder.Builder.CollectArguments | src/main/java/org/jenkinsci/plugins/nunit_runner/NUnitBuilder.java:250-298 | Aborts exactly on an empty match with `failBuild`, setting FAILURE. Otherwise it returns the specified argument list. It logs only the no-match line. |
| NUnitBuilder.Builder.PrepareArguments | src/main/java/org/jenkinsci/plugins/nunit_runner/NUnitBuilder.java:242-261 | Resolves the executable, then collects the arguments. Its log is the path lines followed by the no-match line. |
| NUnitBuilder.Builder.Perform | src/main/java/org/jenkinsci/plugins/nunit_runner/NUnitBuilder.java:240-302 | When aborting: nothing is launched, FAILURE is set and no file changes. Otherwise the effects of `execNUnit` on the specified arguments. In both cases the log begins with the path and no-match lines. |

## Left out

- `InterruptedException` is not modelled. Neither is any other way the build is interrupted.
- `AbortException` for no matching files is modelled as the completion `Aborted(message)`.
  Jenkins' handling of it is not modelled.
- `Run.setResult` is modelled as the result this code sets last. Jenkins' rule that a result
  can only get worse is not modelled.
- `Util.displayIOException`, `listener.fatalError` and the stack traces are modelled as the
  single line naming the failure. The `AbortException` message "NUnit exited with r" reaches
  the log only inside the stack trace, so it is not a separate line.
- `NUnitBuilder.Builder.GetTestFilesArguments` returns the targets in first-insertion order.
  The source returns the iteration order of a `HashSet`, which is unspecified. The contract
  promises no duplicates and exact membership, so it holds for any order. Only the group's
  position is significant.
- `relativize` is a total host function. An `IOException` from it, or from `toURI`, inside the
  listing loop would abandon the rest of that token's files. That is not modelled. Neither is
  the same exception from the coverage path's `relativize` (`NUnitBuilder.java:434`): the
  handler at line 445 would catch it, log the failure and skip the exit-code classification. An
  `IOException` from `workspace.list` itself is modelled: it skips the token.
- `ArgumentListBuilder.toStringWithQuote`, macro expansion, glob listing, `translateFor`,
  `File.pathSeparatorChar` and URI relativisation are foreign code. They are the parameters in
  `Host`.
- The launcher yields the same process for every launch. The environment and working directory
  passed to the launch are not modelled.
- `run.getEnvironment(listener)` (`NUnitBuilder.java:244`) can throw `IOException` or
  `InterruptedException` out of `perform` before anything is logged. That is not modelled: the
  environment is a parameter of the model.
- Output bytes and the platform charset are not modelled. Output is taken as lines of text.
- The coverage path computed after the run (`NUnitBuilder.java:430-435`) is read, but its
  relativised form is not modelled. The source discards it.
- `AddNUnitEnvVarsAction` is never used by the core, and `NUnitFramework`, `NUnitPlatform`
  are enumerations used only by the UI. They are not part of this model.
- The descriptor classes' UI methods are not part of this model: display names,
  `isApplicable`, `showNUnitToolOptions`, `getNUnitTools` and the `doFill…` methods. Neither
  are the getters of the builder.
- `NUnitBuilder.readResolve` is the identity and is not modelled.
- `NUnitInstallation.getInstallations`, the helper that turns a `NullPointerException` into an
  empty array, is modelled as reading the descriptor's list. The descriptor always exists here.
- `descriptor.save()` is modelled as recording the saved list in the `saved` field.
- `workspaceToNode` always yields a node: the build's, or the controller. The `builtOn != null`
  and `env != null` tests of `getNUnitPath` are therefore always true.
- `NUnitBuilder.PlanExe`: a null executable path is modelled as the string `"null"`. In the
  log line that is what Java string conversion prints. In the argument list the source would
  carry a null element instead, whose fate inside `ArgumentListBuilder` and the launcher is
  foreign code.
- Java `int` exit codes are modelled as unbounded integers. Only the test against 0 matters.
