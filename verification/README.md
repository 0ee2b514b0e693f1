# PHPStan-on-save core, modelled in Dafny

The extension runs the PHPStan analyser on PHP files open in the editor and
shows its findings as diagnostics. This project models the two parts of it
that hold the logic.

- **Scheduling and tracking.** For each request the extension decides whether
  to skip it. The state it keeps is the last analysed file, the time of that
  analysis, and a map from file name to the file's last lint and last
  modification times. There are two skip rules:
  - the same file asked for again within 3000 ms is skipped, whatever the trigger;
  - a focus change (trigger `'Changed active editor'`) on a file that has an
    entry and no modification after its last lint is skipped.

  The logic exists twice in the source: as the static class `LintedFiles`
  and inline at the top of `runPhpStan`. Both copies are modelled. Both are
  proved against one value-level specification (`Scheduling`), and so
  against each other.
- **Running and reporting.** This part covers:
  - the command line built from the settings;
  - the three ways a finished process is handled: non-zero exit with output,
    non-zero exit without output, zero exit;
  - the mapping of the report's messages for the analysed file into
    diagnostics;
  - the update of the diagnostic collection.

Modules, one file each:

- `Wrappers` (`wrappers.dfy`): `Option`.
- `Scheduling` (`scheduling.dfy`): the skip decision `Skips`, the tracking updates
  `Tracked` and `MarkedModified` on a `Tracker` value, and the policy lemmas.
- `Linted` (`linted_files.dfy`): class `LintedFiles`. The source's static fields
  become the fields of one object.
- `ShellWords` (`shell_words.dfy`): how the POSIX shell that `cp.exec` starts
  splits a command line into arguments. Spaces, single quotes and backslashes
  are interpreted. A line is *tame* when every character the shell would act
  on outside quotes and after no backslash is plain (ASCII letters, digits and
  `-_./=,:@%+`), a space, a quote or a backslash. `Argv` gives, for a tame
  line, the one simple command it runs, or a syntax error for a quote left
  open; any other line is *unmodelled*.
- `Command` (`command.dfy`): the settings, the command line as the source builds
  it, and the quoted command line (see Findings).
- `Editor` (`editor.dfy`): the editor types the core uses. The diagnostic
  collection is a class whose `map` is updated in place.
- `Results` (`results.dfy`): the message→diagnostic mapping, the outcome
  classification and the callback body.
- `Runner` (`runner.dfy`): class `PhpStanRunner`, which holds the module-level
  state of src/phpstanRunner.ts, with `RunPhpStan` and `MarkFileAsModified`.

Inputs that stand in for the outside world:

- `Date.now()` becomes the parameter `currentTime` or `now`.
- The `cp.exec` callback's `(err, stdout, stderr)` become an `ExecResult`.
- `JSON.parse(stdout)` becomes a `Parsed` value: it throws, it returns `null`,
  or it returns a document.
- The five settings become a `Settings` record, with `None` for an unset setting.

Behaviour of the code worth noting:

- A report without an entry for the file sets an empty list for the document
  (src/phpstanRunner.ts:96). It does not remove the document's list.
- A focus change 20 ms after a run is skipped by the 3000 ms window, even if
  the file was edited in between (`Scheduling.FocusScenario`).
- A non-empty `command` setting is used verbatim. No file-name substitution is
  done on it.
- `markFileAsModified` never creates an entry, in either copy.

## Model

| member | source | states |
|---|---|---|
| `Scheduling.Skips` | src/lintedFiles.ts:19-36 | the skip decision of both copies: debounce, or focus change on an unmodified entry; a skip always concerns the last analysed file or a file with an entry |
| `Scheduling.Tracked` | src/lintedFiles.ts:38-51 | the state after a run starts; the map gains exactly the analysed file's key |
| `Scheduling.MarkedModified` | src/lintedFiles.ts:54-61 | the state after an edit is recorded; the keys of the map and the last file and time stay |
| `Scheduling.SkipNeedsEntry` | src/lintedFiles.ts:19-51 | in a state the updates keep valid, every skip concerns a file with an entry, and a debounced one an entry linted less than 3000 ms before |
| `Scheduling.DebounceSkipsAnyTrigger` | src/lintedFiles.ts:21-23 | the same file as the last analysis, less than 3000 ms later, is skipped for every trigger |
| `Scheduling.UntrackedFileRuns` | src/lintedFiles.ts:19-35 | outside the window, a file with no entry is never skipped, for every trigger |
| `Scheduling.FirstRequestRuns` | src/lintedFiles.ts:10-35 | from the initial state, no request is skipped |
| `Scheduling.FocusChangeSkipsIffUnmodified` | src/lintedFiles.ts:28-33 | outside the window, a focus change on a tracked file is skipped if and only if `lastModified <= lastLinted` |
| `Scheduling.OtherTriggersOnlyDebounce` | src/lintedFiles.ts:28-35 | for every trigger but the focus change, `null` included, skipping is exactly the debounce rule |
| `Scheduling.TrackedRecordsRun` | src/lintedFiles.ts:38-51 | a run sets the last file and time and `lastLinted`; `lastModified` becomes the run time if dirty, else the prior value, else 0 |
| `Scheduling.TrackedKeepsOtherEntries` | src/lintedFiles.ts:47-51 | a run leaves every other file's entry, and whether it exists, unchanged |
| `Scheduling.TrackedPreservesValid` | src/lintedFiles.ts:38-51 | a run keeps entries filed under their own name, and keeps the last file's `lastLinted` equal to the last time |
| `Scheduling.SkippedRightAfterRun` | src/lintedFiles.ts:21-41 | after a run at `t`, the same file is skipped at any time in `[t, t+3000)`, for every trigger |
| `Scheduling.RunLeavesEntryUnmodified` | src/lintedFiles.ts:30-51 | if the clock has not gone back, a run leaves the entry with `lastModified <= lastLinted`, dirty or not |
| `Scheduling.MarkUntrackedIsNoOp` | src/lintedFiles.ts:54-61 | recording an edit of a file with no entry changes nothing |
| `Scheduling.MarkTrackedSetsLastModified` | src/lintedFiles.ts:54-61 | recording an edit sets that entry's `lastModified` to now and leaves its `lastLinted`, all other entries and the last file and time unchanged |
| `Scheduling.MarkedModifiedPreservesValid` | src/lintedFiles.ts:54-61 | recording an edit keeps the tracking invariant |
| `Scheduling.EditReenablesFocusAnalysis` | src/lintedFiles.ts:28-61 | an edit recorded after the last lint makes the next focus change outside the window run |
| `Scheduling.FocusScenario` | src/lintedFiles.ts:19-61 | open at 0 and edit at 10: focus changes at 20 and 21 are skipped; one at 5000 runs, and one at 5001 is then skipped |
| `Linted.LintedFiles.constructor` | src/lintedFiles.ts:10-12 | starts with an empty map, no last file and time 0 |
| `Linted.LintedFiles.ShouldSkipAnalysis` | src/lintedFiles.ts:19-36 | the class's if-chain decides exactly `Skips` (debounce, or focus change on an unmodified entry) and only reads the state |
| `Linted.LintedFiles.UpdateTracking` | src/lintedFiles.ts:38-52 | the new fields are exactly the old map with the file's entry replaced, the file and the time; the invariant is kept |
| `Linted.LintedFiles.MarkFileAsModified` | src/lintedFiles.ts:54-62 | with no entry, nothing changes; otherwise only that entry's `lastModified` becomes now |
| `ShellWords.SpaceJoin` | src/phpstanRunner.ts:67 | joining two fragments with a space gives the arguments of the first, then those of the second, when the first closes its quotes; the join is tame exactly when both fragments are, and closed exactly when the second is |
| `ShellWords.PlainWordIsOneWord` | src/phpstanRunner.ts:67 | a non-empty word of plain characters (ASCII letters, digits, `-_./=,:@%+`) is one argument, unchanged, and tame |
| `ShellWords.UnclosedQuote` | src/phpstanRunner.ts:67 | a quote opened after settled, tame text and never closed makes the shell refuse the line |
| `ShellWords.QuoteIsOneWord` | src/phpstanRunner.ts:67 | any text, single-quoted with its quotes escaped, is one argument, unchanged |
| `ShellWords.QuoteIsTame` | src/phpstanRunner.ts:67 | any text, single-quoted that way, is tame whatever characters it holds |
| `Command.Setting` | src/phpstanRunner.ts:49-52 | `config.get(key) \|\| default`: a non-empty setting is used, an unset or empty one gives the default |
| `Command.TemplateWords` | src/phpstanRunner.ts:53 | the template's arguments are the binary's, `analyse`, the path's, the format option's, the configuration part's and the extra arguments'; the line is closed exactly when the extra arguments are, and tame exactly when every piece is |
| `Command.ConfigPart` | src/phpstanRunner.ts:53 | the configuration part is empty exactly when no configuration path is set, and otherwise starts with `--configuration ` |
| `Command.BuildCommand` | src/phpstanRunner.ts:53 | a non-empty `command` setting is the command line verbatim |
| `Command.BuildCommandWords` | src/phpstanRunner.ts:49-53 | otherwise the arguments are the binary's, `analyse`, the file path's, `--error-format=<format>`, `--configuration <config>` only for a non-empty config, then the extra arguments; the line is tame exactly when the binary, format option, extra arguments and both paths are, and then the shell runs these words, or refuses the line exactly when the extra arguments leave a quote open |
| `Command.UnsetCommand` | src/phpstanRunner.ts:49-53 | with nothing set, the line is `phpstan analyse <file> --error-format=json` followed by two spaces |
| `Command.UnsetBuildWords` | src/phpstanRunner.ts:49-53 | with nothing set and a tame file path that closes its quotes, the shell runs `phpstan`, `analyse`, the file path's words and `--error-format=json` |
| `Command.PathWithSpaceIsSplit` | src/phpstanRunner.ts:53 | a path `dir + " " + base` becomes two arguments in the source's line and one in the quoted line |
| `Command.ExamplePathIsSplit` | src/phpstanRunner.ts:53 | `/p/a b.php` reaches the analyser as `/p/a` and `b.php` |
| `Command.ApostropheIsSyntaxError` | src/phpstanRunner.ts:53 | a path `dir + "'" + base` makes the source's line a shell syntax error; the quoted line passes it as one argument |
| `Command.QuotedCommand` | src/phpstanRunner.ts:53 | the corrected line: a non-empty `command` setting is still used verbatim |
| `Command.QuotedCommandWords` | src/phpstanRunner.ts:49-53 | in the corrected line the file path and the config path are one argument each, exactly as given |
| `Command.UnsetQuotedWords` | src/phpstanRunner.ts:49-53 | with nothing set, the corrected line's arguments are `phpstan`, `analyse`, the path and `--error-format=json` |
| `Results.ToDiagnostic` | src/phpstanRunner.ts:79-91 | range on 0-based line `msg.line - 1`, columns 0 to 1000; message copied; source `PHPStan`; Warning iff `ignorable` is `true`; a code iff the identifier is a non-empty string, and then it is the identifier |
| `Results.MapMessages` | src/phpstanRunner.ts:78-94 | one diagnostic per message, in the same order |
| `Results.CollectDiagnostics` | src/phpstanRunner.ts:71-94 | the push loop builds exactly `MapMessages` of the file's messages |
| `Results.FileMessages` | src/phpstanRunner.ts:72 | `results.files?.[fileName]?.messages ?? []`: messages come only from the entry filed under the file name |
| `Results.Classify` | src/phpstanRunner.ts:68-110 | zero exit: clean run; error with empty output: process failure; error with output: report if it parses to a document, else parse failure; a report holds the mapped messages of the file's own entry |
| `Results.SinkAfter` | src/phpstanRunner.ts:76-109 | a report replaces the document's list; a clean run removes it; the two failures leave the collection as it was; other documents' lists never change |
| `Results.HandleExecResult` | src/phpstanRunner.ts:67-110 | the callback's `delete` and `set` calls leave the collection equal to `SinkAfter` of the classified outcome |
| `Results.FileMessagesReadsOwnEntry` | src/phpstanRunner.ts:72 | only the report entry filed under exactly the file name is read |
| `Results.MissingEntrySetsEmptyList` | src/phpstanRunner.ts:72-96 | with no `files` or no entry for the file, the document's list is set to empty, not removed |
| `Results.CleanExitRemovesList` | src/phpstanRunner.ts:106-110 | a zero exit removes the document's list, whatever stdout holds |
| `Results.FailuresKeepSink` | src/phpstanRunner.ts:68-105 | output that does not parse, or a failure without output, leaves the collection unchanged |
| `Results.ReportedCountsMessages` | src/phpstanRunner.ts:72-96 | a parsed report gives exactly as many diagnostics as the file's messages, one for each in order |
| `Results.SingleIgnorableMessage` | src/phpstanRunner.ts:72-96 | one ignorable message on line 5 gives one warning on line 4 with no code |
| `Runner.PhpStanRunner.constructor` | src/phpstanRunner.ts:8-17 | starts with no last file, time 0 and an empty map |
| `Runner.PhpStanRunner.RunPhpStan` | src/phpstanRunner.ts:19-115 | returns `None` iff `Skips` holds, and then nothing changes; otherwise the state is `Tracked(..., doc.isDirty)`, the line is the source's `BuildCommand` and the collection is `SinkAfter` of the outcome |
| `Runner.PhpStanRunner.MarkFileAsModified` | src/phpstanRunner.ts:119-125 | the state becomes `MarkedModified` of the old one |
| `Runner.InlineCopyAgrees` | src/phpstanRunner.ts:24-47 | from equal states, the inline copy skips exactly when `LintedFiles.ShouldSkipAnalysis` says so, and both end in the same state |
| `Runner.MarkCopiesAgree` | src/phpstanRunner.ts:119-125 | the two `markFileAsModified` copies change equal states alike |

## Left out

- src/extension.ts: it only subscribes to editor events and registers the command. It also calls `runPhpStan` without the `spinner` argument, so its arguments arrive shifted by one. This wiring is not part of this model.
- Starting the process (`cp.exec`) and finding the working directory (the first workspace folder): these are I/O. The callback's three arguments are inputs.
- `JSON.parse`: a library call. Only its three kinds of result are modelled. JSON shapes the code does not expect, such as `messages` that is not an array, are not modelled.
- Logging to the output channel, the status-bar spinner, `setTimeout` and `LintedFiles.initialize`: user interface only, with no effect on the state or the diagnostics.
- Overlapping runs: the callback is applied as soon as the run starts. With real overlap, the run that finishes last wins, and the code has no guard against that.
- Argument checks inside the editor's `Position`, `Range` and `Diagnostic` constructors: that code is not visible here. The model assumes they accept every message.
- Messages whose `line` is not an integer, and identifiers that are not strings, are not modelled.
- The shell is modelled for spaces, single quotes and backslashes only. A line with a double quote, `$`, a glob, an operator, a comment, a tab or a newline where the shell acts on it is `Unmodelled`. So a path with `;`, `&` or `(`, which makes `sh` run a second command or refuse the line, is outside the model.
- `ShellWords.Argv`: takes the first word as the command even when it contains `=` (which `sh` reads as a variable assignment) or is a reserved word such as `if`. Only the binary path setting, `phpstan` by default, stands first.
- Times are unbounded integers. `Date.now()` values are exact in a JavaScript number, so nothing wraps around.
- `Command.QuotedCommand`: the corrected command line quotes for a POSIX shell only. On Windows `cp.exec` uses `cmd.exe`, which does not treat single quotes as quoting, so the correction is not right there; `cmd.exe` splitting is not modelled.

## Findings

| source | as written | input that shows it | evidently intended | confidence | as-written member | corrected member |
|---|---|---|---|---|---|---|
| src/phpstanRunner.ts:53 | the file path and the configuration path are pasted into the shell command line unquoted | with default settings, the file `/p/a b.php` reaches the analyser as two paths, `/p/a` and `b.php`; a file `/p/it's.php` makes the line a shell syntax error | each path reaches the analyser as one argument, so that files in folders with spaces are analysed | not executed; follows from how a POSIX shell splits words | `Command.PathWithSpaceIsSplit`, `Command.ExamplePathIsSplit`, `Command.ApostropheIsSyntaxError` (on `Command.BuildCommand`, which `Runner.PhpStanRunner.RunPhpStan` uses) | `Command.QuotedCommandWords` (on `Command.QuotedCommand`) |
