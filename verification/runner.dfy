/**
 * `runPhpStan` and `markFileAsModified` of src/phpstanRunner.ts, with the
 * module-level tracking state they share (`lastAnalyzedFile`,
 * `lastAnalyzedTime`, `lintedFiles`) as the fields of one object.
 *
 * `Date.now()` is the parameter `currentTime` (or `now`). The analyser process
 * is not run: what its callback receives is the parameter `exec`, and what
 * `JSON.parse` makes of its output is `parsed`. The callback is applied as
 * soon as the run starts, so runs never overlap here.
 */
module Runner {
  import opened Wrappers
  import opened Scheduling
  import opened Command
  import opened Editor
  import opened Results
  import Linted

  class PhpStanRunner {
    var lastAnalyzedFile: Option<string>
    var lastAnalyzedTime: int
    var lintedFiles: map<string, LintedFile>

    function State(): Tracker
      reads this
    {
      Tracker(lintedFiles, lastAnalyzedFile, lastAnalyzedTime)
    }

    ghost predicate Valid()
      reads this
    {
      Scheduling.Valid(State())
    }

    /** The module's initialisers. */
    constructor ()
      ensures Valid()
      ensures State() == Initial
    {
      lastAnalyzedFile := None;
      lastAnalyzedTime := 0;
      lintedFiles := map[];
    }

    /** One analysis request. A skipped request returns `None` and touches
        nothing; otherwise the tracking state records the run, the returned
        command line is the one the source hands to the shell, and the
        collection holds the outcome for the document. */
    method RunPhpStan(doc: TextDocument, diagnostics: DiagnosticCollection, settings: Settings,
                      trigger: Trigger, currentTime: int, exec: ExecResult, parsed: Parsed)
      returns (command: Option<string>)
      requires Valid()
      modifies this, diagnostics
      ensures Valid()
      ensures command.None? <==> Skips(old(State()), doc.fileName, currentTime, trigger)
      ensures command.None? ==> State() == old(State()) && diagnostics.entries == old(diagnostics.entries)
      ensures command.Some? ==>
        && State() == Tracked(old(State()), doc.fileName, currentTime, doc.isDirty)
        && command.value == BuildCommand(settings, doc.fileName)
        && diagnostics.entries == SinkAfter(old(diagnostics.entries), doc.uri, Classify(doc.fileName, exec, parsed))
    {
      var fileName := doc.fileName;

      if lastAnalyzedFile == Some(fileName) && currentTime - lastAnalyzedTime < DebounceMs {
        return None;
      }

      var lintedFile := if fileName in lintedFiles then Some(lintedFiles[fileName]) else None;
      if lintedFile.Some? && trigger == Named(ActiveEditorLabel) {
        if lintedFile.value.lastModified <= lintedFile.value.lastLinted {
          return None;
        }
      }

      ghost var before := State();
      lastAnalyzedFile := Some(fileName);
      lastAnalyzedTime := currentTime;
      lintedFiles := lintedFiles[fileName := LintedFile(
        fileName,
        currentTime,
        if doc.isDirty then currentTime else if lintedFile.Some? then lintedFile.value.lastModified else 0)];
      TrackedPreservesValid(before, fileName, currentTime, doc.isDirty);

      var line := BuildCommand(settings, fileName);
      HandleExecResult(diagnostics, doc, exec, parsed);
      return Some(line);
    }

    /** Records an edit of `fileName` observed at `now`; a file without an
        entry is left alone. */
    method MarkFileAsModified(fileName: string, now: int)
      requires Valid()
      modifies this
      ensures Valid()
      ensures State() == MarkedModified(old(State()), fileName, now)
    {
      ghost var before := State();
      if fileName in lintedFiles {
        var lintedFile := lintedFiles[fileName];
        lintedFile := lintedFile.(lastModified := now);
        lintedFiles := lintedFiles[fileName := lintedFile];
      }
      MarkedModifiedPreservesValid(before, fileName, now);
    }
  }

  /** The inline copy in `runPhpStan` and the `LintedFiles` class agree: from
      equal states, the request is skipped by one exactly when the other's
      `ShouldSkipAnalysis` says so, and a run leaves both in the same state. */
  method InlineCopyAgrees(tracker: Linted.LintedFiles, runner: PhpStanRunner, diagnostics: DiagnosticCollection,
                          doc: TextDocument, settings: Settings, trigger: Trigger, currentTime: int,
                          exec: ExecResult, parsed: Parsed)
    returns (skip: bool, command: Option<string>)
    requires tracker.Valid() && runner.Valid()
    requires tracker.State() == runner.State()
    modifies tracker, runner, diagnostics
    ensures command.None? <==> skip
    ensures tracker.State() == runner.State()
  {
    skip := tracker.ShouldSkipAnalysis(doc.fileName, currentTime, trigger);
    if !skip {
      tracker.UpdateTracking(doc.fileName, currentTime, doc.isDirty);
    }
    command := runner.RunPhpStan(doc, diagnostics, settings, trigger, currentTime, exec, parsed);
  }

  /** The same for recording an edit. */
  method MarkCopiesAgree(tracker: Linted.LintedFiles, runner: PhpStanRunner, fileName: string, now: int)
    requires tracker.Valid() && runner.Valid()
    requires tracker.State() == runner.State()
    modifies tracker, runner
    ensures tracker.State() == runner.State()
  {
    tracker.MarkFileAsModified(fileName, now);
    runner.MarkFileAsModified(fileName, now);
  }
}
