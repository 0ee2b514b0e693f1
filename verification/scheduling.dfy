/**
 * The scheduling policy and the per-file tracking store, as values.
 *
 * Both `LintedFiles` (src/lintedFiles.ts) and the inline copy at the top of
 * `runPhpStan` (src/phpstanRunner.ts) keep the same three pieces of state: the
 * last analysed file, the time of that analysis, and a map from file name to
 * its last lint and last modification times. `Tracker` is that state as one
 * value; `Skips`, `Tracked` and `MarkedModified` say what the two copies must
 * decide and how they must change it, and the lemmas below state the policy.
 * Times are milliseconds, as `Date.now()` gives them.
 */
module Scheduling {
  import opened Wrappers

  /** Two analyses of the same file closer together than this collapse into one. */
  const DebounceMs: int := 3000

  /** The trigger label of the focus-change event; the only label the stale-focus rule looks at. */
  const ActiveEditorLabel: string := "Changed active editor"

  /** The `trigger` argument: `null` (the default) or a string. */
  datatype Trigger = NoTrigger | Named(text: string)

  predicate IsActiveEditorChange(trigger: Trigger) {
    trigger == Named(ActiveEditorLabel)
  }

  /** One entry of the tracking map. */
  datatype LintedFile = LintedFile(fileName: string, lastLinted: int, lastModified: int)

  datatype Tracker = Tracker(
    lintedFiles: map<string, LintedFile>,
    lastAnalyzedFile: Option<string>,
    lastAnalyzedTime: int)

  /** The state when the extension is loaded. */
  const Initial: Tracker := Tracker(map[], None, 0)

  /** Every entry is filed under its own name, and the last analysed file has an
      entry whose last lint is the last analysis. */
  predicate Valid(s: Tracker) {
    && (forall f :: f in s.lintedFiles ==> s.lintedFiles[f].fileName == f)
    && (s.lastAnalyzedFile.Some? ==>
          && s.lastAnalyzedFile.value in s.lintedFiles
          && s.lintedFiles[s.lastAnalyzedFile.value].lastLinted == s.lastAnalyzedTime)
  }

  /** Rule 1: the same file was analysed less than `DebounceMs` ago. */
  predicate InDebounceWindow(s: Tracker, fileName: string, currentTime: int) {
    s.lastAnalyzedFile == Some(fileName) && currentTime - s.lastAnalyzedTime < DebounceMs
  }

  /** The file has an entry and no modification was recorded after its last lint. */
  predicate LintedAndUnmodified(s: Tracker, fileName: string) {
    fileName in s.lintedFiles && s.lintedFiles[fileName].lastModified <= s.lintedFiles[fileName].lastLinted
  }

  /** The skip decision: rule 1, or rule 2 (stale focus) for a focus change. */
  predicate Skips(s: Tracker, fileName: string, currentTime: int, trigger: Trigger): (skip: bool)
    ensures skip ==> s.lastAnalyzedFile == Some(fileName) || fileName in s.lintedFiles
  {
    || InDebounceWindow(s, fileName, currentTime)
    || (IsActiveEditorChange(trigger) && LintedAndUnmodified(s, fileName))
  }

  /** `lintedFile?.lastModified || 0`. */
  function PriorLastModified(s: Tracker, fileName: string): int {
    if fileName in s.lintedFiles then s.lintedFiles[fileName].lastModified else 0
  }

  /** The state after an analysis of `fileName` starts at `currentTime`. */
  function Tracked(s: Tracker, fileName: string, currentTime: int, isDirty: bool): (t: Tracker)
    ensures t.lintedFiles.Keys == s.lintedFiles.Keys + {fileName}
  {
    var lastModified := if isDirty then currentTime else PriorLastModified(s, fileName);
    Tracker(
      s.lintedFiles[fileName := LintedFile(fileName, currentTime, lastModified)],
      Some(fileName),
      currentTime)
  }

  /** The state after an edit of `fileName` is observed at `now`. */
  function MarkedModified(s: Tracker, fileName: string, now: int): (t: Tracker)
    ensures t.lintedFiles.Keys == s.lintedFiles.Keys
    ensures t.lastAnalyzedFile == s.lastAnalyzedFile && t.lastAnalyzedTime == s.lastAnalyzedTime
  {
    if fileName in s.lintedFiles then
      s.(lintedFiles := s.lintedFiles[fileName := s.lintedFiles[fileName].(lastModified := now)])
    else
      s
  }

  // ---------------------------------------------------------------- the skip rules

  /** Within the window, the same file is skipped whatever the trigger. */
  lemma DebounceSkipsAnyTrigger(s: Tracker, fileName: string, currentTime: int, trigger: Trigger)
    requires s.lastAnalyzedFile == Some(fileName) && currentTime - s.lastAnalyzedTime < DebounceMs
    ensures Skips(s, fileName, currentTime, trigger)
  {
  }

  /** Outside the window, a file without an entry always runs. */
  lemma UntrackedFileRuns(s: Tracker, fileName: string, currentTime: int, trigger: Trigger)
    requires !InDebounceWindow(s, fileName, currentTime)
    requires fileName !in s.lintedFiles
    ensures !Skips(s, fileName, currentTime, trigger)
  {
  }

  /** The first request after loading is never skipped. */
  lemma FirstRequestRuns(fileName: string, currentTime: int, trigger: Trigger)
    ensures !Skips(Initial, fileName, currentTime, trigger)
  {
  }

  /** Outside the window, a focus change on a tracked file is skipped exactly
      when no modification was recorded after its last lint. */
  lemma FocusChangeSkipsIffUnmodified(s: Tracker, fileName: string, currentTime: int)
    requires !InDebounceWindow(s, fileName, currentTime)
    requires fileName in s.lintedFiles
    ensures Skips(s, fileName, currentTime, Named(ActiveEditorLabel))
        <==> s.lintedFiles[fileName].lastModified <= s.lintedFiles[fileName].lastLinted
  {
  }

  /** Every other trigger, `null` included, is held back by the debounce rule only. */
  lemma OtherTriggersOnlyDebounce(s: Tracker, fileName: string, currentTime: int, trigger: Trigger)
    requires !IsActiveEditorChange(trigger)
    ensures Skips(s, fileName, currentTime, trigger) <==> InDebounceWindow(s, fileName, currentTime)
  {
  }

  /** In a valid state, every skip, rule 1 included, concerns a file with an entry;
      a skip inside the window concerns the entry of the last analysis. */
  lemma SkipNeedsEntry(s: Tracker, fileName: string, currentTime: int, trigger: Trigger)
    requires Valid(s)
    requires Skips(s, fileName, currentTime, trigger)
    ensures fileName in s.lintedFiles
    ensures InDebounceWindow(s, fileName, currentTime) ==>
      currentTime - s.lintedFiles[fileName].lastLinted < DebounceMs
  {
  }

  // ---------------------------------------------------------------- tracking updates

  /** What starting an analysis records. */
  lemma TrackedRecordsRun(s: Tracker, fileName: string, currentTime: int, isDirty: bool)
    ensures var t := Tracked(s, fileName, currentTime, isDirty);
      && t.lastAnalyzedFile == Some(fileName)
      && t.lastAnalyzedTime == currentTime
      && fileName in t.lintedFiles
      && t.lintedFiles[fileName].lastLinted == currentTime
      && t.lintedFiles[fileName].lastModified ==
           (if isDirty then currentTime
            else if fileName in s.lintedFiles then s.lintedFiles[fileName].lastModified
            else 0)
  {
  }

  /** Starting an analysis leaves every other file's entry as it was. */
  lemma TrackedKeepsOtherEntries(s: Tracker, fileName: string, currentTime: int, isDirty: bool, other: string)
    requires other != fileName
    ensures var t := Tracked(s, fileName, currentTime, isDirty);
      && (other in t.lintedFiles <==> other in s.lintedFiles)
      && (other in s.lintedFiles ==> t.lintedFiles[other] == s.lintedFiles[other])
  {
  }

  lemma TrackedPreservesValid(s: Tracker, fileName: string, currentTime: int, isDirty: bool)
    requires Valid(s)
    ensures Valid(Tracked(s, fileName, currentTime, isDirty))
  {
  }

  /** Right after an analysis starts, the same file is skipped for the next
      `DebounceMs` milliseconds, whatever the trigger. */
  lemma SkippedRightAfterRun(s: Tracker, fileName: string, t: int, isDirty: bool, later: int, trigger: Trigger)
    requires t <= later < t + DebounceMs
    ensures Skips(Tracked(s, fileName, t, isDirty), fileName, later, trigger)
  {
  }

  /** With a clock that does not run backwards, a run always leaves the entry
      "linted and unmodified", dirty or not: from then on a focus change is
      skipped until an edit is recorded. */
  lemma RunLeavesEntryUnmodified(s: Tracker, fileName: string, currentTime: int, isDirty: bool)
    requires PriorLastModified(s, fileName) <= currentTime
    ensures LintedAndUnmodified(Tracked(s, fileName, currentTime, isDirty), fileName)
  {
  }

  // ---------------------------------------------------------------- recording edits

  /** Recording an edit of a file without an entry changes nothing. */
  lemma MarkUntrackedIsNoOp(s: Tracker, fileName: string, now: int)
    requires fileName !in s.lintedFiles
    ensures MarkedModified(s, fileName, now) == s
  {
  }

  /** Recording an edit of a tracked file sets its last modification and nothing else. */
  lemma MarkTrackedSetsLastModified(s: Tracker, fileName: string, now: int)
    requires fileName in s.lintedFiles
    ensures var m := MarkedModified(s, fileName, now);
      && m.lastAnalyzedFile == s.lastAnalyzedFile
      && m.lastAnalyzedTime == s.lastAnalyzedTime
      && m.lintedFiles.Keys == s.lintedFiles.Keys
      && m.lintedFiles[fileName].lastModified == now
      && m.lintedFiles[fileName].lastLinted == s.lintedFiles[fileName].lastLinted
      && m.lintedFiles[fileName].fileName == s.lintedFiles[fileName].fileName
      && (forall f :: f in s.lintedFiles && f != fileName ==> m.lintedFiles[f] == s.lintedFiles[f])
  {
  }

  lemma MarkedModifiedPreservesValid(s: Tracker, fileName: string, now: int)
    requires Valid(s)
    ensures Valid(MarkedModified(s, fileName, now))
  {
  }

  /** An edit recorded after the last lint makes the next focus change outside
      the window run again. */
  lemma EditReenablesFocusAnalysis(s: Tracker, fileName: string, now: int, currentTime: int)
    requires fileName in s.lintedFiles && now > s.lintedFiles[fileName].lastLinted
    requires !InDebounceWindow(s, fileName, currentTime)
    ensures !Skips(MarkedModified(s, fileName, now), fileName, currentTime, Named(ActiveEditorLabel))
  {
  }

  // ---------------------------------------------------------------- a session

  /** Open at 0, edit at 10, focus at 20 and at 21: both focus changes fall in
      the window of the run at 0 and are skipped. With the focus change at 5000
      instead, it runs, and one at 5001 is skipped by the window. */
  lemma {:induction false} FocusScenario(f: string)
    ensures
      var afterOpen := Tracked(Initial, f, 0, false);
      var edited := MarkedModified(afterOpen, f, 10);
      && !Skips(Initial, f, 0, NoTrigger)
      && Skips(edited, f, 20, Named(ActiveEditorLabel))
      && Skips(edited, f, 21, Named(ActiveEditorLabel))
      && !Skips(edited, f, 5000, Named(ActiveEditorLabel))
      && Skips(Tracked(edited, f, 5000, false), f, 5001, Named(ActiveEditorLabel))
      && Tracked(edited, f, 5000, false).lintedFiles[f] == LintedFile(f, 5000, 10)
  {
    var afterOpen := Tracked(Initial, f, 0, false);
    TrackedRecordsRun(Initial, f, 0, false);
    var edited := MarkedModified(afterOpen, f, 10);
    MarkTrackedSetsLastModified(afterOpen, f, 10);
    EditReenablesFocusAnalysis(afterOpen, f, 10, 5000);
    SkippedRightAfterRun(edited, f, 5000, false, 5001, Named(ActiveEditorLabel));
  }
}
