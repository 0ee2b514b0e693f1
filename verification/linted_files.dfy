/**
 * The `LintedFiles` class of src/lintedFiles.ts. Its state is static there, so
 * the extension has exactly one copy of it; here that copy is one object.
 * The output channel it is initialised with is only stored, never used, and is
 * not modelled.
 */
module Linted {
  import opened Wrappers
  import opened Scheduling

  class LintedFiles {
    var lintedFiles: map<string, LintedFile>
    var lastAnalyzedFile: Option<string>
    var lastAnalyzedTime: int

    /** The three fields as one value. */
    function State(): Tracker
      reads this
    {
      Tracker(lintedFiles, lastAnalyzedFile, lastAnalyzedTime)
    }

    ghost predicate Valid()
      reads this
    {
      Scheduling.Valid(State())
    }

    /** The static initialisers: an empty map, no file, time 0. */
    constructor ()
      ensures Valid()
      ensures State() == Initial
    {
      lintedFiles := map[];
      lastAnalyzedFile := None;
      lastAnalyzedTime := 0;
    }

    /** Whether a request to analyse `fileName` at `currentTime` is dropped. */
    function ShouldSkipAnalysis(fileName: string, currentTime: int, trigger: Trigger): (skip: bool)
      reads this
      ensures skip <==> Skips(State(), fileName, currentTime, trigger)
    {
      if lastAnalyzedFile == Some(fileName) && currentTime - lastAnalyzedTime < DebounceMs then
        true
      else if fileName in lintedFiles && trigger == Named(ActiveEditorLabel) then
        lintedFiles[fileName].lastModified <= lintedFiles[fileName].lastLinted
      else
        false
    }

    /** Records that an analysis of `fileName` starts at `currentTime`. */
    method UpdateTracking(fileName: string, currentTime: int, isDirty: bool)
      requires Valid()
      modifies this
      ensures Valid()
      ensures State() == Tracked(old(State()), fileName, currentTime, isDirty)
      ensures lastAnalyzedFile == Some(fileName) && lastAnalyzedTime == currentTime
      ensures lintedFiles == old(lintedFiles)[fileName := LintedFile(fileName, currentTime,
                if isDirty then currentTime
                else if fileName in old(lintedFiles) then old(lintedFiles)[fileName].lastModified
                else 0)]
    {
      ghost var before := State();
      lastAnalyzedFile := Some(fileName);
      lastAnalyzedTime := currentTime;
      var prior := if fileName in lintedFiles then Some(lintedFiles[fileName]) else None;
      lintedFiles := lintedFiles[fileName := LintedFile(
        fileName,
        currentTime,
        if isDirty then currentTime else if prior.Some? then prior.value.lastModified else 0)];
      TrackedPreservesValid(before, fileName, currentTime, isDirty);
    }

    /** Records an edit of `fileName` observed at `now` (the source reads the
        clock itself); a file without an entry is left alone. */
    method MarkFileAsModified(fileName: string, now: int)
      requires Valid()
      modifies this
      ensures Valid()
      ensures State() == MarkedModified(old(State()), fileName, now)
      ensures lastAnalyzedFile == old(lastAnalyzedFile) && lastAnalyzedTime == old(lastAnalyzedTime)
      ensures fileName !in old(lintedFiles) ==> lintedFiles == old(lintedFiles)
      ensures fileName in old(lintedFiles) ==>
                lintedFiles == old(lintedFiles)[fileName := old(lintedFiles)[fileName].(lastModified := now)]
    {
      ghost var before := State();
      if fileName in lintedFiles {
        var lintedFile := lintedFiles[fileName];
        lintedFile := lintedFile.(lastModified := now);
        lintedFiles := lintedFiles[fileName := lintedFile];
      }
      MarkedModifiedPreservesValid(before, fileName, now);
    }
  }
}
