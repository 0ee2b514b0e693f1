/**
 * The part of the editor's API the core uses: documents, positions and ranges,
 * diagnostics, and the diagnostic collection the results are written into.
 * Only what the core reads or writes is kept.
 */
module Editor {
  import opened Wrappers

  datatype Uri = Uri(path: string)

  /** An open document: its path, its URI and whether it has unsaved changes. */
  datatype TextDocument = TextDocument(fileName: string, uri: Uri, isDirty: bool)

  /** Zero-based line and column. */
  datatype Position = Position(line: int, character: int)

  datatype Range = Range(start: Position, end: Position)

  datatype Severity = Error | Warning

  datatype Diagnostic = Diagnostic(
    range: Range,
    message: string,
    severity: Severity,
    source: string,
    code: Option<string>)

  /** The diagnostics shown, per document. Each file's list is replaced or
      removed as a whole. */
  class DiagnosticCollection {
    var entries: map<Uri, seq<Diagnostic>>

    constructor ()
      ensures entries == map[]
    {
      entries := map[];
    }

    /** Removes the list of `uri`, if any. */
    method Delete(uri: Uri)
      modifies this
      ensures entries == old(entries) - {uri}
    {
      entries := entries - {uri};
    }

    /** Replaces the list of `uri`. */
    method Set(uri: Uri, diagnostics: seq<Diagnostic>)
      modifies this
      ensures entries == old(entries)[uri := diagnostics]
    {
      entries := entries[uri := diagnostics];
    }
  }
}
