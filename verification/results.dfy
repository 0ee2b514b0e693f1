/**
 * What `runPhpStan` does when the analyser process exits
 * (src/phpstanRunner.ts:67-110): classify the exit, turn the report's messages
 * for the analysed file into diagnostics, and update the diagnostic collection.
 *
 * `JSON.parse(stdout)` is not modelled; its result is an input, `Parsed`.
 * A message is kept with the fields the mapping reads; a field that is absent
 * in the report is `None`.
 */
module Results {
  import opened Wrappers
  import opened Editor

  /** The `source` of every diagnostic. */
  const SourceTag: string := "PHPStan"

  /** The end column of every range: the tool reports lines, not columns. */
  const LineEnd: int := 1000

  /** One entry of a file's `messages` list; `line` is 1-based. */
  datatype Message = Message(line: int, message: string, ignorable: Option<bool>, identifier: Option<string>)

  /** A file's entry of `files`; a `null` entry reads like one without `messages`. */
  datatype FileReport = FileReport(messages: Option<seq<Message>>)

  /** What `JSON.parse(stdout)` gives: it throws, it gives `null` (so that
      `results.files` throws in turn), or it gives a document with or without
      a `files` object. */
  datatype Parsed = Unparseable | NullDocument | Document(files: Option<map<string, FileReport>>)

  /** The three arguments of the `cp.exec` callback; `err` carries the error message. */
  datatype ExecResult = ExecResult(err: Option<string>, stdout: string, stderr: string)

  /** How a finished run ends. */
  datatype Outcome =
    | Reported(diagnostics: seq<Diagnostic>)  // non-zero exit with a parsed report
    | ParseFailure                            // non-zero exit, output not a report
    | ProcessFailure                          // non-zero exit, no output
    | CleanRun                                // zero exit

  /** The diagnostic for one message (src/phpstanRunner.ts:79-91). */
  function ToDiagnostic(msg: Message): (d: Diagnostic)
    ensures d.range.start.line + 1 == msg.line && d.range.end.line == d.range.start.line
    ensures d.range.start.character == 0 && d.range.end.character == LineEnd
    ensures d.message == msg.message && d.source == SourceTag
    ensures d.severity == Warning <==> msg.ignorable == Some(true)
    ensures d.code.Some? <==> msg.identifier.Some? && msg.identifier.value != ""
    ensures d.code.Some? ==> d.code == msg.identifier
  {
    var range := Range(Position(msg.line - 1, 0), Position(msg.line - 1, LineEnd));
    var severity := if msg.ignorable == Some(true) then Warning else Error;
    var code := if msg.identifier.Some? && msg.identifier.value != "" then msg.identifier else None;
    Diagnostic(range, msg.message, severity, SourceTag, code)
  }

  /** One diagnostic per message, in the same order. */
  function MapMessages(msgs: seq<Message>): (ds: seq<Diagnostic>)
    ensures |ds| == |msgs|
    ensures forall i :: 0 <= i < |msgs| ==> ds[i] == ToDiagnostic(msgs[i])
  {
    if msgs == [] then [] else [ToDiagnostic(msgs[0])] + MapMessages(msgs[1..])
  }

  /** The `forEach` loop that pushes one diagnostic per message (src/phpstanRunner.ts:78-94). */
  method CollectDiagnostics(fileMessages: seq<Message>) returns (fileDiagnostics: seq<Diagnostic>)
    ensures fileDiagnostics == MapMessages(fileMessages)
  {
    fileDiagnostics := [];
    var i := 0;
    while i < |fileMessages|
      invariant 0 <= i <= |fileMessages|
      invariant |fileDiagnostics| == i
      invariant forall k :: 0 <= k < i ==> fileDiagnostics[k] == ToDiagnostic(fileMessages[k])
    {
      fileDiagnostics := fileDiagnostics + [ToDiagnostic(fileMessages[i])];
      i := i + 1;
    }
  }

  /** `results.files?.[fileName]?.messages ?? []`: the messages of exactly the
      analysed file, or none. */
  function FileMessages(files: Option<map<string, FileReport>>, fileName: string): (msgs: seq<Message>)
    ensures msgs != [] ==> files.Some? && fileName in files.value && files.value[fileName].messages == Some(msgs)
  {
    if files.Some? && fileName in files.value && files.value[fileName].messages.Some? then
      files.value[fileName].messages.value
    else
      []
  }

  /** Which way the callback goes (src/phpstanRunner.ts:68-110). */
  function Classify(fileName: string, exec: ExecResult, parsed: Parsed): (o: Outcome)
    ensures o == CleanRun <==> exec.err.None?
    ensures o == ProcessFailure <==> exec.err.Some? && exec.stdout == ""
    ensures o == ParseFailure <==> exec.err.Some? && exec.stdout != "" && !parsed.Document?
    ensures o.Reported? <==> exec.err.Some? && exec.stdout != "" && parsed.Document?
    ensures o.Reported? ==> o.diagnostics == MapMessages(FileMessages(parsed.files, fileName))
  {
    if exec.err.Some? && exec.stdout != "" then
      match parsed
      case Unparseable => ParseFailure
      case NullDocument => ParseFailure
      case Document(files) => Reported(MapMessages(FileMessages(files, fileName)))
    else if exec.err.Some? then
      ProcessFailure
    else
      CleanRun
  }

  /** The diagnostic collection after an outcome for `uri`. */
  function SinkAfter(sink: map<Uri, seq<Diagnostic>>, uri: Uri, o: Outcome): (after: map<Uri, seq<Diagnostic>>)
    ensures forall u :: u != uri ==> (u in after <==> u in sink) && (u in after ==> after[u] == sink[u])
    ensures o.Reported? ==> uri in after && after[uri] == o.diagnostics
    ensures o.CleanRun? ==> uri !in after
    ensures o.ParseFailure? || o.ProcessFailure? ==> after == sink
  {
    match o
    case Reported(ds) => (sink - {uri})[uri := ds]
    case CleanRun => sink - {uri}
    case ParseFailure => sink
    case ProcessFailure => sink
  }

  /** The body of the `cp.exec` callback, minus logging and the spinner. */
  method HandleExecResult(diagnostics: DiagnosticCollection, doc: TextDocument, exec: ExecResult, parsed: Parsed)
    modifies diagnostics
    ensures diagnostics.entries == SinkAfter(old(diagnostics.entries), doc.uri, Classify(doc.fileName, exec, parsed))
  {
    var fileName := doc.fileName;
    if exec.err.Some? && exec.stdout != "" {
      match parsed {
        case Unparseable =>
          // `JSON.parse` threw: logged, the collection is not touched.
        case NullDocument =>
          // `results.files` threw on `null`: logged the same way.
        case Document(files) =>
          var fileMessages := FileMessages(files, fileName);
          diagnostics.Delete(doc.uri);
          var fileDiagnostics := CollectDiagnostics(fileMessages);
          diagnostics.Set(doc.uri, fileDiagnostics);
      }
    } else if exec.err.Some? {
      // Error without output: logged only.
    } else {
      diagnostics.Delete(doc.uri);
    }
  }

  // ---------------------------------------------------------------- properties

  /** Only the entry filed under exactly `fileName` is read: two reports that
      agree on it give the same messages, whatever else they hold. */
  lemma FileMessagesReadsOwnEntry(a: map<string, FileReport>, b: map<string, FileReport>, fileName: string)
    requires fileName in a <==> fileName in b
    requires fileName in a ==> a[fileName] == b[fileName]
    ensures FileMessages(Some(a), fileName) == FileMessages(Some(b), fileName)
  {
  }

  /** A report without `files`, or without an entry for the file, gives the
      file an empty list: set, not removed. */
  lemma MissingEntrySetsEmptyList(sink: map<Uri, seq<Diagnostic>>, doc: TextDocument, exec: ExecResult, files: Option<map<string, FileReport>>)
    requires exec.err.Some? && exec.stdout != ""
    requires files.None? || doc.fileName !in files.value
    ensures var after := SinkAfter(sink, doc.uri, Classify(doc.fileName, exec, Document(files)));
      doc.uri in after && after[doc.uri] == []
  {
  }

  /** A zero exit removes the file's list, whatever was printed. */
  lemma CleanExitRemovesList(sink: map<Uri, seq<Diagnostic>>, doc: TextDocument, stdout: string, stderr: string, parsed: Parsed)
    ensures doc.uri !in SinkAfter(sink, doc.uri, Classify(doc.fileName, ExecResult(None, stdout, stderr), parsed))
  {
  }

  /** Output that does not parse, or a failure without output, leaves the
      collection exactly as it was. */
  lemma FailuresKeepSink(sink: map<Uri, seq<Diagnostic>>, doc: TextDocument, exec: ExecResult, parsed: Parsed)
    requires exec.err.Some?
    requires exec.stdout == "" || !parsed.Document?
    ensures SinkAfter(sink, doc.uri, Classify(doc.fileName, exec, parsed)) == sink
  {
  }

  /** A reported file gets exactly one diagnostic per message of its own entry. */
  lemma ReportedCountsMessages(doc: TextDocument, exec: ExecResult, files: map<string, FileReport>, msgs: seq<Message>)
    requires exec.err.Some? && exec.stdout != ""
    requires doc.fileName in files && files[doc.fileName] == FileReport(Some(msgs))
    ensures var o := Classify(doc.fileName, exec, Document(Some(files)));
      && o.Reported?
      && |o.diagnostics| == |msgs|
      && forall i :: 0 <= i < |msgs| ==> o.diagnostics[i] == ToDiagnostic(msgs[i])
  {
  }

  /** `{"files": {"/a.php": {"messages": [{"line": 5, "message": "x", "ignorable": true}]}}}`
      for `/a.php` gives one warning on 0-based line 4, without a code. */
  lemma {:induction false} SingleIgnorableMessage(sink: map<Uri, seq<Diagnostic>>, uri: Uri, err: string)
    ensures
      var msg := Message(5, "x", Some(true), None);
      var doc := TextDocument("/a.php", uri, false);
      var exec := ExecResult(Some(err), "{...}", "");
      var after := SinkAfter(sink, uri, Classify(doc.fileName, exec, Document(Some(map["/a.php" := FileReport(Some([msg]))]))));
      && uri in after
      && after[uri] == [Diagnostic(Range(Position(4, 0), Position(4, LineEnd)), "x", Warning, SourceTag, None)]
  {
    var msg := Message(5, "x", Some(true), None);
    assert MapMessages([msg]) == [ToDiagnostic(msg)];
  }
}
