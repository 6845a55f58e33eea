# Verified models of Open Resource Broker components

A Dafny model of the parts of the repository whose behaviour is hardest to see by reading, with
proofs for all inputs and all runs:

* the streaming protocol of the Go SDK, and the client composed with the SDK's mock server;
* the SPDX licence-expression tokenizer, parser, evaluator and verdict;
* the selective rewriter of `pyproject.toml`;
* the `.trivyignore.yaml` line reader;
* the scope painting of the `getattr` justification checker;
* the vCPU timeline of the analysis tool;
* the telemetry bootstrap's lifecycle;
* chunked instance termination with retries.

`dafny verify dfyconfig.toml` checks the whole project.

## How it is modelled

**Streaming.** `StreamProtocol` is a state machine over the steps of all parties: the producer
goroutine, receivers, `Close` callers and the context. What Go leaves to the scheduler, to
`select`, to timers and to the network is a choice of action, so a statement about all runs covers
every interleaving. The stream object of `stream.go` (channel, error cell, done channel) is part of
the machine's state because several goroutines step on it. A send on a closed channel or a second
close is recorded as a panic. `Kind` selects the per-request stream or the global event bus, which
share the machine and differ in how a frame is classified. Histories (`sent`, `received`, `waits`,
`log`) are kept in the state to be spoken about; no step reads them. That a blocked HTTP call or frame
read returns once the context is cancelled appears as its step being enabled.

The theorems build on each other: `StreamSafety` (what every reachable state satisfies),
`StreamProgress` (cancellation and Close), `StreamBackoff` (waits in closed form), `StreamOutcome`
(the concurrent machine refines a sequential reading of the network log, and `WaitForCompletion` is
exact over all runs), `MockServer` (client and server composed), `MockLiveness` (together they get
to the end).

**Licences.** `SpdxParser` holds the parser as written, a class with a position that its methods
advance, proved equal to functions on token sequences. `SpdxGrammar` states the grammar as a
relation and proves the parser sound and complete for it, and `SpdxErrors` says what its errors mean.
`SpdxPrint`, `SpdxTokens` and `SpdxPolicy` add printing, the text level and the meaning of the verdict. The allowlist, the alias table, Unicode
lower-casing and the table of word characters are parameters, so results hold for any of them.

**Line-based tools.** The rewriter and the trivyignore reader are modelled in two layers: a layout
layer for which the line tests are parameters, and the real tests and texts on top. The loops are
methods; each is proved equal to a function in which the file is seen section by section
(`PyprojectLayout.Rewrite`) or line kind by line kind (`TrivyLayout.Read`). `PyprojectLaws` and
`PyprojectKept` say what the rewriter keeps and exactly when, `PyprojectUpdate` says the same on the
literal text of a file; `TrivyHidden` says exactly what the reader loses.

**Telemetry and termination.** Everything the OpenTelemetry SDK or the EC2 API may do is an input:
an `Env` of outcomes, an answer for each call.

## Where the code and its promises differ

* `WaitForCompletion` is documented to stream until a terminal status. Three kinds of run end
  without an error and without one: a conclusive answer that is silent (a request that cannot be
  built, or a sentinel without a terminal frame, `SilentEndExists`); no conclusive answer, the context
  having ended (`CancelledEndExists`); and a terminal status whose event was given up because the
  context ended during the send (`GivenUpEndExists`). The contract of `WaitForCompletion` shows that
  there are no others.
* The `pyproject.toml` rewrite is idempotent, and keeps the sequence of section headers, if and only
  if the script line does not look like a section header or the file has no scripts section
  (`Idempotence`, `UpdateTwice`, `HeadersPreserved`). Managed text is up to date under the weaker
  condition that the script line does not look like a managed header (`ManagedUpToDate`), and no line
  is added to the author's own unless it looks like a coverage or an unmanaged one (`KeptPreserved`,
  `UpdateKeeps`).
* A comment in the first column of `.trivyignore.yaml` is taken for a top-level key. It changes what is
  read if and only if it stands in the vulnerabilities section and a line before the next top-level
  line starts an entry or lists a purl (`TopLevelLineHides`; `HiddenEntry` is the least such text),
  while blank lines and indented comments are free anywhere (`CommentsAreFree`, `NotesAreFree`).
* `shutdown_telemetry` is documented as a no-op before configuration. It sets the flag that makes
  every later shutdown return at once, so providers built afterwards are never flushed
  (`FlushedIffNotShutDownBefore`).
* File handles of the metrics exporters are all released if and only if no configure call that takes
  effect keeps more than one of them (`NoHandleLeaks`, `HandlesReleased`); `TwoFilesLeak` is the least
  run that loses one, and it is lost for good (`LeakIsForever`).
* The second sort of the vCPU timeline changes nothing if and only if no input row with an earlier row
  of the same time has a negative count (`SecondSortIsNoOp`).

## Model

| member | source | states |
|---|---|---|
| StreamSafety.InvStep | sdk/go/orb/client.go:772-949 | every step of every party keeps channel discipline, honest Close callers, trace shape and error-cell agreement |
| StreamSafety.TraceTheorem | sdk/go/orb/client.go:743-757 | in every run received ++ buffered is what was sent, in order, at most 64 buffered, no final event before the last, no send on a closed channel, and a received error event equals `Err()` |
| StreamSafety.RoomFor64 | sdk/go/orb/client.go:743 | in every run an event can be sent exactly while fewer than 64 are waiting |
| StreamSafety.ErrorIsStable | sdk/go/orb/stream.go:60-67 | the first recorded error is never replaced in any continuation |
| StreamProgress.StepDescends | sdk/go/orb/client.go:776-938 | after cancellation every step of any party lowers the rank; a fresh Close call raises it by 3 |
| StreamProgress.BoundedAfterCancel | sdk/go/orb/client.go:776-938 | no run continues for ever after cancellation: its length is bounded by rank and fresh Close calls |
| StreamProgress.NotStuck | sdk/go/orb/client.go:927-932 | after cancellation somebody can move until the producer exited and every Close returned, and the producer itself until it exited |
| StreamProgress.ProducerExits | sdk/go/orb/client.go:743-757 | in every cancelled run, receivers or none, the producer is out of steps exactly when it has exited, and then both channels are closed |
| StreamProgress.ProducerBounded | sdk/go/orb/client.go:776-938 | after cancellation the producer takes at most seven more steps, whatever the others do |
| StreamProgress.ProducerAlone | sdk/go/orb/client.go:776-938 | from any cancelled state the producer's own steps lead to its exit, with nobody receiving |
| StreamProgress.LeavesAtOnce | sdk/go/orb/client.go:776-851 | at either loop head, in a wait and in a send the producer can return at once when the context has ended |
| StreamProgress.CloseReturns | sdk/go/orb/stream.go:69-76 | in every run that cannot be prolonged, every Close call returned, both channels are closed and the buffer is drained |
| StreamProgress.AtMostOneAfterCancel | sdk/go/orb/client.go:863-932 | after cancellation at most one further event enters the channel |
| StreamBackoff.BackoffClosedForm | sdk/go/orb/client.go:773-851 | the n-th wait since the start or the last delivering attempt lasts min(2^n, 30) seconds, in both producers |
| StreamBackoff.BackoffStep | sdk/go/orb/client.go:1032-1096 | every producer step keeps the closed form of all waits and the backoff variable in step with it |
| StreamOutcome.EndedTheorem | sdk/go/orb/client.go:857-938 | an ended stream sent what the network log calls for, stopped at its only conclusive answer, and holds the error of its last answer; if cancelled, at most the last event is missing |
| StreamOutcome.ErrorMeaning | sdk/go/orb/client.go:812-890 | once a request stream has ended, each recorded error is equivalent to one kind of last answer: the timeout or error frame, the 4xx status, the reader failure |
| StreamOutcome.FrameMeaning | sdk/go/orb/client.go:886-936 | what each frame does to either stream, by its name, its data and what it decodes to |
| StreamOutcome.AnswerMeaning | sdk/go/orb/client.go:789-851 | what every other answer does: read on, wait, record an error or end |
| StreamOutcome.AnyAnswer | sdk/go/orb/client.go:789-880 | the network is not restrained: any answer can come where one is awaited |
| StreamOutcome.RequestsDelivered | sdk/go/orb/client.go:857-938 | in every run the events sent are the requests the server reported, in order and without gaps, then at most the error; all of them once ended with a live context |
| StreamOutcome.PayloadsDelivered | sdk/go/orb/client.go:1099-1138 | in every run the event bus carries the data of the frames received, in order and without gaps, then at most the error; all but the empty object once ended with a live context |
| StreamOutcome.WaitForCompletion | sdk/go/orb/client.go:951-975 | returns the last data event and the first error; over all runs, cancelled or not, exactly when the error is nil with a terminal status and exactly when it is nil without one, told on the fields of the last frame; with a live context the event is the last request the server reported |
| StreamOutcome.LastEvent | sdk/go/orb/client.go:963-973 | the loop over Next keeps the last event that is not an error |
| StreamOutcome.TerminalLast | sdk/go/orb/client.go:927-936 | in every run the last data event is terminal exactly when the last answer was a terminal frame whose event was not given up |
| StreamOutcome.SilentEndExists | sdk/go/orb/client.go:789-792 | a run that ends with no event and no error, its context live |
| StreamOutcome.CancelledEndExists | sdk/go/orb/client.go:776-781 | a run that ends with no event and no error because its context ended first |
| StreamOutcome.GivenUpEndExists | sdk/go/orb/client.go:928-932 | for any terminal frame, a run that reads it, sends no event and ends without an error |
| MockServer.ClientPartIsRun | sdk/go/mock/server.go:274-342 | a composed run restricted to the client is a run of the client alone |
| MockServer.PipeRead | sdk/go/mock/server.go:330-334 | the client never reads a sentinel before a terminal frame and stops reading at a terminal frame |
| MockServer.DisconnectHonoured | sdk/go/mock/server.go:296-328 | no connection carries more statuses than its simulated disconnect allows |
| MockServer.ServerRemembers | sdk/go/mock/server.go:95-118 | after any run the status and the disconnect limit are those last set for the request, and its history is exactly the statuses it was given |
| MockServer.ConnectionStarts | sdk/go/mock/server.go:285-288 | a new connection starts afresh with the limit last set |
| MockServer.StoppedHandler | sdk/go/mock/server.go:298-302 | a handler whose connection is dropped writes nothing more |
| MockServer.HandlerWrites | sdk/go/mock/server.go:296-341 | a handler writes the status it finds at each turn, up to its limit or the first terminal one, and after a terminal one the empty object |
| MockServer.CompositionTheorem | sdk/go/mock/server.go:290-341 | over any updates, disconnects and network failures, a nil error with a live context means a terminal status that the request really had |
| MockLiveness.WorkingPays | sdk/go/mock/server.go:290-341 | once the status is terminal and the network works, every step of client or server lowers the cost of what is left |
| MockLiveness.WorkingRunsEnd | sdk/go/mock/server.go:290-341 | so every such run is finite, its length bounded by the cost at its start |
| MockLiveness.LivenessTheorem | sdk/go/mock/server.go:290-341 | after any history, a run that cannot be prolonged has closed and drained the stream, has no error and delivered a terminal status the request had, its present one unless it had another |
| SpdxParser.Parser.constructor | dev-tools/ci/check_runtime_licenses.py:181-183 | a parser starts at the first of its tokens |
| SpdxParser.Parser.Advance | dev-tools/ci/check_runtime_licenses.py:188-193 | takes the next token or reports the end |
| SpdxParser.Parser.ParseAll | dev-tools/ci/check_runtime_licenses.py:195-199 | the parser as written computes `Parse` of the remaining tokens |
| SpdxParser.Parser.ParseOr | dev-tools/ci/check_runtime_licenses.py:201-206 | the OR loop computes `OrExpr` and leaves its rest |
| SpdxParser.Parser.ParseAnd | dev-tools/ci/check_runtime_licenses.py:208-213 | the AND loop computes `AndExpr` and leaves its rest |
| SpdxParser.Parser.ParseWith | dev-tools/ci/check_runtime_licenses.py:215-223 | computes `WithExpr`, with its three errors |
| SpdxParser.Parser.ParseAtom | dev-tools/ci/check_runtime_licenses.py:225-234 | computes `Atom`, with its errors |
| SpdxParser.OrExpr | dev-tools/ci/check_runtime_licenses.py:201-206 | every success consumes at least one token, which is also why the recursion ends |
| SpdxGrammar.ParserIsGrammar | dev-tools/ci/check_runtime_licenses.py:171-234 | parsing succeeds with a tree exactly when the grammar derives that tree from the tokens |
| SpdxGrammar.Unambiguous | dev-tools/ci/check_runtime_licenses.py:174-178 | no token sequence derives two trees |
| SpdxErrors.UnexpectedEndMeaning | dev-tools/ci/check_runtime_licenses.py:188-234 | the parser reports the end exactly when the tokens are no expression but the beginning of one |
| SpdxErrors.ErrorIsFinal | dev-tools/ci/check_runtime_licenses.py:195-234 | every other error stays the same whatever follows |
| SpdxErrors.TrailingMeaning | dev-tools/ci/check_runtime_licenses.py:195-199 | a trailing token stands right after a whole expression |
| SpdxErrors.ErrorMeaning | dev-tools/ci/check_runtime_licenses.py:195-234 | for every error but the end there is a token to blame, and each kind of error says where it stands and what it is |
| SpdxPrint.ParsePrint | dev-tools/ci/check_runtime_licenses.py:195-234 | printing then parsing is the identity on exactly the trees whose names are identifiers |
| SpdxPrint.PrintIsShortest | dev-tools/ci/check_runtime_licenses.py:174-178 | no derivation of a tree is shorter than its printed form |
| SpdxTokens.TokenizeKeepsText | dev-tools/ci/check_runtime_licenses.py:167-168 | the tokens, joined, are the text without white space |
| SpdxTokens.TokenizeIsStable | dev-tools/ci/check_runtime_licenses.py:144 | tokenizing the space-joined tokens of any string gives the same tokens |
| SpdxTokens.TokensAreLexemes | dev-tools/ci/check_runtime_licenses.py:144 | each token is a parenthesis, a keyword or text no keyword splits off |
| SpdxTokens.TextRoundTrip | dev-tools/ci/check_runtime_licenses.py:254-256 | text written from a tree tokenizes and parses back to it exactly when each name is one identifier to the tokenizer |
| SpdxPolicy.EvaluateIsChoice | dev-tools/ci/check_runtime_licenses.py:237-251 | evaluation is true exactly when some choice of one side of every OR leaves only allowed licences |
| SpdxPolicy.RegroupedChoices | dev-tools/ci/check_runtime_licenses.py:241-244 | regrouping AND or OR changes no choice |
| SpdxPolicy.RotationIsRegrouping | dev-tools/ci/check_runtime_licenses.py:241-244 | moving the parentheses of a chain leaves its right-nested form alone |
| SpdxPolicy.RegroupingKeepsVerdict | dev-tools/ci/check_runtime_licenses.py:237-251 | trees that differ by regrouping at any depth evaluate alike under every policy |
| SpdxPolicy.EvaluateIsMonotone | dev-tools/ci/check_runtime_licenses.py:237-251 | a longer allowlist never turns a verdict negative |
| SpdxPolicy.VerdictMeaning | dev-tools/ci/check_runtime_licenses.py:259-279 | a string is allowed exactly when some piece is not blank and all such pieces are listed, or its tokens derive a tree with an allowed choice; all else is refused |
| SpdxPolicy.PiecesOf | dev-tools/ci/check_runtime_licenses.py:158 | every string is a join of separator-free pieces in exactly one way |
| SpdxPolicy.VerdictOnPieces | dev-tools/ci/check_runtime_licenses.py:259-279 | the verdict on any pieces, aliases among them, joined by the separator |
| SpdxPolicy.VerdictOnTwo | dev-tools/ci/check_runtime_licenses.py:265-271 | of two pieces written with "; " between them one listed is not enough |
| SpdxPolicy.NothingIsRefused | dev-tools/ci/check_runtime_licenses.py:261-262 | a missing or empty licence is refused |
| SpdxPolicy.NoAliasRemains | dev-tools/ci/check_runtime_licenses.py:147-160 | replacement works piece by piece and leaves no alias |
| SpdxPolicy.NormaliseIsIdempotent | dev-tools/ci/check_runtime_licenses.py:147-160 | a second alias replacement changes nothing |
| SpdxPolicy.NormaliseKeepsOthers | dev-tools/ci/check_runtime_licenses.py:154-156 | a string without alias pieces goes through unchanged |
| PyprojectLayout.UpdateLines | dev-tools/package/generate_pyproject.py:105-252 | the index-driven loop computes the section-wise rewrite |
| PyprojectLayout.WriteProject | dev-tools/package/generate_pyproject.py:110-168 | writes the metadata and skips to the dependencies line or the next header |
| PyprojectLayout.Replace | dev-tools/package/generate_pyproject.py:170-230 | writes a block and skips exactly the old section |
| PyprojectLayout.WriteCoverage | dev-tools/package/generate_pyproject.py:232-247 | keeps every hand-written key after the managed ones |
| PyprojectLayout.Copy | dev-tools/package/generate_pyproject.py:249-252 | keeps a line as it is |
| PyprojectLayout.RewriteAppend | dev-tools/package/generate_pyproject.py:105-252 | rewriting works independently on the parts of a file cut at a header |
| PyprojectLaws.Idempotence | dev-tools/package/generate_pyproject.py:105-252 | rewriting twice is rewriting once, exactly when the script name is no header or there is no scripts section |
| PyprojectKept.ManagedUpToDate | dev-tools/package/generate_pyproject.py:112-246 | wherever a managed header stands in the output, the current managed text follows, exactly when the script line is not taken for a managed header or there is no scripts section |
| PyprojectKept.HeadersWritten | dev-tools/package/generate_pyproject.py:105-252 | for every file, what each header of the input becomes in the output |
| PyprojectKept.HeadersPreserved | dev-tools/package/generate_pyproject.py:105-252 | the header sequence is kept, only managed headers reworded, exactly when the script line is no header or there is no scripts section |
| PyprojectKept.KeptPreserved | dev-tools/package/generate_pyproject.py:164-252 | every line outside the managed text, from the dependencies line on, and every coverage key but source and branch, is kept in order and none is added, exactly when the script block leaves no stray line or there is no scripts section; none is ever lost |
| Pyproject.TemplateWellFormed | dev-tools/package/generate_pyproject.py:112-246 | the real templates meet what the laws ask, whatever the configured values |
| Pyproject.UpdatePyproject | dev-tools/package/generate_pyproject.py:99-256 | the text of the file is split, rewritten and joined |
| PyprojectFile.TextTwice | dev-tools/package/generate_pyproject.py:99-256 | on the text of the file, for any templates with single-line values, a second update changes nothing, with the exact condition |
| Pyproject.UpdateTwice | dev-tools/package/generate_pyproject.py:99-256 | the same for the real templates and line tests |
| Pyproject.ScriptNameMeaning | dev-tools/package/generate_pyproject.py:190-196 | for every script name, the line is no header exactly when the name does not start, spaces aside, with a bracket |
| Pyproject.StrayMeaning | dev-tools/package/generate_pyproject.py:190-196 | which lines of the real script block end up outside the managed text, for each kind its line may be taken for |
| Pyproject.UpdateKeeps | dev-tools/package/generate_pyproject.py:105-252 | for the real templates, headers, managed text and kept lines, each with its exact condition on the script line |
| PyprojectLines.HeaderMeaning | dev-tools/package/generate_pyproject.py:107-232 | which lines open which managed section, by their first characters |
| PyprojectUpdate.DependenciesSurvive | dev-tools/package/generate_pyproject.py:164-168 | wherever a [project] section stands, everything from its dependencies line on survives below the new metadata |
| PyprojectUpdate.CoverageKeysSurvive | dev-tools/package/generate_pyproject.py:232-247 | wherever a coverage section stands, every line but those beginning with "source " or "branch " survives below the managed ones |
| PyprojectUpdate.SectionOutcome | dev-tools/package/generate_pyproject.py:170-252 | the other managed sections are replaced whole, and every other section is left as it is |
| PyprojectUpdate.MetadataUpdated | dev-tools/package/generate_pyproject.py:112-162 | after an update name, version, description and requires-python have the configured values |
| PyprojectUpdate.PeopleNamed | dev-tools/package/generate_pyproject.py:120-125 | the author and maintainer lists name the configured person |
| PyprojectUpdate.VersionsClassified | dev-tools/package/generate_pyproject.py:145-151 | a classifier for each version that is not blank, and for nothing else |
| PyprojectUpdate.UrlsSay | dev-tools/package/generate_pyproject.py:172-181 | each URL key has its configured value |
| PyprojectUpdate.ScriptsSay | dev-tools/package/generate_pyproject.py:190-196 | the configured script name gets the entry point |
| PyprojectUpdate.MypySays | dev-tools/package/generate_pyproject.py:205-208 | the type checker gets the default Python version |
| PyprojectUpdate.UpdateOfLines | dev-tools/package/generate_pyproject.py:99-256 | on the text of a file the lines are split, rewritten and joined, and nothing else |
| TrivyLayout.LoadEntries | dev-tools/ci/check_security_exceptions.py:69-95 | the loop with its two flags computes `Read` |
| TrivyLayout.ReadRender | dev-tools/ci/check_security_exceptions.py:64-95 | loading any rendered document, sections and filler lines anywhere, gives back its entries in order |
| TrivyLayout.CommentsAreFree | dev-tools/ci/check_security_exceptions.py:73-94 | in any text a blank line or indented comment can be put anywhere without effect |
| TrivyHidden.SectionCounts | dev-tools/ci/check_security_exceptions.py:80-94 | a stretch of the section adds one entry per id line and one purl per purl line in an open list, told from the lines alone |
| TrivyHidden.TopLevelLineHides | dev-tools/ci/check_security_exceptions.py:75-81 | in any text, exactly when a top-level line such as a first-column comment changes what is read, and how many entries and purls it loses |
| TrivyHidden.HiddenEntry | dev-tools/ci/check_security_exceptions.py:75-81 | for any id and comment, a text that loses its only entry |
| Trivyignore.IdTextKind | dev-tools/ci/check_security_exceptions.py:82-86 | an indented id line is recognised with its id, whatever the spacing |
| Trivyignore.PurlTextKind | dev-tools/ci/check_security_exceptions.py:90-92 | an indented purl line is recognised with its purl |
| Trivyignore.PurlsTextKind | dev-tools/ci/check_security_exceptions.py:87-89 | an indented purls key is recognised |
| Trivyignore.ColumnZeroCommentKind | dev-tools/ci/check_security_exceptions.py:75-79 | a comment in the first column is taken for a top-level key |
| Trivyignore.TopLevelMeaning | dev-tools/ci/check_security_exceptions.py:75-79 | a line in the first column opens the section exactly when it is "vulnerabilities:" with at most white space behind it |
| Trivyignore.KindMeaning | dev-tools/ci/check_security_exceptions.py:82-94 | an indented line is an id line, a purl, a purls key or a comment exactly when it is written as one |
| Trivyignore.KindWords | dev-tools/ci/check_security_exceptions.py:82-92 | every id read is a word, and every purl is one behind "pkg:" |
| Trivyignore.BlankMeaning | dev-tools/ci/check_security_exceptions.py:73-74 | a line is skipped as blank exactly when it is white space |
| Trivyignore.NotesAreFree | dev-tools/ci/check_security_exceptions.py:73-94 | the same for the real line tests: blank lines and indented comments, wherever they stand |
| Trivyignore.LoadWritten | dev-tools/ci/check_security_exceptions.py:64-95 | ids and purls, with or without a purls key, written as text below "vulnerabilities:" with any spacing, trailing text, comments, blank lines and other keys, between other sections, are read back exactly |
| ScopeChecker.PaintScopes | dev-tools/quality/quality_check.py:561-567 | the nested loops leave on each line the start of the last function containing it |
| ScopeChecker.PaintIsInnermost | dev-tools/quality/quality_check.py:557-567 | in walk order that is the innermost function, the greatest start, and nothing outside functions |
| ScopeChecker.WindowHasComment | dev-tools/quality/quality_check.py:578-580 | finds a justification exactly when a line of the window has one |
| ScopeChecker.CheckCalls | dev-tools/quality/quality_check.py:569-590 | reports the flagged calls in walk order |
| ScopeChecker.FlaggedMeaning | dev-tools/quality/quality_check.py:569-590 | a call is flagged exactly when no justification lies between its innermost function's start, or line 1, and the call |
| VcpuTimeline.StableSortIsStable | dev-tools/analysis/visualise/visualise.py:746 | the sort sorts, keeps every row, and keeps ties in order |
| VcpuTimeline.StableOrderUnique | dev-tools/analysis/visualise/visualise.py:746-750 | there is only one stable ordering, whatever the algorithm |
| VcpuTimeline.CumSum | dev-tools/analysis/visualise/visualise.py:747 | the running total is the sum of each prefix |
| VcpuTimeline.SortKeepsTies | dev-tools/analysis/visualise/visualise.py:746 | sorting by time neither makes nor mends a tie that lowers the running total |
| VcpuTimeline.SecondSortIsNoOp | dev-tools/analysis/visualise/visualise.py:746-752 | the second sort and accumulation change nothing exactly when no input row with an earlier row of the same time has a negative count |
| VcpuTimeline.ReportedTotal | dev-tools/analysis/visualise/visualise.py:928 | for non-negative counts the column never falls and its maximum is the sum of the input |
| VcpuTimeline.TimelineOrdered | dev-tools/analysis/visualise/visualise.py:746-752 | for every input the rows come out in the order of their times, each exactly once, with the running total in that order |
| VcpuTimeline.Timeline | dev-tools/analysis/visualise/visualise.py:746-752 | the pipeline computes the four steps, and for non-negative counts its last row carries the input's total |
| Telemetry.TelemetryState.constructor | src/orb/bootstrap/telemetry.py:86-115 | the initial state |
| Telemetry.TelemetryState.Configure | src/orb/bootstrap/telemetry.py:194-390 | the whole new state of a configure call, for every failure inside it |
| Telemetry.TelemetryState.ConfigureMetrics | src/orb/bootstrap/telemetry.py:242-316 | the exporter loop and its handle bookkeeping |
| Telemetry.TelemetryState.ConfigureTraces | src/orb/bootstrap/telemetry.py:322-390 | the tracer provider and its exporter |
| Telemetry.TelemetryState.Shutdown | src/orb/bootstrap/telemetry.py:472-504 | the whole new state of a shutdown call |
| Telemetry.TelemetryState.Reset | src/orb/bootstrap/telemetry.py:118-144 | the whole new state of a reset call |
| Telemetry.ConfigureBuilds | src/orb/bootstrap/telemetry.py:238-390 | what a configure that takes effect builds, records and opens, from the environment alone |
| Telemetry.ConfigureOtherwise | src/orb/bootstrap/telemetry.py:194-233 | a second configure does nothing, and one that is not enabled only sets the flag |
| Telemetry.ResetStartsAgain | src/orb/bootstrap/telemetry.py:118-144 | after any history a reset makes the next configure take effect and the next shutdown flush what it records |
| Telemetry.ConfigureLeaksIff | src/orb/bootstrap/telemetry.py:242-316 | a configure that takes effect keeps the handles accounted for exactly when its exporters keep at most one, up to the first that raises |
| Telemetry.NoHandleLeaks | src/orb/bootstrap/telemetry.py:299-312 | over every call sequence, each handle is recorded and open or closed exactly once, exactly when every configure that took effect kept at most one metrics handle; otherwise one is lost |
| Telemetry.HandlesReleased | src/orb/bootstrap/telemetry.py:489-504 | after a reset, or the first shutdown since one, every handle ever opened has been closed once, under exactly that condition |
| Telemetry.TwoFilesLeak | src/orb/bootstrap/telemetry.py:267-312 | the least configuration that loses a handle: two fallback file exporters |
| Telemetry.LeakIsForever | src/orb/bootstrap/telemetry.py:118-144 | no later call ever closes a leaked handle |
| Telemetry.ProvidersShutDownOnce | src/orb/bootstrap/telemetry.py:472-487 | between resets at most one provider pair is built, and none is ever shut down twice |
| Telemetry.FlushedIffNotShutDownBefore | src/orb/bootstrap/telemetry.py:455-487 | a meter or tracer provider is flushed by the next shutdown exactly when no shutdown preceded its configure |
| TerminateInstances.TerminateChunk | dev-tools/admin/terminate_req_instances.py:59-84 | the calls for one chunk: throttled ones, then one that decides, at most five, one in a dry run |
| TerminateInstances.TerminateNext | dev-tools/admin/terminate_req_instances.py:55-84 | one turn of the loop: the next chunk is accepted by a successful call, or the run stops there |
| TerminateInstances.Terminate | dev-tools/admin/terminate_req_instances.py:24-84 | the accepted chunks are those of the successful calls, all of the input on return and a proper prefix on an exception; chunk sizes, call bound, and the failing chunk is the next one |

## Left out

- HTTP, TLS, Unix sockets, the retry transport and the SSE byte framing: frames and statuses are inputs of the streaming model.
- Payload fields of a stream event other than id, status and message: they are copied one by one and would add easy members only.
- The health check before a stream opens: a single early return.
- Fairness of the Go scheduler: progress is stated as a rank that every step lowers and a step that is always enabled.
- Wall-clock time, logging and printing: only the wait durations are kept.
- The allowlist and alias tables of the licence checker: they are parameters, with what is asked of the alias table stated as `AliasTable`.
- The report parsing and counting around the licence verdict: thin loops over JSON.
- How `.project.yml` is queried, the fallback of the PyPI name and the building of URLs from the repository name: the configured values are inputs of the rewriter.
- Python's universal newline translation when a file is read: the rewriter starts from the text, the trivyignore reader from its lines.
- The abstract syntax tree behind the `getattr` checker: functions and calls are given as line numbers in walk order.
- Data-frame columns that the timeline does not compute with, NaN times, and the on-disk vCPU cache.
- Which exception leaves `configure_telemetry`, and the auto-instrumentation calls after the providers: they do not touch the modelled state.
- The fulfilment state machine, circuit breaker, reconciler, storage and cloud providers of the Python service.
