# Durable sessions

A session is one append-only, fenced, hash-chained journal. A controller runs a deterministic harness
over it in three ways: live, recording every effect before its result is used; replayed, serving every
answer from the journal; and resumed after a crash, serving what was recorded and carrying on live
where the record ends. Some tool calls are gated: they are recorded, requested, decided by someone else
and answered with a receipt that names both. This project models that engine in Dafny and proves that its
parts agree.

`dafny verify dfyconfig.toml` checks everything.

## How it is built

| module | models |
|---|---|
| `Api`, `Codec`, `Alike` | the domain types; the normalising conversion to and from the stored form; what it keeps |
| `EventLog`, `SqliteLog` | the in-memory log and the stored one: compare-and-swap append, fences, the hash chain, deletion, forks |
| `Approval`, `ApprovalScan`, `Findings`, `Forks` | the scan of approval evidence, as a function of the journal and as the loops that compute it; what it says of the records; what a fork passes on |
| `Projection` | the same facts kept incrementally in tables, and the query that reads them |
| `Sinks`, `SinkObjects` | what each operation of a harness does on the live, replay and resume sinks, as functions of the sink's state and as the objects that change it |
| `Matching`, `Outside` | the same operations said of the records they are served by, and of what the provider and the executor replied |
| `Evidence`, `Runs`, `Traces` | how recorded effects and scanned gates fit together; whole runs; the trace a run leaves |
| `Replays`, `Recovery`, `Parking`, `Crashes`, `Upkeep`, `Accounting` | replay against run, recovery from any cut of a run, parking and resuming, what stays valid, what is executed how often |
| `Writers`, `Deciding` | every act that can write, and decisions |
| `Invocations`, `Inherited`, `Owned`, `Controller` | regrouping a journal by execution, calls left open by a fork and never driven again, and the controller's operations |
| `Readings` | what the controller makes of a journal before it runs anything, in terms of the records |
| `Journeys` | what the whole history of a session says about its ended turns, its interrupted openings and its replay |
| `Continuation` | recovery over the whole history of a session |
| `Storage` | that history as the stored log gives it back |
| `Checkpoint`, `SessionSet`, `SessionGuard` | turns, suspensions and stateful forks interleaving on one session; its connections and marks; admission |
| `Cursors`, `Checks` | recoveries that are given the head they expect; what the other checks of these processes keep out |
| `Bridge`, `BridgeFailures` | a harness in another process; the operation that fails there |

Members that the table below does not name are helpers of those it does: `Accounting.ActsOnlyLive` and
`Bridge.NoDeadlock` carry the results on divergence and on the bridge finishing, `Bridge.ChecksCross` its
steps, `SessionGuard.Alone` admission, `SqliteLog.PendingIsFinal` what holds after a deletion, `Controller.LiveIsResume` live
runs, and `Controller.ExecThenReplay` and `Controller.ResumeThenReplay` the replay of a whole session.

A harness is any function from the answers it has seen to its next operation or its return. The model
provider, the tool executor and the fence (how many more appends the log admits) are an arbitrary
environment, chosen anew for every operation. The hash is an arbitrary partial function of previous hash,
number and event; where it matters it is assumed to depend on the stored form only, to be injective on it,
and never to be empty. A run may be stopped after any record.

A journal is *well-formed* (`Writers.Sane`) when it is numbered 1..n, each of its executions starts with a
marker that counts its inputs, has those inputs first and then whatever the scan accepts, and no execution
but the latest owns an open gate. An execution is *sound* (`Upkeep.Sound`) when the scan accepts its records
and it has not ended; a run is *clean* (`Runs.Clean`) while nothing diverged, nothing stopped its sink and
its fence holds. A step is *repeatable* (`Replays.Repeatable`) when
the record behind it reads back as what happened. The condition is exact, and two of its failures are
given as concrete runs: a usage that a harness does not report is lost, and a failed call that a harness
answers with its own text or report is read back as that call's answer.

Where the code and a plausible reading of it differ, the model follows the code: the fence is not hashed;
`Verify` does not look at the numbering; a report's payload is not compared on replay; the usage of a
served answer comes only from a USAGE record directly after it; an inherited gate is not answered again,
even for the same decision; a recovery that repairs a missing request without a cursor mints its fence
outside the checkpoint mark.

## Model

| member | source | states |
|---|---|---|
| Codec.EventNormal | wire/convert.go:30-120 | For every event, encoding, decoding and encoding again gives the first encoding: the stored form is a normal form, so a stored hash can be recomputed from what is read back |
| Codec.PartNormal | wire/convert.go:179-240 | The same for a part, through the mutually recursive parts, reasoning summaries and tool results |
| Codec.ReasoningNormal | wire/convert.go:283-335 | The same for a reasoning part and the parts of its summary |
| Codec.CallNormal | wire/convert.go:351-375 | The same for a tool call and its structured arguments |
| Codec.ResultNormal | wire/convert.go:377-412 | The same for a tool result, its structured output and its content parts |
| Codec.PartFixed | wire/convert.go:179-218 | A part comes back unchanged exactly when at most one of its fields is set and what it holds is plain: no integer in structured content, and not both bytes and a URI |
| Codec.ContentFixed | wire/convert.go:763-796 | A structured content map comes back unchanged exactly when it holds no integer at any depth; what becomes of one that does is `Alike.ContentComesBack` |
| Codec.ReasoningFixed | wire/convert.go:283-335 | A reasoning part comes back unchanged exactly when it has at most one opaque source and a plain summary |
| Codec.ResultFixed | wire/convert.go:377-412 | A tool result comes back unchanged exactly when its output and content are plain and it carries no decision |
| Codec.EventFixed | wire/convert.go:30-120 | An event comes back from storage unchanged exactly when the message, call, result or lifecycle it carries is plain |
| Alike.OneContent | wire/convert.go:763-796 | Two structured contents have one stored form if and only if they are alike: the same keys, and value by value the same, where an integer is the same as the float of that number, at any depth |
| Alike.OnePart | wire/convert.go:179-240 | Two parts have one stored form if and only if the first of text, file, data, reasoning, call and result that each has set is the same and alike, whatever else is set |
| Alike.OneCall | wire/convert.go:351-375 | Two calls have one stored form if and only if identity, tool, mediation and key are equal and the arguments alike |
| Alike.OneResult | wire/convert.go:377-412 | Two results have one stored form if and only if their fields are equal and their output and content alike; the decision inside is not stored |
| Alike.OneEvent | wire/convert.go:30-120 | Two events have one stored form if and only if they are alike: equal in execution, kind and actor, and alike in what they carry |
| Alike.ContentComesBack | wire/convert.go:763-796 | Any content, plain or not, comes back alike: nothing is lost but the difference between an integer and its float |
| Alike.PartComesBackAlike | wire/convert.go:179-240 | Any part comes back alike, as the first of its fields that is set |
| Alike.CallComesBackAlike | wire/convert.go:351-375 | Any call comes back alike |
| Alike.ResultComesBackAlike | wire/convert.go:377-412 | Any result comes back alike, without its decision |
| Alike.EventComesBackAlike | wire/convert.go:30-120 | Any event comes back alike |
| EventLog.Log.NewFence | eventlog/eventlog.go:79-84 | Each minted fence is the next integer, and is the log's fence from then on |
| EventLog.Log.Append | eventlog/eventlog.go:88-117 | Succeeds exactly when the writer names the head, its fence is not older than the newest and the event can be hashed; a wrong head is a conflict, a right head under an older fence is fenced, in that order. Then the log has one more record, numbered, linked, fenced and hashed as asked; on an error nothing changes |
| EventLog.Log.Read | eventlog/eventlog.go:121-131 | The records from a sequence number on, in order; of a numbered log exactly its rest from there |
| EventLog.Log.Verify | eventlog/eventlog.go:137-155 | Accepts exactly the logs in which every record links to the hash before it and carries the hash of its own content |
| EventLog.AppendKeeps | eventlog/eventlog.go:88-117 | A committed record keeps the log verifiable and numbered 1..n, and is numbered one past the head its writer named |
| EventLog.RequestKeeps | eventlog/eventlog.go:79-117 | A request under a minted fence mints the next fence, adds exactly the writer's event at the head it named under the newest fence, or changes no record; the log stays chained and numbered, and its fences never decrease |
| EventLog.FencesExclude | eventlog/eventlog.go:79-117 | In any interleaving of writers that use fences they minted: the log stays in order, and the next append commits if and only if its writer named the head and holds the newest fence, and the event can be hashed |
| EventLog.HeadFixesHistory | eventlog/eventlog.go:137-155 | With an injective hash that is never empty, two logs that verify and end in the same hash agree record by record on number, link, hash and stored event, everything but the unhashed fence |
| EventLog.CopyPrefix | controller/controller.go:537-567 | Copying stops at the fork point and reproduces the parent's records, hashes included, under the child's fence |
| EventLog.ForkLog | controller/controller.go:537-567 | A fork of a valid parent leaves a valid child: the parent's prefix, then a marker linked to the parent's hash at the fork point; only a marker that cannot be hashed fails |
| EventLog.CopyStep | controller/controller.go:537-567 | Appending the parent's next event to a copy of what precedes it reproduces the parent's own record |
| SqliteLog.Store.NewFence | sqlitelog/sqlitelog.go:406-424 | The first fence of a session is one and each later one the next integer; a deleted session mints none, and no record changes |
| SqliteLog.Store.Append | sqlitelog/sqlitelog.go:429-514 | An event is committed exactly when it may be stored (no PARKED, no deletion of its own), the session is not deleted, the writer names the head, its fence is not older than the newest and it can be hashed; each refusal is reported in that order and changes nothing. The row holds the record the in-memory log would commit, in wire form, and the approval projection takes the event as it is read back |
| SqliteLog.Store.DeleteSession | sqlitelog/deletion.go:18-103 | Records the deletion once, as the last record; repeating it returns the same sequence number and changes nothing, and no later transaction changes the session |
| SqliteLog.Store.Read | sqlitelog/sqlitelog.go:557-583 | The decoded records from a sequence number on, in order; of a numbered log exactly its rest from there |
| SqliteLog.Store.Verify | sqlitelog/sqlitelog.go:592-612 | Accepts exactly the chained logs of what is read back, and always a store that only ever committed |
| SqliteLog.RowSound | sqlitelog/sqlitelog.go:492-514 | A committed row still continues the chain after it has been stored in wire form and decoded |
| SqliteLog.NextOrderly | sqlitelog/sqlitelog.go:406-487 | One transaction adds at most one record; it extends the head its writer named and carries the newest fence, and fences never go back |
| SqliteLog.RunOrderly | sqlitelog/sqlitelog.go:406-487 | In any interleaving of writers with minted fences: numbers are 1..n, the chain verifies as read back, record fences never decrease, records are only ever added, and once a deletion is recorded it is the last record and no later transaction changes the session |
| ApprovalScan.InspectExecution | controller/approval.go:166-278 | The loop over one execution's records publishes the states of its gated calls, or the same error, as the step-by-step specification does |
| ApprovalScan.Collect | controller/approval.go:119-164 | Grouping one more record keeps the executions in first-seen order, each with its own records in journal order |
| ApprovalScan.ScanRecords | controller/approval.go:119-164 | The whole scan, bounded by a cursor or not, equals its recursive specification on every journal, valid or not |
| Evidence.FoldAgrees | controller/approval.go:166-278 | When a scan accepts an execution, its gates and its recorded effects agree: call identities are distinct, each gate's call, request, decision and receipt lie next to each other in that order, and only the last gate can be incomplete |
| Evidence.ScanAccepts | controller/approval.go:166-278 | The scan takes a record if and only if it is acceptable where it stands, said field by field; a record that would answer the open gate but names another call, request or decision, or has a status its decision does not allow, is a divergence, and anything else an invalid log |
| Evidence.ScanTakes | controller/approval.go:166-278 | What an accepted record leaves: the start, the input, the end, the call and its mediation, the gate it opens with the record's number, or the open gate with the record as its request, decision or receipt |
| Findings.ScanFinds | controller/approval.go:119-278 | For every journal that scans: the scan publishes one state for each gated call of the journal and no other; a state names the execution, the call, and exactly the records that request, decide and answer it, the start marker, whether the execution has ended and whether a fork follows the call; the selected state is that of the last gated call of the execution that started last, and there is none exactly when that execution has no gated call |
| Findings.PendingIff | sqlitelog/sessions.go:190-205 | What a scan finds pending, and so what a listing reports, is a request if and only if the journal still waits for it: it requests the last gated call of the execution that started last, nothing decides or answers that call, and no fork follows it |
| Deciding.Approve | controller/approval.go:47-92 | A decision is appended, under one new fence, only for the pending request; an exact retry returns the recorded decision; a refusal or a retry writes nothing and mints nothing |
| Deciding.CommitIffPending | controller/approval.go:47-92 | A well-formed decision is committed if and only if its request is exactly the one a scan finds pending |
| Deciding.CommitDecides | controller/approval.go:47-92 | After the append the journal still scans, and the same decision is answered with that record |
| Deciding.DecisionIsFinal | controller/approval.go:47-92 | However the journal goes on, the same decision is answered with the committed record unless the journal was forked since, and every other decision of that request is refused |
| Deciding.DecidedVerdict | controller/approval.go:47-92 | For a gate with a decision: the same decision is answered with its record if the gate is owned; anything else is refused |
| Deciding.AddressedOnce | controller/approval.go:47-92 | A decision addresses at most one of the states a scan publishes |
| Forks.ForkInherits | controller/approval.go:119-164 | A fork marker changes nothing in what a scan finds, or in the error it fails with, except the head and that every gate is now inherited |
| Forks.ChildInherits | controller/controller.go:537-567 | The child a fork leaves repeats the parent's prefix in number, link, hash and event, and its scan is the scan of that prefix with every state inherited |
| Projection.Reduce | sqlitelog/approval_projection.go:172-282 | Reducing one event into a row that shows an execution as scanned leaves the row that shows it after one more scan step, and marks it invalid exactly when that step fails |
| Projection.Advance | sqlitelog/approval_projection.go:118-165 | The same with the approval-bearing mark and with rows that are already invalid |
| Projection.CountMoves | sqlitelog/approval_projection.go:118-170 | The counter of invalid gated executions moves by the execution of the event, up or down, and stays the number of executions the scan rejects |
| Projection.Reporting.Project | sqlitelog/approval_projection.go:118-165 | On the event that continues the journal the tables stay what a scan of the journal says; a skipped event leaves them corrupt |
| Projection.Reporting.Query | sqlitelog/sessions.go:190-205 | The listing of tables that mirror a journal reports exactly what a scan of the journal finds pending |
| Projection.Backfill | sqlitelog/approval_projection.go:49-101 | Tables built from a stored journal mirror it, or are corrupt when an event cannot be decoded |
| Projection.ReportIsScan | sqlitelog/sessions.go:190-205 | For every gap-free event sequence, valid or not, the incremental report equals the batch scan: the latest execution's last gate when it is owned, requested and neither decided nor answered, and nothing when any gated execution is invalid |
| Projection.ProjectSome | sqlitelog/approval_projection.go:118-165 | Over any run of appends, some of them by a writer that does not project: the tables mirror the journal and report what a scan finds pending when none was skipped, and report nothing when any was, wherever it stands |
| SinkObjects.LiveSink.Append | controller/controller.go:475-490 | One event at the head under the invocation's fence; a stale fence stays stale and nothing is written |
| SinkObjects.LiveSink.Model | controller/effects.go:45-70 | Records the call, then runs the model once, then records its message, and only then gives its answer, which is what the provider replied, usage included; each failure stops there with what was durable |
| SinkObjects.LiveSink.ToolCall | controller/effects.go:105-127 | Gated calls park; a known gated identity, a mediation the host does not execute, or a missing key is refused before anything is recorded; otherwise the call is recorded before the executor runs |
| SinkObjects.LiveSink.ExecTool | controller/effects.go:146-166 | Runs the executor once for a durable call; gives and records its reply with every field as it is but the identity, which is the call's; an error or a reply that claims to be a receipt gives and records nothing |
| SinkObjects.LiveSink.ParkTool | controller/approval_effects.go:56-85 | Records the gated call and its request, seals the sink with the park that names both, and refuses in the source's order what cannot park |
| SinkObjects.LiveSink.CompleteApproval | controller/approval_effects.go:89-134 | Carries out a recorded decision: a denial runs nothing and says so, an approval runs once and its receipt is the executor's reply, or its failure, with the status of its outcome; the recorded receipt names the call, the request and the decision, and any failure seals the sink |
| SinkObjects.LiveSink.Report | controller/effects.go:168-193 | Reporting for a gated call seals the sink, a claimed receipt is refused, anything else is recorded as it was reported |
| SinkObjects.LiveSink.Do | controller/effects.go:31-213 | One operation on the object equals one step of the specification, the guard first; what is recorded, run and given is said in terms of what the provider and the executor replied |
| SinkObjects.ReplaySink.Do | controller/effects.go:231-459 | One served operation equals one step of the specification; a divergence is kept and answers every later operation; a call goes through a record only when it is the same request |
| SinkObjects.ReplaySink.ToolCall | controller/effects.go:332-398 | Serves a recorded call and its result, or the four records of a gate, checking identity, tool, mediation, key and arguments, and the receipt's binding |
| SinkObjects.ResumeSink.Model | controller/resume.go:215-267 | Serves a recorded call and answer, completes a trailing call live, and otherwise diverges |
| SinkObjects.ResumeSink.ToolCall | controller/resume.go:300-380 | Serves a recorded call, runs a trailing one, completes a decided gate without a receipt, and goes live past the prefix |
| SinkObjects.ResumeSink.Do | controller/resume.go:187-453 | One operation on the object, with the live sink behind it, equals one step of the specification; a call goes through a record only when it is the same request |
| Matching.MatchIsSameRequest | controller/tool_identity.go:13-56 | A call matches a recorded one if and only if identity, tool, mediation and key are equal, the arguments are alike, the recorded key is not empty, and the recorded call is one the host could have executed: mediated by it, or gated with an identity |
| Matching.ReplayedCall | controller/effects.go:332-398 | Which records a call goes through on replay: refused without touching any for a missing key or a mediation the host does not execute; otherwise the record at hand is consumed if and only if it is the same request, and any difference is a divergence that stays |
| Matching.ReplayedCallAnswer | controller/effects.go:332-398 | What a served call is answered with: the result recorded right after it, under its identity; for a gate the receipt right after request and decision, naming both, with a status the decision allows, and the decision with it; anything else diverges |
| Matching.ReplayedModel | controller/effects.go:245-298 | A model call is served if and only if the record at hand is a MODEL_CALL of the same input; the answer is the message after it with the usage after that |
| Matching.ReplayedOther | controller/effects.go:300-330 | An output, a usage or a report is served if and only if the record at hand is that output, that usage, or a result that is no receipt; anything else diverges |
| Matching.ResumedCall | controller/resume.go:300-380 | Recovery treats a call as replay does while there is a record at hand |
| Matching.ResumedCallAnswer | controller/resume.go:300-380 | And answers it from the same records without running anything; only a call or a decided gate at the end of the record is carried out |
| Matching.ResumedModel | controller/resume.go:215-267 | The same for a model call, which is run again only as the last record |
| Matching.ResumedOther | controller/resume.go:269-453 | The same for outputs, usage and reports |
| Matching.SilentSinks | controller/effects.go:31-459 | A live, replay or resume sink that was stopped or closed, or has diverged, refuses every operation for that reason, records and runs nothing, and stays as it is |
| Outside.LiveDone | controller/effects.go:31-213 | What each live operation records, in which order and under which number, what it runs, and what it answers, in terms of what the provider and the executor replied and of how many records the log still admits |
| Outside.TrailingModel | controller/resume.go:215-267 | A model call that is the last record is run again, and its answer recorded and given as it is |
| Outside.TrailingCall | controller/resume.go:300-380 | An ordinary call that is the last record is executed once, and the reply recorded and given with every field as it is but the identity |
| Outside.GateCompletes | controller/approval_effects.go:89-134 | A decided gate: a denial runs nothing; an approval runs the executor once, and the receipt recorded and given is its reply, or its failure as an error, bound to call, request and decision |
| Outside.DecidedGate | controller/resume.go:300-380 | The same of a recovery that reaches a gate with a decision and no receipt |
| Outside.AnswersAreGenuine | controller/resume.go:58-185 | Of every turn, first or recovered, with any harness, environment and end: each answer the harness was given is a fault, or was recorded before the turn, or is what the provider or the executor replied to that very operation, and that reply is in the journal |
| Runs.StepTracks | controller/resume.go:187-453 | A clean step stays in step with the recorded effects: it goes through exactly the records its operation makes, recorded or new, and adds nothing before the prefix is exhausted |
| Runs.RunTracks | controller/resume.go:58-185 | The same over a whole run; the effects only grow and the served position never goes back |
| Traces.RunFollows | controller/resume.go:58-185 | A run that ends clean leaves in the journal, in order, the records of exactly the operations the harness made |
| Replays.StepRepeats | controller/effects.go:245-459 | A replay that stands where a run stood gives the run's answer if and only if the step is repeatable: a model answer's usage is zero with no USAGE next or is the USAGE next, and a failed call is not followed by a record that reads as its answer |
| Replays.TraceRepeats | controller/controller.go:352-449 | The replay of a recorded trace sees every answer of the run, and no divergence, if and only if every step is repeatable; it then consumes every record |
| Replays.ReplayOutputs | controller/controller.go:352-449 | A replay without a divergence has returned the texts of the recorded outputs it consumed, in order |
| Upkeep.StepSound | controller/approval.go:166-278 | Whatever one operation of a recovered turn does, the scan accepts the journal it leaves |
| Upkeep.RunUpheld | controller/approval.go:166-278 | However a run ends, the scan accepts what it leaves; when it ends clean no open gate is behind it |
| Upkeep.EndsSettled | controller/approval.go:166-278 | A run that ends clean and has served its prefix leaves every gate complete and every call identity distinct |
| Recovery.ReplayRepeatsRun | controller/controller.go:352-449 | For every deterministic harness, environment and sound starting journal, fresh or recorded: replaying what a finished run left repeats it answer for answer, without a divergence and consuming every record, if and only if every step of the run is repeatable |
| Recovery.RecoveryNeverDiverges | controller/resume.go:58-185 | Resuming what is left of a trace, in any environment, never diverges: the harness sees again what was answered before the cut, no record is lost, and every record left is served by the time it returns |
| Recovery.UsageDecides | controller/effects.go:285-298 | When no operation failed, a run is replayed as it went if and only if each model answer's usage is reported next or is zero with no USAGE next |
| Recovery.NonFailingRunReplays | controller/controller.go:352-449 | The same stated of a run and its replay |
| Recovery.UnreportedUsageIsLost | controller/effects.go:285-298 | A concrete harness that asks the model once and never reports usage: its replay repeats it if and only if the model's usage was zero |
| Recovery.HandledFailureIsMisread | controller/effects.go:245-278 | A concrete harness whose replay differs: a failed model call answered by the harness's own text is read back as the model's answer |
| Parking.RunParks | controller/approval_effects.go:56-85 | A parked run ends in a gated call and its request, past everything recorded before |
| Parking.RunParksRecorded | controller/approval_effects.go:56-85 | However a run that ends parked went, the last two records are the gated call and the request that the park names |
| Parking.ParkApproveResume | controller/resume.go:58-185 | A run parked on a gated call, decided by any decision the scan accepts and resumed with the same harness, never diverges, sees again what it saw, loses nothing, and has been served the decision when the harness returns |
| Parking.GateParks | controller/approval_effects.go:56-85 | Concretely, a harness whose one operation is a gated call parks on request 2, and whichever way it is decided the preceding result applies |
| Crashes.RunLies | controller/resume.go:58-185 | However a run that did not diverge ends once its prefix is served (returned or not, parked, stopped, or with its fence lost in the middle of an operation), its records are those of the operations its harness made, the last of them perhaps in part |
| Crashes.RunTraced | controller/resume.go:58-185 | What such a run left, cut after any record, is an initial part of what its harness did |
| Crashes.CrashResumeReplay | controller/resume.go:58-185 | Any run that did not diverge and has served its prefix, however it ended, may be cut after any record it wrote: with no undecided gate and repeatable steps before the cut it is resumed without divergence over unchanged records, sees again what it saw, and has served the cut when it returns; if the resumed run finishes, a later replay repeats it if and only if its steps are repeatable |
| Accounting.DivergedDidNothing | controller/resume.go:187-453 | A run that diverged wrote nothing, called no model and ran no tool |
| Accounting.DivergenceIsClean | controller/resume.go:58-185 | The same for every run over a journal whose evidence scans |
| Accounting.EffectAccounting | controller/effects.go:105-166 | However a run ends: the executor ran only for a call whose record was durable and unanswered, a gated one only under its approving decision, each record at most once, and at most the trailing one was recorded before the run |
| Accounting.TurnRuns | controller/resume.go:363-379 | Within one run, cut short anywhere, a call record is executed at most once, and one recorded before the run only if it was trailing |
| Accounting.CallsRunOncePerRecovery | controller/resume.go:363-379 | Over any history of runs, crashes and recoveries of an execution, each call record is executed at most once plus once per recovery that found it trailing |
| Writers.OpeningSane | controller/controller.go:219-346 | Committing a start marker and its inputs, as far as it gets, leaves a well-formed journal |
| Writers.TurnSane | controller/resume.go:58-185 | A turn over the current execution leaves a well-formed journal wherever it is interrupted |
| Writers.AnswerSane | controller/approval_effects.go:182-202 | A repaired request or a decision of the last gate leaves a well-formed journal |
| Writers.BlockedIff | controller/controller.go:247-260 | On a well-formed journal a new turn is refused exactly while the latest execution owns a gate without a receipt |
| Writers.LeadsSane | controller/approval.go:119-278 | Every act of Exec, Resume, the repair, Approve, lifecycle marks and forks keeps the journal well-formed, however it is interrupted |
| Writers.OneOpenGate | controller/approval.go:119-164 | Of all gates a scan finds in a well-formed journal, the only one that can be owned and unanswered is the selected one, the last of the latest execution |
| Writers.WritersNeverWedge | controller/approval.go:119-278 | Every journal reachable by those acts scans, with at most one owned gate open, the last gated call of the latest execution |
| Invocations.RecordedExecutions | controller/executions.go:32-111 | Succeeds if and only if no execution is broken, and gives the executions in first-seen order, each with exactly its own inputs, effects and start |
| Invocations.PendingExecution | controller/executions.go:115-124 | The last execution unless it has ended, or the error in its inputs |
| Invocations.EffectPlaced | controller/executions.go:32-111 | Each effect stands in the stream of exactly one execution, right after the effects recorded before it |
| Invocations.GatheredAgrees | controller/executions.go:32-191 | Collecting the records of an execution agrees with the approval scan on start, inputs, effects, completion and input errors |
| Invocations.StartRebuilt | controller/executions.go:153-166 | The start that Replay and Resume rebuild, at any later time, is the one Exec gave, field by field: its identity, the events recorded before it, its inputs, its configuration and cursor |
| Inherited.CountInherited | controller/resume.go:104-137 | The one-pass counter equals the number of calls recorded before the last fork and never answered directly by their own result; it is positive if and only if there is one |
| Owned.RecoveryDrivesOwned | controller/resume.go:104-185 | However a recovery that is not refused runs and ends, for every harness and environment: each run of the executor is of exactly one call record, ordinary or gated, which comes after the last fork marker, and so does each gate that gets its receipt |
| Owned.ForksEndExecution | controller/resume.go:104-137 | Along a branch of runs, crashes, recoveries and forks, a record that a fork marker follows is never executed again |
| Owned.BranchRunsOwned | controller/resume.go:363-379 | Along such a branch each call record is executed at most once plus once per recovery that found it trailing with no fork marker after it |
| Owned.OpenIsOwned | controller/approval_effects.go:182-202 | When the gateway lets a recovery go on, an open gate was requested after the last fork |
| Controller.LiveRunIsResumeRun | controller/controller.go:219-346 | A turn that Exec runs is a recovery with nothing recorded |
| Controller.ServedFromRecording | controller/approval_effects.go:136-144 | The gates a scan hands to a sink are those of the execution's own records |
| Controller.Controller.Open | controller/controller.go:279-324 | The start marker, then each input, in order, each at the head |
| Controller.Controller.Finish | controller/controller.go:325-346 | END exactly when the harness completed, nothing diverged, every record was served and the fence holds; ERROR otherwise; nothing for a stopped sink |
| Controller.OutcomeReports | controller/controller.go:325-346 | What is reported of a turn and what is recorded last, against how the harness returned, what stopped the sink, what diverged and what was served: END if and only if the end is reported, ERROR exactly when the sink was not stopped and the fence holds |
| Controller.RunReports | controller/resume.go:155-184 | The same of every run, first or recovered, with a park naming the last two records |
| Readings.BrokenIff | controller/executions.go:32-111 | Replay and recovery refuse a journal for an execution if and only if it has no identity, a start marker that is not its first record, or has ended without the inputs its marker counts |
| Readings.InputErrorIs | controller/executions.go:168-191 | Inputs are in order if and only if the marker, when there is one, counts the recorded inputs and each carries a message; they are incomplete if and only if fewer are recorded than counted in an execution that has not ended |
| Readings.PickableIff | controller/executions.go:115-142 | Recovery picks up an execution if and only if the journal can be read, and the execution that started last has its inputs and has not ended |
| Readings.BlockedMeans | controller/controller.go:247-260 | On any journal that scans, well-formed or not, a new turn is refused if and only if the last gated call of the execution that started last has no answer and no fork follows it |
| Readings.GatewayMeans | controller/approval_effects.go:180-203 | What recovery does first, by the records of the last gated call: goes on when it is answered, refuses when a fork follows it, writes the missing request for that call, parks when it is not decided, and goes on when it is |
| Readings.UngatedProceeds | controller/approval_effects.go:180-203 | And goes on when there is no gated call |
| Controller.Controller.Exec | controller/controller.go:219-346 | Refused exactly when the journal does not scan or owns an unanswered gate; otherwise the journal is what the opening and the run leave. It reports the end if and only if the harness completed, nothing stopped or diverged and the fence holds, and then END is the last record; a park if and only if one stopped the sink, with the gated call and its request last; the harness's error if and only if it failed and nothing stopped or diverged; otherwise the fault, and no END |
| Controller.Controller.Pick | controller/executions.go:129-142 | Finds an execution to recover exactly when the journal can be read and its last execution has not ended and has all its inputs |
| Controller.Controller.AnswerGate | controller/approval_effects.go:182-202 | An inherited gate refuses, a missing request is repaired by one record, an undecided gate parks on exactly the pending request, and otherwise recovery proceeds with nothing written |
| Controller.Controller.Resume | controller/resume.go:58-185 | On any journal, well-formed or not: refused, with nothing changed, exactly when there is nothing to recover, the gate was inherited or a call was left unanswered before a fork; otherwise the repaired request, the park on the pending request, or the journal of the run, and the outcome of the run reported as Exec does, with an end only when every record was served |
| Controller.SaneResume | controller/resume.go:58-185 | On a well-formed journal such a recovery is a turn of the session's writers, its run is the one the results on runs speak of, and it drives no intent recorded before a fork |
| Controller.Controller.Replay | controller/controller.go:352-449 | Writes nothing; succeeds exactly when the journal is readable and in every ended execution the harness makes operations that match the records, position by position and to the last one; returns their texts in order |
| Controller.EndedIsSettled | controller/controller.go:352-449 | In any journal that scans, what an ended execution is replayed from is settled: each gated call has its request, decision and receipt right after it, and the gates served are those records |
| Controller.ReproducedIffMatches | controller/controller.go:352-449 | For any journal that scans, an ended execution is replayed without error if and only if there are operations of its harness, on the answers they get, each matching the records it stands at field by field (input hash, output text, usage; the identity, tool, mediation, key and arguments of a call; the receipt and its binding), which together are all its records, with the harness returning after them; also when the harness ignores errors |
| Controller.ReplaySucceedsIff | controller/controller.go:352-449 | A replay of any readable journal succeeds if and only if that holds of each ended execution |
| Controller.ReplayReturnsTexts | controller/controller.go:352-449 | A replay that succeeds returns exactly the recorded texts of the ended executions, in order |
| Journeys.EndedOnce | controller/controller.go:219-346 | In every journal a session reaches, forks included, an execution that has ended was ended by a turn that nothing interrupted, holds exactly one END, written last by that turn, and has gained no record since |
| Journeys.OnlyResumableGrows | controller/resume.go:58-185 | No act of a session adds a record to an execution that is recorded and cannot be recovered |
| Journeys.JourneyReplays | controller/controller.go:352-449 | For every journal a session reaches by Exec, Resume, the repair, Approve, lifecycle marks and forks, each interrupted anywhere, with one deterministic harness: if each turn that ended its execution was repeatable, a replay succeeds and returns exactly the recorded texts of the ended executions, in order |
| Journeys.AccountedTurnReplays | controller/effects.go:285-298 | A turn that ended without a failing operation was repeatable if and only if each answer's usage is reported next or is zero with no USAGE next |
| Journeys.PartialInputsForever | controller/executions.go:168-191 | An opening interrupted before its last input stays as it was in every later journal of the session: its execution is never recovered, never ends, and reads as incomplete |
| Continuation.GateGrows | controller/approval_effects.go:56-85 | When records are an initial part of what a harness did, they still are with the request or the decision of the gated call they end in |
| Continuation.TurnExplained | controller/resume.go:58-185 | What a first or recovered turn leaves, stopped after any record, is again an initial part of what its harness did, when the steps before the stop are repeatable |
| Continuation.ActExplains | controller/resume.go:58-185 | Every act of a session (Exec, Resume, the repair, Approve, marks, forks), however it is interrupted, keeps the records of every execution an initial part of what its harness did, from the start recovery rebuilds for it |
| Continuation.JourneyNeverDiverges | controller/resume.go:58-185 | For every journal a session reaches by those acts, each interrupted anywhere, with one deterministic harness: as long as the steps of the earlier turns whose records survived were repeatable, a turn that gets to run there, first or recovered, in any environment, never diverges, loses nothing recorded, and has been served all of it when its harness returns |
| Continuation.FinishedTurnRepeats | controller/controller.go:352-449 | A turn that ended its execution and was repeatable, as a replay of the session needs it, also meets the condition of recovery, wherever it is cut |
| Storage.StoredIsWritten | sqlitelog/sqlitelog.go:557-583 | A journal is read back as it was written exactly when every event in it is plain |
| Storage.StepStored | controller/approval.go:166-278 | A step of the approval scan over a record as it is read back gives what the step over the written record gives, read back, error for error |
| Storage.SaneStored | sqlitelog/sqlitelog.go:557-583 | A well-formed journal is read back well-formed, whatever its events carry |
| Storage.StoredJourneyReplays | sqlitelog/sqlitelog.go:557-583 | Any journal a session reaches, plain or not, is readable as storage gives it back and holds the same executions, ended as before; its replay succeeds if and only if in each ended execution the harness, given the answers as they come back, makes the operations as they come back, position by position and to the last record, and then it returns exactly the texts that were written |
| Checkpoint.ActInv | placement/placement.go:641-831 | Every step of every process keeps the invariant of marks, connections, signals and fences |
| Checkpoint.OnlyRepairsIntrude | placement/placement.go:1273-1360 | Over every interleaving of turns, recoveries, repairs with and without a cursor, suspensions, decisions and forks, from a fork's first check after fencing until its mark is lifted: no turn opens a harness, and the journal gains only the fork's SUSPEND and what repairs without a cursor append |
| Checkpoint.CheckpointIsSafe | placement/placement.go:1273-1360 | If no repair without a cursor mints in the window from the fork's second fence until it lifts its mark, the journal from its second check on is the checked one followed only by the fork's SUSPEND under the newest fence, no turn opens a harness, and the fork does not fail; repairs before the window are allowed |
| Checkpoint.SuspendCommitsIff | placement/placement.go:1273-1360 | In every run, a fork with its snapshot commits its SUSPEND directly after the fork point under the newest fence if and only if no repair without a cursor minted between its second fence and its SUSPEND; otherwise the SUSPEND fails and nothing is recorded |
| Checkpoint.StaleIffOvertaken | placement/placement.go:1273-1360 | Past its second fence, a fork's fence is stale if and only if such a repair minted since |
| Checkpoint.OnlyOvertakenForksFail | placement/placement.go:1273-1360 | In no run does a fork snapshot compute and then fail to record it, unless such a repair minted in between |
| Checkpoint.RepairBreaksFork | placement/placement.go:950-996 | The exception arises: a run from the start in which a repair without a cursor mints after the snapshot, the SUSPEND fails, and the journal does not show the snapshot |
| Checkpoint.CheckpointIsReached | placement/placement.go:1273-1360 | Concretely, a fork overtakes a turn with an open harness: it supersedes the turn, waits for its mint and commits the first record under fence 3 |
| Cursors.CursorExcludesOthers | placement/placement.go:975-996 | Over every interleaving of the session's processes: while the fence of a recovery that was given an expected head is the newest, so that it can write at all, every record after that head is its own |
| Cursors.OutrunNeverRuns | placement/placement.go:975-1085 | Once the journal has moved past the head it expects, a recovery that has not made its last check never runs its harness, and one that has not made its first never opens it |
| Checks.SupersededStops | placement/placement.go:641-651 | Over every interleaving: a turn that a checkpoint superseded before it started never runs its harness, and one that was superseded while it ran never suspends the session |
| Checks.MissedForkStops | placement/placement.go:1273-1340 | Once the journal has moved past the fork point, a fork gets past none of the head checks it has still to make: not the one before its mark, not the ones after each of its fences |
| Checks.DecisionIsFresh | placement/registry.go:399-410 | However the other processes interleave, a decision that is recorded stands directly after the journal it was judged on |
| Checks.RecordsAreOfTheirKind | placement/placement.go:849-933 | Over every interleaving: suspensions and forks write only SUSPEND records, decisions and repairs none, a turn one only when it has parked; and a process that goes on as having suspended the session has |
| SessionSet.Sessions.OpenHarness | placement/placement.go:668-691 | Registers a connection unless the session is marked; a refused one is not registered |
| SessionSet.Sessions.ReleaseHarness | placement/placement.go:694-709 | Removes just that connection, and signals and ends it |
| SessionSet.Sessions.BeginCheckpoint | placement/placement.go:734-746 | Takes the free mark and supersedes exactly the connections open then; a taken mark changes nothing |
| SessionSet.Sessions.EndCheckpoint | placement/placement.go:772-777 | Lifts that mark only, whichever operation set it |
| SessionSet.Sessions.EndHarnesses | placement/placement.go:803-831 | Ends every collected connection and touches no signal |
| SessionSet.Sessions.Busy | placement/placement.go:135-139 | True exactly when a mark is held or a connection is open |
| SessionGuard.Guard.Acquire | placement/session_guard.go:40-78 | Admits a hold exactly when no outstanding hold excludes it: a deletion excludes everything, an operation another operation; a refusal changes nothing |
| SessionGuard.Guard.Release | placement/session_guard.go:40-78 | Removes just that hold; the entry it acts on is still the session's, and leaves the map with its last hold |
| SessionGuard.TableAdmits | placement/session_guard.go:40-78 | The flags and the reader count of an entry refuse exactly what the outstanding holds exclude |
| Bridge.BridgeIsTransparent | harnesswire/harnesswire.go:52-562 | Over FIFO streams and in every schedule, with operations that succeed: the host's sink is given a prefix of the operations the harness makes in process, the harness sees the answers it would see there, and a host that is done has served all of them and succeeds if and only if the harness did |
| Bridge.BridgeFinishes | harnesswire/harnesswire.go:424-562 | When the harness returns after n operations in process, the bridge is done, with the same operations and the same outcome, after a bounded number of rounds |
| Bridge.ParkCrosses | harnesswire/harnesswire.go:301-590 | In every schedule of a run that parks: nothing follows the gated call, no END is ever sent, a PARKED only for this park and after everything else, and a host that is done has parked exactly this call unless the harness failed on its own |
| Bridge.ParkFinishes | harnesswire/harnesswire.go:301-590 | When the harness parks at its p-th operation and returns after q more, the bridge is done after a bounded number of rounds: the host was given everything up to the gated call and nothing after it, the harness saw q + 1 refusals, and the run is parked at this call exactly when the harness completed or its error only unwinds the park |
| BridgeFailures.FailureCrosses | harnesswire/harnesswire.go:424-562 | In every schedule of a run whose p-th operation the host's sink fails: the host is given the operations the harness makes in process up to that one and no more, and once it is done the run has failed |
| BridgeFailures.FailureFinishes | harnesswire/harnesswire.go:424-562 | And it is done after a bounded number of rounds |
| BridgeFailures.PeerCannotMislead | harnesswire/harnesswire.go:159-404 | Whatever frames arrive at the serving process, in whatever order, and whenever the stream closes: its harness is only ever given a completion for a model call, a result of that very call that is no receipt, a receipt of that gated call with its decision, or a failure; and when a COMPLETED end is sent, the harness completed and every call was answered so |
| BridgeFailures.RefusalCrosses | harnesswire/harnesswire.go:301-386 | The same for an operation that the serving process refuses by itself, which is never sent: the run fails whatever the harness makes of the refusal |
| Bridge.PlainRunIsAlone | harnesswire/harnesswire.go:52-562 | When everything that crosses is plain, the bridged run is the run of the harness beside its sink, unchanged |
| Bridge.RemoteIsAHarness | harnesswire/harnesswire.go:424-562 | To the host's sink a remote harness is one deterministic harness in process, so the results on runs apply to it |

## Left out

- Journals without execution identities (`controller/legacy.go`) and the two projections of them.
- Cancellation, deadlines and timeouts; timestamps and other opaque record fields; fresh identities are assumed fresh.
- Concurrency inside one sink, which the source serialises with a lock: each operation is one step.
- An append fails only because the fence was lost; a hash or encoding failure inside a run is not modelled there, only on the logs.
- The text of errors, which a harness cannot act on here, and the description in ERROR records.
- Streaming deltas, observers, metrics, logging, and the call counters that only feed them.
- Tool definitions and tool choice in model requests; they enter only through the input hash, which is any function of the request.
- Loss of precision when a stored integer exceeds the exact range of a float, and sharing of payloads in events that carry several bodies.
- The harness's description and its identity and version checks before a turn, the routing of sessions to harnesses, registry rows, name rules and paging.
- SQLite: transactions are atomic steps on values; pragmas, constraints, driver errors and schema migration other than the backfill of the projection are not modelled.
- Separate registries or hosts sharing one database; the checkpoint results are about one session set.
- The clone of each child's compute, its rollback, and the snapshot reference a suspended session resumes from.
- Runs that never return: every run has a budget of operations, and the results that need a return say so.
- Checkpoint.CheckpointIsSafe: assumes that no repair without a cursor mints in the window, because such a repair mints outside the mark; `Checkpoint.SuspendCommitsIff` says that this is exact for the SUSPEND, and `Checkpoint.OnlyRepairsIntrude` what holds without it. The session guard is not used in these results, so more interleavings are covered than can happen.
- Recovery.ReplayRepeatsRun: takes a journal whose events come back as they were written. Through storage an integer in structured content, a part with two fields, or a decision inside a result comes back changed, so a served answer can differ from the live one; `Storage.StoredIsWritten` says exactly when none does, and `Storage.StoredJourneyReplays` when a replay of what comes back succeeds.
- Journeys.JourneyReplays: gives the direction from repeatable turns to a successful replay; a replay can also succeed over a turn that was not repeatable, when the harness happens to make the same operations on other answers. The condition that is exact, on the records themselves, is that of `Controller.ReplaySucceedsIff`.
- Continuation.JourneyNeverDiverges: gives one direction for the same reason.
- Journeys.PartialInputsForever: assumes that no later Exec takes the same identity; identities are random in the source.
- Controller.Controller.Exec: the caller's check that nobody wrote since it read the head is taken to have passed; a failing one is a lost fence.
- Controller.ReplayReturnsTexts: for journals whose OUTPUT records carry a message; one without a message adds no text to a served completion and an empty one to a served output.
- EventLog.ForkLog: the child is empty, as the source's callers have it; a fork that fails part-way leaves the copied prefix, which is stated, but no marker.
- Controller.OutcomeReports: when the sink was stopped by a park and the harness returned an error of its own, the source returns that error in place of the park; the model reports the park. What is recorded is the same.
- BridgeFailures.FailureCrosses: does not cover a host's sink that answers an ordinary call under another call's identity, which none of the three sinks does; `BridgeFailures.PeerCannotMislead` says what the serving process makes of that.
- Bridge.BridgeIsTransparent: its two ends are step functions on values, not objects; frames of a foreign execution or session, a harness that ignores a closed stream, and transport errors are not modelled.
