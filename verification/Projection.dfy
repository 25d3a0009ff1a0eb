/** The incremental approval projection of the SQLite store (sqlitelog/approval_projection.go) and the
query that reads it (sqlitelog/sessions.go).

One row per execution and one per call are updated with each appended event; a listing then reports
a pending approval without reading the journal. The batch scan of the journal is the specification. */
module Projection {
  import opened Api
  import opened Approval
  import opened ApprovalScan

  /** One row of the executions table. Zero sequence numbers and the empty call mean "none". */
  datatype Row = Row(
    firstSeq: int,
    gated: bool,
    invalid: bool,
    hasStart: bool,
    expectedInputs: Option<int>,
    inputs: nat,
    messages: nat,
    completed: bool,
    callId: string,
    callSeq: int,
    requestSeq: int,
    decisionSeq: int,
    approved: bool,
    receipt: bool)

  const NO_ROW := Row(0, false, false, false, None, 0, 0, false, "", 0, 0, 0, false, false)

  predicate InvalidApproval(row: Row, id: string)
  {
    row.gated &&
    (row.invalid || id == "" ||
     (row.hasStart && (row.expectedInputs.None? || row.expectedInputs.value < 0 || row.inputs != row.messages ||
                       row.inputs != row.expectedInputs.value)))
  }

  function SeqOf(e: Option<Entry>): int
  {
    if e.Some? then e.value.num else 0
  }

  predicate Numbered(e: Option<Entry>)
  {
    e.Some? ==> e.value.num > 0
  }

  /** The row holds the last gated call of the execution and the records that answer it. */
  ghost predicate ShowsGate(row: Row, gates: seq<Gate>)
  {
    if gates == [] then
      row.callId == "" && row.callSeq == 0 && row.requestSeq == 0 && row.decisionSeq == 0 && !row.receipt
    else
      var g := gates[|gates| - 1];
      && g.call.id != "" && row.callId == g.call.id && row.callSeq == g.num
      && Numbered(g.request) && Numbered(g.decision) && (g.decision.Some? ==> HasDecision(g))
      && (g.receipt.Some? ==> g.decision.Some?) && (g.decision.Some? ==> g.request.Some?)
      && row.requestSeq == SeqOf(g.request) && row.decisionSeq == SeqOf(g.decision)
      && (g.decision.Some? ==> row.approved == g.decision.value.event.body.decision.approved)
      && row.receipt == g.receipt.Some?
  }

  ghost predicate ShowsExecution(row: Row, known: map<string, bool>, x: Execution)
  {
    && row.hasStart == x.start.Some?
    && row.expectedInputs == (if x.start.Some? then x.start.value.inputCount else None)
    && row.inputs == x.inputRecords && row.messages == |x.inputs|
    && row.completed == x.completed
    && known == x.calls
    && ShowsGate(row, x.gates)
    && (x.gates != [] ==> !row.completed || row.receipt)
  }

  /** A row abstracts the scan of its execution; once the scan fails it only remembers that. */
  ghost predicate Shows(row: Row, known: map<string, bool>, es: seq<Entry>)
  {
    && row.gated == HasGate(es)
    && row.invalid == Fold(es).Err?
    && (Fold(es).Ok? ==> ShowsExecution(row, known, Fold(es).value))
    && (es != [] ==> row.firstSeq == es[0].num)
  }

  lemma {:induction false} FoldSnoc(es: seq<Entry>, e: Entry)
    ensures Fold(es + [e]) == if Fold(es).Ok? then Step(Fold(es).value, es == [], e) else Fold(es)
    ensures HasGate(es + [e]) == (HasGate(es) || IsGateEvidence(e.event))
  {
    assert (es + [e])[..|es|] == es;
  }

  /** The row and the calls after an event, against the scan of the event. */
  ghost predicate Reduced(r: Row, known: map<string, bool>, row: Row, y: Result<Execution, ScanError>)
  {
    && r.gated == row.gated && r.firstSeq == row.firstSeq
    && r.invalid == y.Err?
    && (y.Ok? ==> ShowsExecution(r, known, y.value))
  }

  predicate Open(row: Row)
  {
    row.callId != "" && !row.receipt
  }

  method ReduceStart(row: Row, calls: map<string, bool>, seqNo: int, ev: Event, ghost x: Execution, ghost first: bool) returns (r: Row)
    ensures seqNo > 0 && !row.invalid && ShowsExecution(row, calls, x) && (first <==> row.firstSeq == seqNo) ==>
      Reduced(r, calls, row, StepStart(x, first, Entry(seqNo, ev)))
  {
    hide ShowsGate;
    r := row;
    if seqNo != row.firstSeq || !ev.body.BStart? {
      r := r.(invalid := true);
    } else {
      r := r.(hasStart := true, expectedInputs := ev.body.start.inputCount);
      assert ShowsGate(row, x.gates) ==> ShowsGate(r, x.gates) by { SameGate(row, r, x.gates); }
    }
  }

  lemma {:induction false} SameGate(row: Row, r: Row, gates: seq<Gate>)
    requires r.callId == row.callId && r.callSeq == row.callSeq && r.requestSeq == row.requestSeq
    requires r.decisionSeq == row.decisionSeq && r.approved == row.approved && r.receipt == row.receipt
    ensures ShowsGate(row, gates) <==> ShowsGate(r, gates)
  {
  }

  method ReduceInput(row: Row, calls: map<string, bool>, seqNo: int, ev: Event, ghost x: Execution) returns (r: Row)
    ensures seqNo > 0 && !row.invalid && ShowsExecution(row, calls, x) ==>
      Reduced(r, calls, row, StepInput(x, Entry(seqNo, ev)))
  {
    r := row;
    if Open(row) {
      r := r.(invalid := true);
    } else {
      r := r.(inputs := r.inputs + 1);
      if ev.body.BMessage? {
        r := r.(messages := r.messages + 1);
      }
    }
  }

  method ReduceCall(row: Row, calls: map<string, bool>, seqNo: int, ev: Event, ghost x: Execution)
    returns (r: Row, known: map<string, bool>)
    ensures seqNo > 0 && !row.invalid && ShowsExecution(row, calls, x) ==>
      Reduced(r, known, row, StepCall(x, Entry(seqNo, ev)))
  {
    r, known := row, calls;
    if Open(row) || !ev.body.BToolCall? {
      r := r.(invalid := true);
      return;
    }
    var call := ev.body.toolCall;
    var gated := call.mediation.RequiresApproval?;
    if call.id in calls && (calls[call.id] || gated) {
      r := r.(invalid := true);
      return;
    }
    if call.id !in known {
      known := known[call.id := gated];
    }
    assert calls == x.calls ==> known == x.calls[call.id := gated];
    if !gated {
      return;
    }
    if r.completed || call.id == "" || call.key == "" {
      r := r.(invalid := true);
      return;
    }
    r := r.(callId := call.id, callSeq := seqNo, requestSeq := 0, decisionSeq := 0, receipt := false, approved := false);
  }

  method ReduceRequest(row: Row, calls: map<string, bool>, seqNo: int, ev: Event, ghost x: Execution) returns (r: Row)
    ensures seqNo > 0 && !row.invalid && ShowsExecution(row, calls, x) ==>
      Reduced(r, calls, row, StepRequest(x, Entry(seqNo, ev)))
  {
    r := row;
    if !ev.body.BApproval? || !Open(row) || r.requestSeq != 0 || ev.body.request.toolCallId != r.callId {
      r := r.(invalid := true);
    } else {
      r := r.(requestSeq := seqNo);
    }
  }

  method ReduceDecision(row: Row, calls: map<string, bool>, seqNo: int, ev: Event, ghost x: Execution) returns (r: Row)
    ensures seqNo > 0 && !row.invalid && ShowsExecution(row, calls, x) ==>
      Reduced(r, calls, row, StepDecision(x, Entry(seqNo, ev)))
  {
    r := row;
    if !ev.body.BApprovalResult? || !Open(row) || r.requestSeq == 0 || r.decisionSeq != 0 {
      r := r.(invalid := true);
    } else {
      var decision := ev.body.decision;
      if decision.toolCallId != r.callId || decision.requestSeq != r.requestSeq {
        r := r.(invalid := true);
      } else {
        r := r.(decisionSeq := seqNo, approved := decision.approved);
      }
    }
  }

  /** The gate a row with an open gate shows. */
  lemma {:induction false} OpenShows(row: Row, x: Execution)
    requires ShowsGate(row, x.gates)
    ensures Open(row) == IsOpen(x)
    ensures Open(row) ==> var g := LastGate(x);
      && row.callId == g.call.id && (row.requestSeq == 0 <==> g.request.None?) && (row.decisionSeq == 0 <==> g.decision.None?)
      && (g.request.Some? ==> row.requestSeq == g.request.value.num)
      && (g.decision.Some? ==>
            HasDecision(g) && row.decisionSeq == g.decision.value.num && row.approved == g.decision.value.event.body.decision.approved)
  {
  }

  /** The result names the gate the row shows, its request and its decision, and its status fits. */
  predicate Answers(row: Row, result: ToolResult)
  {
    && result.id == row.callId && result.requestSeq == row.requestSeq && result.decisionSeq == row.decisionSeq
    && ReceiptFits(ApprovalResult("", row.approved, "", 0), result)
  }

  /** A result while a gate is open. */
  lemma {:induction false} OpenResult(row: Row, calls: map<string, bool>, seqNo: int, ev: Event, x: Execution)
    requires seqNo > 0 && !row.invalid && ShowsExecution(row, calls, x) && Open(row)
    ensures var y := StepResult(x, Entry(seqNo, ev));
      if ev.body.BResult? && row.requestSeq != 0 && row.decisionSeq != 0 && Answers(row, ev.body.result)
      then Reduced(row.(receipt := true), calls, row, y) else y.Err?
  {
    OpenShows(row, x);
    hide Open, IsOpen;
  }

  /** A result while no gate is open. */
  lemma {:induction false} OtherResult(row: Row, calls: map<string, bool>, seqNo: int, ev: Event, x: Execution)
    requires seqNo > 0 && !row.invalid && ShowsExecution(row, calls, x) && !Open(row)
    ensures StepResult(x, Entry(seqNo, ev)) ==
      if ev.body.BResult? && (Gated(calls, ev.body.result.id) || BindsSeqs(ev.body.result)) then Err(InvalidLog) else Ok(x)
  {
    OpenShows(row, x);
    hide Open, IsOpen;
  }

  method ReduceResult(row: Row, calls: map<string, bool>, seqNo: int, ev: Event, ghost x: Execution) returns (r: Row)
    ensures seqNo > 0 && !row.invalid && ShowsExecution(row, calls, x) ==>
      Reduced(r, calls, row, StepResult(x, Entry(seqNo, ev)))
  {
    hide ShowsExecution, StepResult, Open;
    r := row;
    if seqNo > 0 && !row.invalid && ShowsExecution(row, calls, x) {
      if Open(row) { OpenResult(row, calls, seqNo, ev, x); } else { OtherResult(row, calls, seqNo, ev, x); }
    }
    if Open(row) {
      if !ev.body.BResult? || r.requestSeq == 0 || r.decisionSeq == 0 {
        r := r.(invalid := true);
        return;
      }
      var result := ev.body.result;
      var valid := result.isError && result.code == CODE_APPROVAL_DENIED;
      if r.approved {
        valid := (!result.isError && result.code == CODE_UNSPECIFIED) || (result.isError && result.code == CODE_EXECUTOR_ERROR);
      }
      if result.id != r.callId || result.requestSeq != r.requestSeq || result.decisionSeq != r.decisionSeq || !valid {
        r := r.(invalid := true);
        return;
      }
      r := r.(receipt := true);
    } else if ev.body.BResult? {
      var result := ev.body.result;
      var gated := result.id in calls && calls[result.id];
      if gated || result.requestSeq != 0 || result.decisionSeq != 0 {
        r := r.(invalid := true);
      }
    }
  }

  /** Advances the row of an execution, and its calls, by one event, as a scan would advance. */
  method Reduce(row: Row, calls: map<string, bool>, seqNo: int, ev: Event, ghost x: Execution, ghost first: bool)
    returns (r: Row, known: map<string, bool>)
    ensures seqNo > 0 && !row.invalid && ShowsExecution(row, calls, x) && (first <==> row.firstSeq == seqNo) ==>
      Reduced(r, known, row, Step(x, first, Entry(seqNo, ev)))
  {
    hide StepStart, StepInput, StepCall, StepRequest, StepDecision, StepResult;
    r, known := row, calls;
    match ev.kind {
      case KExecutionStart =>
        r := ReduceStart(row, calls, seqNo, ev, x, first);
      case KInput =>
        r := ReduceInput(row, calls, seqNo, ev, x);
      case KToolCall =>
        r, known := ReduceCall(row, calls, seqNo, ev, x);
      case KApprovalRequest =>
        r := ReduceRequest(row, calls, seqNo, ev, x);
      case KApprovalResult =>
        r := ReduceDecision(row, calls, seqNo, ev, x);
      case KToolResult =>
        r := ReduceResult(row, calls, seqNo, ev, x);
      case KEnd =>
        if Open(row) {
          r := r.(invalid := true);
        }
        r := r.(completed := true);
      case KError =>
      case _ =>
        if Open(row) {
          r := r.(invalid := true);
        }
    }
  }

  // ---- the tables and the columns of one session ----

  /** The scan rejects these records of an execution. */
  predicate Rejected(id: string, own: seq<Entry>)
  {
    HasGate(own) && (id == "" || Fold(own).Err? || ValidateInputs(Fold(own).value).Some?)
  }

  ghost function RejectedSet(es: seq<Entry>): set<string>
  {
    set id | id in Executions(es) && Rejected(id, EntriesOf(es, id))
  }

  lemma {:induction false} RowsAgree(row: Row, known: map<string, bool>, id: string, own: seq<Entry>)
    requires Shows(row, known, own)
    ensures InvalidApproval(row, id) == Rejected(id, own)
  {
    hide HasGate, Fold;
  }

  lemma {:induction false} SeenExecution(es: seq<Entry>, id: string)
    ensures id in Executions(es) <==> EntriesOf(es, id) != []
  {
    if es != [] { SeenExecution(es[..|es| - 1], id); }
  }

  lemma {:induction false} FirstOf(es: seq<Entry>, id: string)
    requires Contiguous(es)
    ensures forall e | e in EntriesOf(es, id) :: 0 < e.num <= |es|
  {
    if es != [] { FirstOf(es[..|es| - 1], id); }
  }

  /** Only the execution of the appended event can change sides. */
  lemma {:induction false} RejectedSnoc(es: seq<Entry>, e: Entry)
    ensures RejectedSet(es + [e]) ==
      if e.event.kind.KLifecycle? then RejectedSet(es)
      else if Rejected(e.event.executionId, EntriesOf(es, e.event.executionId) + [e])
      then RejectedSet(es) + {e.event.executionId} else RejectedSet(es) - {e.event.executionId}
  {
    hide Rejected, EntriesOf, Executions;
    ScanNext(es, e);
    forall id
      ensures EntriesOf(es + [e], id) == if Of(e, id) then EntriesOf(es, id) + [e] else EntriesOf(es, id)
    {
      EntriesNext(es, e, id);
    }
  }

  function CallsOf(calls: map<string, map<string, bool>>, id: string): map<string, bool>
  {
    if id in calls then calls[id] else map[]
  }

  /** The reporting columns of a session and the rows of its executions. */
  datatype Columns = Columns(
    lastSeq: int,
    latest: string,
    forkSeq: int,
    corrupt: bool,
    invalidExecutions: int,
    rows: map<string, Row>,
    calls: map<string, map<string, bool>>)
  {
    /** The columns agree with a scan of these records. */
    ghost predicate Mirrors(es: seq<Entry>)
    {
      && lastSeq == |es| && !corrupt
      && forkSeq == ForkSeq(es)
      && latest == (if Executions(es) == [] then "" else Executions(es)[|Executions(es)| - 1])
      && RowsShow(rows, calls, es)
      && invalidExecutions == |RejectedSet(es)|
    }
  }

  lemma {:induction false} MirrorsIsCurrent(c: Columns, es: seq<Entry>)
    requires c.Mirrors(es)
    ensures c.lastSeq == |es| && !c.corrupt
  {
  }

  lemma {:induction false} LifecycleMirrors(c: Columns, es: seq<Entry>, e: Entry)
    requires c.Mirrors(es) && e.event.kind.KLifecycle? && e.num == |es| + 1
    ensures c.(lastSeq := e.num, forkSeq := if IsFork(e.event) then e.num else c.forkSeq).Mirrors(es + [e])
  {
    hide Shows, EntriesOf, Executions, RejectedSet;
    ScanNext(es, e);
    RejectedSnoc(es, e);
    forall id
      ensures EntriesOf(es + [e], id) == EntriesOf(es, id)
    {
      EntriesNext(es, e, id);
    }
  }

  /** The row an event is reduced into: the one of its execution, or a fresh one. */
  function RowFor(c: Columns, id: string, seqNo: int): Row
  {
    if id in c.rows then c.rows[id] else NO_ROW.(firstSeq := seqNo)
  }

  /** The counter moves by the execution of the event. */
  lemma {:induction false} CountMoves(c: Columns, es: seq<Entry>, e: Entry, row: Row, known: map<string, bool>)
    requires c.Mirrors(es) && !e.event.kind.KLifecycle?
    requires Shows(row, known, EntriesOf(es, e.event.executionId) + [e])
    ensures var id := e.event.executionId;
      var was, now := InvalidApproval(RowFor(c, id, e.num), id), InvalidApproval(row, id);
      |RejectedSet(es + [e])| == c.invalidExecutions + if was == now then 0 else if now then 1 else -1
  {
    hide Shows, EntriesOf, Executions, RejectedSet, InvalidApproval, Rejected;
    var id := e.event.executionId;
    RejectedSnoc(es, e);
    RowsAgree(row, known, id, EntriesOf(es, id) + [e]);
    RejectedBefore(c, es, id, e.num);
  }

  /** Each row shows the records of its execution. */
  ghost predicate RowsShow(rows: map<string, Row>, calls: map<string, map<string, bool>>, es: seq<Entry>)
  {
    && (forall id :: id in rows <==> id in Executions(es))
    && (forall id | id in rows :: Shows(rows[id], CallsOf(calls, id), EntriesOf(es, id)))
    && (forall id | id !in rows :: CallsOf(calls, id) == map[])
  }

  lemma {:induction false} RowsNext(rows: map<string, Row>, calls: map<string, map<string, bool>>, es: seq<Entry>, e: Entry, row: Row, known: map<string, bool>)
    requires RowsShow(rows, calls, es) && !e.event.kind.KLifecycle?
    requires Shows(row, known, EntriesOf(es, e.event.executionId) + [e])
    ensures RowsShow(rows[e.event.executionId := row], calls[e.event.executionId := known], es + [e])
  {
    hide Shows, EntriesOf, Executions;
    var id := e.event.executionId;
    var rows', calls' := rows[id := row], calls[id := known];
    ScanNext(es, e);
    forall k | k in rows'
      ensures Shows(rows'[k], CallsOf(calls', k), EntriesOf(es + [e], k))
    {
      EntriesNext(es, e, k);
    }
  }

  /** What taking one event into its row leaves, when the row is what the scan says. */
  lemma {:induction false} EventMirrors(c: Columns, es: seq<Entry>, e: Entry, row: Row, known: map<string, bool>, count: int)
    requires c.Mirrors(es) && !e.event.kind.KLifecycle? && e.num == |es| + 1
    requires Shows(row, known, EntriesOf(es, e.event.executionId) + [e])
    requires var id := e.event.executionId;
      var was, now := InvalidApproval(RowFor(c, id, e.num), id), InvalidApproval(row, id);
      count == c.invalidExecutions + if was == now then 0 else if now then 1 else -1
    ensures var id := e.event.executionId;
      c.(lastSeq := e.num, latest := if id in c.rows then c.latest else id, invalidExecutions := count,
         rows := c.rows[id := row], calls := c.calls[id := known]).Mirrors(es + [e])
  {
    hide Shows, EntriesOf, Executions, RejectedSet, InvalidApproval, Rejected, RowsShow;
    ScanNext(es, e);
    CountMoves(c, es, e, row, known);
    RowsNext(c.rows, c.calls, es, e, row, known);
    assert e.event.executionId in c.rows <==> e.event.executionId in Executions(es) by { InRows(c, es, e.event.executionId); }
  }

  lemma {:induction false} InRows(c: Columns, es: seq<Entry>, id: string)
    requires RowsShow(c.rows, c.calls, es)
    ensures id in c.rows <==> id in Executions(es)
  {
  }

  lemma {:induction false} RejectedBefore(c: Columns, es: seq<Entry>, id: string, seqNo: int)
    requires c.Mirrors(es)
    ensures InvalidApproval(RowFor(c, id, seqNo), id) <==> id in RejectedSet(es)
  {
    if id in c.rows {
      RowsAgree(c.rows[id], CallsOf(c.calls, id), id, EntriesOf(es, id));
    }
  }

  /** The state an event is reduced in. */
  lemma {:induction false} RowShows(c: Columns, es: seq<Entry>, id: string, seqNo: int)
    requires c.Mirrors(es) && Contiguous(es) && seqNo == |es| + 1
    ensures Shows(RowFor(c, id, seqNo), CallsOf(c.calls, id), EntriesOf(es, id))
    ensures RowFor(c, id, seqNo).firstSeq == seqNo <==> EntriesOf(es, id) == []
  {
    SeenExecution(es, id);
    FirstOf(es, id);
  }

  /** Marking a row as gated does not touch what it shows of the execution. */
  lemma {:induction false} ShowsMarked(row: Row, calls: map<string, bool>, own: seq<Entry>, gated: bool)
    requires Shows(row, calls, own) && !row.invalid
    ensures Fold(own).Ok? && ShowsExecution(row.(gated := gated), calls, Fold(own).value)
  {
    hide Fold, HasGate;
  }

  /** The row after an event is what the scan of the event says. */
  lemma {:induction false} ShowsNext(was: Row, calls: map<string, bool>, own: seq<Entry>, e: Entry, row: Row, known: map<string, bool>)
    requires Shows(was, calls, own) && (own == [] ==> was.firstSeq == e.num)
    requires var marked := was.(gated := was.gated || IsGateEvidence(e.event));
      if was.invalid then row == marked && known == calls
      else Reduced(row, known, marked, Step(Fold(own).value, own == [], e))
    ensures Shows(row, known, own + [e])
  {
    hide Fold, HasGate, Step, ShowsExecution;
    FoldSnoc(own, e);
  }

  // ---- the query ----

  /** What a listing reports as pending, given the last sequence number of the journal. */
  function Report(c: Columns, head: int): Option<ApprovalRef>
  {
    if c.latest !in c.rows then None
    else
      var a := c.rows[c.latest];
      if && c.lastSeq == head && !c.corrupt && c.invalidExecutions == 0 && c.latest != ""
         && a.callSeq > c.forkSeq && !a.invalid && !a.completed && !a.receipt && a.requestSeq > 0 && a.decisionSeq == 0
         && (!a.hasStart || (a.expectedInputs.Some? && a.expectedInputs.value >= 0 && a.inputs == a.messages &&
                             a.inputs == a.expectedInputs.value))
      then Some(ApprovalRef(c.latest, a.callId, a.requestSeq))
      else None
  }

  /** The approval a scan of the journal finds pending: its last gated call, owned by this session and
  requested, that nothing has answered. */
  function Pending(es: seq<Entry>): Option<ApprovalRef>
  {
    match ScanOf(es)
    case Err(_) => None
    case Ok(scan) =>
      if scan.selected.None? then None
      else
        var g := scan.selected.value.gate;
        if scan.selected.value.inherited || g.request.None? || g.decision.Some? || g.receipt.Some? then None
        else Some(ApprovalRef(scan.selected.value.executionId, g.call.id, g.request.value.num))
  }

  /** The scan succeeds iff it rejects none of the executions. */
  lemma {:induction false} StatesIffNoneRejected(es: seq<Entry>, ids: seq<string>)
    ensures StatesOf(es, ids).Ok? <==> forall id | id in ids :: !Rejected(id, EntriesOf(es, id))
  {
    hide HasGate, EntriesOf, Inspect, Rejected;
    if ids != [] {
      var init, id := ids[..|ids| - 1], ids[|ids| - 1];
      StatesIffNoneRejected(es, init);
      InspectRejects(id, EntriesOf(es, id), Head(es), ForkSeq(es));
      assert ids == init + [id];
      if StatesOf(es, init).Err? {
        var k :| k in init && Rejected(k, EntriesOf(es, k));
        assert k in ids && Rejected(k, EntriesOf(es, k));
      } else {
        assert StatesOf(es, ids).Ok? <==> !Rejected(id, EntriesOf(es, id));
        assert forall k | k in ids :: k in init || k == id;
        assert id in ids;
      }
    }
  }

  lemma {:induction false} InspectRejects(id: string, own: seq<Entry>, head: int, fork: int)
    ensures Rejected(id, own) <==> HasGate(own) && Inspect(id, own, head, fork).Err?
  {
    hide HasGate, Fold, ValidateInputs;
  }

  /** A gate was opened by the record of its call. */
  predicate Opens(e: Entry, g: Gate)
  {
    e.num == g.num && IsGatedCall(e.event) && e.event.body.toolCall == g.call
  }

  lemma {:induction false} GatesFrom(own: seq<Entry>)
    requires Fold(own).Ok?
    ensures forall g | g in Fold(own).value.gates :: exists e :: e in own && Opens(e, g)
  {
    if own != [] {
      var init := own[..|own| - 1];
      GatesFrom(init);
      var x, y := Fold(init).value, Fold(own).value;
      forall g | g in y.gates
        ensures exists e :: e in own && Opens(e, g)
      {
        GateOrigin(x, |own| == 1, own[|own| - 1], y, g);
        if Opens(own[|own| - 1], g) {
          assert own[|own| - 1] in own;
        } else {
          var g' :| g' in x.gates && g'.num == g.num && g'.call == g.call;
          var e :| e in init && Opens(e, g');
          assert e in own && Opens(e, g);
        }
      }
    }
  }

  lemma {:induction false} GateOrigin(x: Execution, first: bool, e: Entry, y: Execution, g: Gate)
    requires Step(x, first, e) == Ok(y) && g in y.gates
    ensures Opens(e, g) || exists g' :: g' in x.gates && g'.num == g.num && g'.call == g.call
  {
    hide Step;
    StepGates(x, first, e, y);
    var k :| 0 <= k < |y.gates| && y.gates[k] == g;
    if k < |x.gates| { assert x.gates[k] in x.gates && y.gates[k].num == x.gates[k].num && y.gates[k].call == x.gates[k].call; }
  }

  lemma {:induction false} OwnEntries(es: seq<Entry>, id: string)
    requires Contiguous(es)
    ensures forall e | e in EntriesOf(es, id) :: 0 < e.num <= |es| && es[e.num - 1] == e && !e.event.kind.KLifecycle?
  {
    if es != [] { OwnEntries(es[..|es| - 1], id); }
  }

  lemma {:induction false} ForkIsLifecycle(es: seq<Entry>)
    requires Contiguous(es)
    ensures ForkSeq(es) == 0 || (0 < ForkSeq(es) <= |es| && es[ForkSeq(es) - 1].event.kind.KLifecycle?)
  {
    if es != [] { ForkIsLifecycle(es[..|es| - 1]); }
  }

  /** A gate is owned exactly when it comes after the last fork. */
  lemma {:induction false} OwnedAfterFork(es: seq<Entry>, id: string, g: Gate)
    requires Contiguous(es) && Fold(EntriesOf(es, id)).Ok? && g in Fold(EntriesOf(es, id)).value.gates
    ensures g.num < ForkSeq(es) <==> !(g.num > ForkSeq(es))
    ensures g.num > 0
  {
    hide Fold, EntriesOf, ForkSeq;
    GatesFrom(EntriesOf(es, id));
    OwnEntries(es, id);
    ForkIsLifecycle(es);
  }

  lemma {:induction false} NoneRejected(c: Columns, es: seq<Entry>)
    requires c.Mirrors(es)
    ensures ScanOf(es).Ok? <==> c.invalidExecutions == 0
  {
    hide Rejected, Executions, EntriesOf, RowsShow, Inspect;
    StatesIffNoneRejected(es, Executions(es));
    assert c.invalidExecutions == 0 <==> RejectedSet(es) == {};
    forall id | id in Executions(es) && Rejected(id, EntriesOf(es, id))
      ensures id in RejectedSet(es)
    {
    }
  }

  /** The execution a listing looks at is the one the scan selects from. */
  lemma {:induction false} LatestRow(c: Columns, es: seq<Entry>)
    requires c.Mirrors(es) && Executions(es) != []
    ensures c.latest in c.rows && c.latest == Executions(es)[|Executions(es)| - 1]
    ensures Shows(c.rows[c.latest], CallsOf(c.calls, c.latest), EntriesOf(es, c.latest))
    ensures c.invalidExecutions == 0 ==> !Rejected(c.latest, EntriesOf(es, c.latest))
  {
    hide Rejected, Shows, EntriesOf, Executions;
    if c.invalidExecutions == 0 { assert RejectedSet(es) == {}; }
    if Rejected(c.latest, EntriesOf(es, c.latest)) { assert c.latest in RejectedSet(es); }
  }

  /** A row shows a gate only when its execution bears approvals. */
  lemma {:induction false} GatesMeanGated(own: seq<Entry>)
    requires Fold(own).Ok? && !HasGate(own)
    ensures Fold(own).value.gates == []
  {
    if own != [] { GatesMeanGated(own[..|own| - 1]); }
  }

  lemma {:induction false} RowReports(es: seq<Entry>, id: string, row: Row, known: map<string, bool>)
    requires Contiguous(es) && Shows(row, known, EntriesOf(es, id)) && !Rejected(id, EntriesOf(es, id)) && id != ""
    ensures var own := EntriesOf(es, id);
      (row.callSeq > ForkSeq(es) && !row.invalid && !row.completed && !row.receipt && row.requestSeq > 0 && row.decisionSeq == 0 &&
       (!row.hasStart || (row.expectedInputs.Some? && row.expectedInputs.value >= 0 && row.inputs == row.messages &&
                          row.inputs == row.expectedInputs.value)))
      <==>
      (HasGate(own) && Fold(own).Ok? && Fold(own).value.gates != [] &&
       var g := LastGate(Fold(own).value); g.num >= ForkSeq(es) && g.request.Some? && g.decision.None? && g.receipt.None?)
    ensures Fold(EntriesOf(es, id)).Ok? && Fold(EntriesOf(es, id)).value.gates != [] ==>
      row.callId == LastGate(Fold(EntriesOf(es, id)).value).call.id &&
      row.requestSeq == SeqOf(LastGate(Fold(EntriesOf(es, id)).value).request)
  {
    hide Fold, HasGate, EntriesOf, ForkSeq;
    var own := EntriesOf(es, id);
    if Fold(own).Ok? && Fold(own).value.gates != [] {
      OwnedAfterFork(es, id, LastGate(Fold(own).value));
      if !HasGate(own) { GatesMeanGated(own); }
    }
  }

  /** What the scan of the latest execution makes pending. */
  lemma {:induction false} SelectedPending(es: seq<Entry>)
    requires ScanOf(es).Ok? && Executions(es) != []
    ensures var id := Executions(es)[|Executions(es)| - 1];
      var own := EntriesOf(es, id);
      Pending(es) ==
      if HasGate(own) && id != "" && Fold(own).Ok? && ValidateInputs(Fold(own).value).None? && Fold(own).value.gates != [] &&
         (var g := LastGate(Fold(own).value); g.num >= ForkSeq(es) && g.request.Some? && g.decision.None? && g.receipt.None?)
      then Some(ApprovalRef(id, LastGate(Fold(own).value).call.id, LastGate(Fold(own).value).request.value.num))
      else None
  {
    hide Fold, HasGate, EntriesOf, ForkSeq, Executions, StatesOf, ValidateInputs;
  }

  /** Whatever the journal holds, valid or not, the listing reports exactly what a scan finds pending. */
  lemma {:induction false} ReportIsScan(c: Columns, es: seq<Entry>)
    requires c.Mirrors(es) && Contiguous(es)
    ensures Report(c, |es|) == Pending(es)
  {
    hide Fold, HasGate, EntriesOf, ForkSeq, Executions, StatesOf, Shows, Rejected, RowsShow, RejectedSet;
    NoneRejected(c, es);
    if Executions(es) == [] {
      NothingPending(es);
      assert c.latest == "";
    } else {
      LatestRow(c, es);
      var id := c.latest;
      if ScanOf(es).Ok? {
        SelectedPending(es);
        if id != "" {
          RowReports(es, id, c.rows[id], CallsOf(c.calls, id));
          RejectedMeans(id, EntriesOf(es, id));
        }
      }
    }
  }

  lemma {:induction false} RejectedMeans(id: string, own: seq<Entry>)
    requires !Rejected(id, own)
    ensures HasGate(own) ==> id != "" && Fold(own).Ok? && ValidateInputs(Fold(own).value).None?
  {
  }

  lemma {:induction false} NothingPending(es: seq<Entry>)
    requires Executions(es) == []
    ensures Pending(es) == None
  {
  }

  /** Marks a row as approval-bearing and, unless its execution is already invalid, reduces the event into it. */
  method Advance(was: Row, calls: map<string, bool>, seqNo: int, ev: Event, ghost own: seq<Entry>)
    returns (row: Row, known: map<string, bool>)
    ensures seqNo > 0 && Shows(was, calls, own) && (was.firstSeq == seqNo <==> own == []) ==>
      Shows(row, known, own + [Entry(seqNo, ev)])
  {
    hide Shows, ShowsExecution, Fold, HasGate, Reduced, Step;
    row, known := was, calls;
    if ev.kind.KApprovalRequest? || ev.kind.KApprovalResult? || IsGatedCall(ev) ||
       (ev.kind.KToolResult? && ev.body.BResult? && (ev.body.result.requestSeq != 0 || ev.body.result.decisionSeq != 0)) {
      row := row.(gated := true);
    }
    ghost var good := seqNo > 0 && Shows(was, calls, own) && (was.firstSeq == seqNo <==> own == []);
    if !row.invalid {
      if good { ShowsMarked(was, known, own, row.gated); }
      row, known := Reduce(row, known, seqNo, ev, if Fold(own).Ok? then Fold(own).value else FRESH, own == []);
    }
    if good { ShowsNext(was, calls, own, Entry(seqNo, ev), row, known); }
  }

  /** The reporting tables of one session. */
  class Reporting {
    var lastSeq: int
    var latest: string
    var forkSeq: int
    var corrupt: bool
    var invalidExecutions: int
    var rows: map<string, Row>
    var calls: map<string, map<string, bool>>

    constructor ()
      ensures Value().Mirrors([])
    {
      lastSeq, latest, forkSeq, corrupt, invalidExecutions := 0, "", 0, false, 0;
      rows, calls := map[], map[];
      new;
      assert RejectedSet([]) == {};
    }

    function Value(): Columns
      reads this
    {
      Columns(lastSeq, latest, forkSeq, corrupt, invalidExecutions, rows, calls)
    }

    /** What a listing reports as pending, given the last sequence number of the journal. */
    method Query(head: int, ghost es: seq<Entry>) returns (r: Option<ApprovalRef>)
      ensures r == Report(Value(), head)
      ensures Value().Mirrors(es) && Contiguous(es) && head == |es| ==> r == Pending(es)
    {
      if Value().Mirrors(es) && Contiguous(es) && head == |es| { ReportIsScan(Value(), es); }
      r := Report(Value(), head);
    }

    /** Takes an event of an execution into its row. */
    method ProjectEvent(seqNo: int, ev: Event, ghost es: seq<Entry>)
      requires !ev.kind.KLifecycle?
      modifies this`latest, this`invalidExecutions, this`rows, this`calls
      ensures old(Value().Mirrors(es)) && Contiguous(es) && seqNo == |es| + 1 ==>
        Value().(lastSeq := seqNo).Mirrors(es + [Entry(seqNo, ev)])
    {
      hide Shows, RejectedSet, Executions, EntriesOf, InvalidApproval, Columns.Mirrors;
      ghost var c := Value();
      var id := ev.executionId;
      var row := NO_ROW.(firstSeq := seqNo);
      if id in rows {
        row := rows[id];
      } else {
        latest := id;
      }
      ghost var good := c.Mirrors(es) && Contiguous(es) && seqNo == |es| + 1;
      if good { RowShows(c, es, id, seqNo); }
      var wasInvalid := InvalidApproval(row, id);
      var known := if id in calls then calls[id] else map[];
      row, known := Advance(row, known, seqNo, ev, EntriesOf(es, id));
      var nowInvalid := InvalidApproval(row, id);
      if wasInvalid != nowInvalid {
        invalidExecutions := invalidExecutions + if nowInvalid then 1 else -1;
      }
      rows := rows[id := row];
      calls := calls[id := known];
      if good { EventMirrors(c, es, Entry(seqNo, ev), row, known, invalidExecutions); }
    }

    /** Takes one appended event into the tables. They stay what a scan of the journal would say; an
    event that was skipped before this one leaves them corrupt for good. */
    method Project(seqNo: int, ev: Event, ghost es: seq<Entry>)
      modifies this
      ensures lastSeq == seqNo && corrupt == (old(corrupt) || old(lastSeq) != seqNo - 1)
      ensures old(Value().Mirrors(es)) && Contiguous(es) && seqNo == |es| + 1 ==> Value().Mirrors(es + [Entry(seqNo, ev)])
    {
      hide RowsShow, RejectedSet, Columns.Mirrors;
      ghost var c := Value();
      ghost var good := c.Mirrors(es) && Contiguous(es) && seqNo == |es| + 1;
      if good { MirrorsIsCurrent(c, es); }
      if lastSeq != seqNo - 1 {
        corrupt := true;
      }
      if ev.kind.KLifecycle? {
        if ev.body.BLifecycle? && ev.body.lifecycle.kind.Fork? {
          forkSeq := seqNo;
        }
        lastSeq := seqNo;
        if good { LifecycleMirrors(c, es, Entry(seqNo, ev)); }
        return;
      }
      ProjectEvent(seqNo, ev, es);
      lastSeq := seqNo;
    }
  }

  // ---- journals with gaps, and the migration of old ones ----

  function Journal(events: seq<Event>): (es: seq<Entry>)
    ensures |es| == |events|
  {
    seq(|events|, i requires 0 <= i < |events| => Entry(i + 1, events[i]))
  }

  /** The tables of a session some of whose events were appended by a writer that does not project. If none
  was, they mirror the journal; if any was, wherever it stands, a listing reports nothing. */
  method ProjectSome(events: seq<Event>, projected: seq<bool>) returns (t: Reporting)
    requires |projected| == |events|
    ensures fresh(t)
    ensures false !in projected ==> t.Value().Mirrors(Journal(events)) && Report(t.Value(), |events|) == Pending(Journal(events))
    ensures false in projected ==> Report(t.Value(), |events|) == None
  {
    hide Columns.Mirrors, RowsShow, RejectedSet, Pending;
    t := new Reporting();
    assert Journal(events[..0]) == [];
    for i := 0 to |events|
      invariant fresh(t) && 0 <= t.lastSeq <= i
      invariant !t.corrupt && t.lastSeq == i <==> false !in projected[..i]
      invariant false !in projected[..i] ==> t.Value().Mirrors(Journal(events[..i]))
    {
      assert projected[..i + 1] == projected[..i] + [projected[i]];
      assert Journal(events[..i + 1]) == Journal(events[..i]) + [Entry(i + 1, events[i])];
      if projected[i] {
        t.Project(i + 1, events[i], Journal(events[..i]));
      }
    }
    assert projected[..|events|] == projected && events[..|events|] == events;
    if false !in projected { ReportIsScan(t.Value(), Journal(events)); }
  }

  /** The decoded journal, when every stored event decodes. */
  function Decoded(stored: seq<Option<Event>>): seq<Entry>
    requires None !in stored
  {
    seq(|stored|, i requires 0 <= i < |stored| => Entry(i + 1, stored[i].value))
  }

  /** Builds the tables of a session whose journal is older than they are. */
  method Backfill(stored: seq<Option<Event>>) returns (t: Reporting)
    ensures fresh(t)
    ensures None !in stored ==> t.Value().Mirrors(Decoded(stored))
    ensures None in stored ==> t.corrupt
  {
    hide Columns.Mirrors;
    t := new Reporting();
    var cursor := 0;
    assert Decoded(stored[..0]) == [];
    while cursor < |stored|
      invariant cursor <= |stored| && fresh(t)
      invariant None !in stored[..cursor]
      invariant t.Value().Mirrors(Decoded(stored[..cursor]))
    {
      if stored[cursor].None? {
        t.corrupt := true;
        t.lastSeq := |stored|;
        return;
      }
      assert stored[..cursor + 1] == stored[..cursor] + [stored[cursor]];
      t.Project(cursor + 1, stored[cursor].value, Decoded(stored[..cursor]));
      assert Decoded(stored[..cursor + 1]) == Decoded(stored[..cursor]) + [Entry(cursor + 1, stored[cursor].value)];
      cursor := cursor + 1;
    }
    assert stored[..cursor] == stored;
  }
}
