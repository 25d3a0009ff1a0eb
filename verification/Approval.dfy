/** The approval evidence of a journal (controller/approval.go).

A gated tool call goes call, request, decision, receipt. A scan groups a journal by execution and
folds each gated execution into the states of its gated calls; it fails on evidence no writer could
have left. The specification folds from the last record, so that an append is one more step. */
module Approval {
  import opened Api

  datatype ScanError = InvalidLog | Diverged | Incomplete

  /** One gated call of an execution, with the records that answer it so far. */
  datatype Gate = Gate(
    call: ToolCall,
    num: int,
    request: Option<Entry>,
    decision: Option<Entry>,
    receipt: Option<Entry>)

  /** What a scan of one execution has read so far. */
  datatype Execution = Execution(
    start: Option<ExecutionStart>,
    inputRecords: nat,
    inputs: seq<Message>,
    completed: bool,
    calls: map<string, bool>,
    gates: seq<Gate>)

  const FRESH := Execution(None, 0, [], false, map[], [])

  predicate IsOpen(x: Execution)
  {
    x.gates != [] && x.gates[|x.gates| - 1].receipt.None?
  }

  function LastGate(x: Execution): Gate
    requires x.gates != []
  {
    x.gates[|x.gates| - 1]
  }

  function WithLast(x: Execution, g: Gate): Execution
    requires x.gates != []
  {
    x.(gates := x.gates[|x.gates| - 1 := g])
  }

  predicate Gated(calls: map<string, bool>, id: string)
  {
    id in calls && calls[id]
  }

  /** A receipt names a status its decision allows. */
  predicate ReceiptFits(decision: ApprovalResult, result: ToolResult)
  {
    if decision.approved then
      (!result.isError && result.code == CODE_UNSPECIFIED) || (result.isError && result.code == CODE_EXECUTOR_ERROR)
    else
      result.isError && result.code == CODE_APPROVAL_DENIED
  }

  predicate BindsSeqs(result: ToolResult)
  {
    result.requestSeq != 0 || result.decisionSeq != 0
  }

  /** The decision a decided gate carries. */
  predicate HasDecision(g: Gate)
  {
    g.decision.Some? && g.decision.value.event.body.BApprovalResult?
  }

  // ---- one record of one execution ----

  function StepStart(x: Execution, first: bool, e: Entry): Result<Execution, ScanError>
  {
    if !first || !e.event.body.BStart? then Err(InvalidLog)
    else Ok(x.(start := Some(e.event.body.start)))
  }

  function StepInput(x: Execution, e: Entry): Result<Execution, ScanError>
  {
    if IsOpen(x) then Err(InvalidLog)
    else Ok(x.(inputRecords := x.inputRecords + 1,
               inputs := if e.event.body.BMessage? then x.inputs + [e.event.body.message] else x.inputs))
  }

  function StepCall(x: Execution, e: Entry): Result<Execution, ScanError>
  {
    if IsOpen(x) || !e.event.body.BToolCall? then Err(InvalidLog)
    else
      var call := e.event.body.toolCall;
      var gated := call.mediation.RequiresApproval?;
      if call.id in x.calls && (x.calls[call.id] || gated) then Err(InvalidLog)
      else
        var y := x.(calls := x.calls[call.id := gated]);
        if !gated then Ok(y)
        else if x.completed || call.id == "" || call.key == "" then Err(InvalidLog)
        else Ok(y.(gates := x.gates + [Gate(call, e.num, None, None, None)]))
  }

  function StepRequest(x: Execution, e: Entry): Result<Execution, ScanError>
  {
    if !e.event.body.BApproval? || !IsOpen(x) || LastGate(x).request.Some? then Err(InvalidLog)
    else if e.event.body.request.toolCallId != LastGate(x).call.id then Err(Diverged)
    else Ok(WithLast(x, LastGate(x).(request := Some(e))))
  }

  function StepDecision(x: Execution, e: Entry): Result<Execution, ScanError>
  {
    if !e.event.body.BApprovalResult? || !IsOpen(x) || LastGate(x).request.None? || LastGate(x).decision.Some?
    then Err(InvalidLog)
    else
      var d := e.event.body.decision;
      if d.toolCallId != LastGate(x).call.id || d.requestSeq != LastGate(x).request.value.num then Err(Diverged)
      else Ok(WithLast(x, LastGate(x).(decision := Some(e))))
  }

  function StepResult(x: Execution, e: Entry): Result<Execution, ScanError>
  {
    if IsOpen(x) then
      var g := LastGate(x);
      if !e.event.body.BResult? || g.request.None? || !HasDecision(g) then Err(InvalidLog)
      else
        var r := e.event.body.result;
        if r.id != g.call.id || r.requestSeq != g.request.value.num || r.decisionSeq != g.decision.value.num ||
           !ReceiptFits(g.decision.value.event.body.decision, r)
        then Err(Diverged)
        else Ok(WithLast(x, g.(receipt := Some(e))))
    else if e.event.body.BResult? &&
            (Gated(x.calls, e.event.body.result.id) || BindsSeqs(e.event.body.result))
    then Err(InvalidLog)
    else Ok(x)
  }

  function Step(x: Execution, first: bool, e: Entry): Result<Execution, ScanError>
  {
    match e.event.kind
    case KExecutionStart => StepStart(x, first, e)
    case KInput => StepInput(x, e)
    case KToolCall => StepCall(x, e)
    case KApprovalRequest => StepRequest(x, e)
    case KApprovalResult => StepDecision(x, e)
    case KToolResult => StepResult(x, e)
    case KEnd => if IsOpen(x) then Err(InvalidLog) else Ok(x.(completed := true))
    case KError => Ok(x)
    case _ => if IsOpen(x) then Err(InvalidLog) else Ok(x)
  }

  /** The gate took the record as its request, its decision or its receipt. */
  predicate Fills(g: Gate, e: Entry, g': Gate)
  {
    || (g.request.None? && g' == g.(request := Some(e)))
    || (g.decision.None? && e.event.body.BApprovalResult? && g' == g.(decision := Some(e)))
    || (g.receipt.None? && g' == g.(receipt := Some(e)))
  }

  /** What one record does to the gates: nothing, or it opens one for a call not known before, or the open
  one takes it. */
  predicate Gates(x: Execution, e: Entry, y: Execution)
  {
    || y.gates == x.gates
    || (IsGatedCall(e.event) && var call := e.event.body.toolCall;
        y.gates == x.gates + [Gate(call, e.num, None, None, None)] && call.id !in x.calls && call.id in y.calls)
    || (IsOpen(x) && |y.gates| == |x.gates| && y == WithLast(x, LastGate(y)) && Fills(LastGate(x), e, LastGate(y)))
  }

  lemma {:induction false} StepGates(x: Execution, first: bool, e: Entry, y: Execution)
    requires Step(x, first, e) == Ok(y)
    ensures Gates(x, e, y) && forall id | id in x.calls :: id in y.calls
  {
  }

  /** The scan of the records of one execution. */
  function Fold(es: seq<Entry>): Result<Execution, ScanError>
  {
    if es == [] then Ok(FRESH)
    else
      match Fold(es[..|es| - 1])
      case Err(e) => Err(e)
      case Ok(x) => Step(x, |es| == 1, es[|es| - 1])
  }

  /** Every INPUT the start marker counted is committed, with its message, and no more. */
  function InputsError(start: Option<ExecutionStart>, records: nat, inputs: seq<Message>, completed: bool): Option<ScanError>
  {
    if start.None? then None
    else
      match start.value.inputCount
      case None => Some(InvalidLog)
      case Some(n) =>
        if n < 0 || records != |inputs| then Some(InvalidLog)
        else if records != n then Some(if !completed && records < n then Incomplete else InvalidLog)
        else None
  }

  function ValidateInputs(x: Execution): Option<ScanError>
  {
    InputsError(x.start, x.inputRecords, x.inputs, x.completed)
  }

  // ---- grouping a journal by execution ----

  /** The records of a journal are numbered from one. */
  ghost predicate Contiguous(es: seq<Entry>)
  {
    forall i | 0 <= i < |es| :: es[i].num == i + 1
  }

  predicate Of(e: Entry, id: string)
  {
    !e.event.kind.KLifecycle? && e.event.executionId == id
  }

  /** The records of one execution, in journal order. Lifecycle records belong to none. */
  function EntriesOf(es: seq<Entry>, id: string): seq<Entry>
  {
    if es == [] then []
    else
      var rest := EntriesOf(es[..|es| - 1], id);
      if Of(es[|es| - 1], id) then rest + [es[|es| - 1]] else rest
  }

  /** The executions of a journal, in first-seen order. */
  function Executions(es: seq<Entry>): seq<string>
  {
    if es == [] then []
    else
      var rest := Executions(es[..|es| - 1]);
      var e := es[|es| - 1].event;
      if e.kind.KLifecycle? || e.executionId in rest then rest else rest + [e.executionId]
  }

  function ForkSeq(es: seq<Entry>): int
  {
    if es == [] then 0
    else if IsFork(es[|es| - 1].event) then es[|es| - 1].num
    else ForkSeq(es[..|es| - 1])
  }

  function Head(es: seq<Entry>): int
  {
    if es == [] then 0 else es[|es| - 1].num
  }

  /** A record that makes its execution approval-bearing. */
  predicate IsGateEvidence(event: Event)
  {
    || event.kind.KApprovalRequest?
    || event.kind.KApprovalResult?
    || IsGatedCall(event)
    || (event.kind.KToolResult? && event.body.BResult? && BindsSeqs(event.body.result))
  }

  function HasGate(es: seq<Entry>): bool
  {
    es != [] && (HasGate(es[..|es| - 1]) || IsGateEvidence(es[|es| - 1].event))
  }

  // ---- the scan ----

  /** The published state of one gated call. */
  datatype ApprovalState = ApprovalState(
    executionId: string,
    invocation: Option<ExecutionStart>,
    gate: Gate,
    head: int,
    inherited: bool,
    completed: bool)

  datatype Scan = Scan(head: int, states: seq<ApprovalState>, selected: Option<ApprovalState>)

  function Publish(id: string, x: Execution, head: int, fork: int): (out: seq<ApprovalState>)
    ensures |out| == |x.gates|
  {
    seq(|x.gates|, i requires 0 <= i < |x.gates| =>
      ApprovalState(id, x.start, x.gates[i], head, x.gates[i].num < fork, x.completed))
  }

  /** The states of one approval-bearing execution, or why its evidence is invalid. */
  function Inspect(id: string, es: seq<Entry>, head: int, fork: int): Result<seq<ApprovalState>, ScanError>
  {
    if id == "" then Err(InvalidLog)
    else
      match Fold(es)
      case Err(e) => Err(e)
      case Ok(x) =>
        match ValidateInputs(x)
        case Some(e) => Err(e)
        case None => Ok(Publish(id, x, head, fork))
  }

  /** The states of the first n executions, in order. */
  function StatesOf(es: seq<Entry>, ids: seq<string>): Result<seq<ApprovalState>, ScanError>
  {
    if ids == [] then Ok([])
    else
      match StatesOf(es, ids[..|ids| - 1])
      case Err(e) => Err(e)
      case Ok(before) =>
        var id := ids[|ids| - 1];
        if !HasGate(EntriesOf(es, id)) then Ok(before)
        else
          match Inspect(id, EntriesOf(es, id), Head(es), ForkSeq(es))
          case Err(e) => Err(e)
          case Ok(own) => Ok(before + own)
  }

  /** The last gated call of the latest execution, when that execution bears approvals. */
  function Selected(es: seq<Entry>): Option<ApprovalState>
  {
    var ids := Executions(es);
    if ids == [] then None
    else
      var id := ids[|ids| - 1];
      if !HasGate(EntriesOf(es, id)) then None
      else
        match Inspect(id, EntriesOf(es, id), Head(es), ForkSeq(es))
        case Err(_) => None
        case Ok(own) => if own == [] then None else Some(own[|own| - 1])
  }

  function ScanOf(es: seq<Entry>): Result<Scan, ScanError>
  {
    match StatesOf(es, Executions(es))
    case Err(e) => Err(e)
    case Ok(states) => Ok(Scan(Head(es), states, Selected(es)))
  }

  /** A scan bounded by a cursor reads the records up to it; zero reads them all. */
  function Bounded(es: seq<Entry>, through: int): seq<Entry>
  {
    if es == [] || (through > 0 && es[0].num > through) then []
    else [es[0]] + Bounded(es[1..], through)
  }
}
