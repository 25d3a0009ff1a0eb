/** What a valid scan says about the effect stream of an execution.

The sinks see two views of one execution: its effects in order, and its gates by call. Both come
from the same records, and a scan that accepts the records makes the two agree. */
module Evidence {
  import opened Api
  import opened Approval
  import opened Sinks
  import opened Matching

  predicate IsEffect(kind: Kind)
  {
    kind.KModelCall? || kind.KOutput? || kind.KToolCall? || kind.KToolResult? || kind.KUsage? ||
    kind.KApprovalRequest? || kind.KApprovalResult?
  }

  /** The effects among the records of one execution, in order. */
  function Stream(es: seq<Entry>): seq<Event>
  {
    if es == [] then []
    else
      var rest := Stream(es[..|es| - 1]);
      if IsEffect(es[|es| - 1].event.kind) then rest + [es[|es| - 1].event] else rest
  }

  /** The effects of one execution of a journal. */
  function EffectsOf(journal: seq<Entry>, id: string): seq<Event>
  {
    Stream(EntriesOf(journal, id))
  }

  /** Gates by call identity. */
  function GateMap(gates: seq<Gate>): map<string, Gate>
  {
    if gates == [] then map[]
    else GateMap(gates[..|gates| - 1])[gates[|gates| - 1].call.id := gates[|gates| - 1]]
  }

  /** The calls a stream has recorded: true for a gated identity. */
  function CallsIn(stream: seq<Event>): map<string, bool>
  {
    if stream == [] then map[]
    else
      var rest := CallsIn(stream[..|stream| - 1]);
      var e := stream[|stream| - 1];
      if e.kind.KToolCall? && e.body.BToolCall?
      then rest[e.body.toolCall.id := e.body.toolCall.mediation.RequiresApproval?]
      else rest
  }

  predicate IsCall(e: Event)
  {
    e.kind.KToolCall? && e.body.BToolCall?
  }

  /** The records of a gated call follow it directly, and its gate holds exactly those records. */
  ghost predicate GateAt(stream: seq<Event>, gates: map<string, Gate>, p: nat)
    requires p < |stream| && IsGatedCall(stream[p])
  {
    var call := stream[p].body.toolCall;
    && call.id in gates
    && var g := gates[call.id];
    && g.call == call
    && (g.request.Some? <==> p + 1 < |stream|)
    && (g.decision.Some? <==> p + 2 < |stream|)
    && (g.receipt.Some? <==> p + 3 < |stream|)
    && (p + 1 < |stream| ==> stream[p + 1].kind.KApprovalRequest? && stream[p + 1] == g.request.value.event)
    && (p + 2 < |stream| ==> stream[p + 2].kind.KApprovalResult? && HasDecision(g) && stream[p + 2] == g.decision.value.event)
    && (p + 3 < |stream| ==> stream[p + 3].kind.KToolResult? && ReceiptServes(g, stream[p + 3]))
  }

  ghost predicate GatesAgree(stream: seq<Event>, gates: map<string, Gate>)
  {
    forall p | 0 <= p < |stream| && IsGatedCall(stream[p]) :: GateAt(stream, gates, p)
  }

  /** No identity is used again once it is gated, and no gate takes a used identity. */
  ghost predicate CallsDistinct(stream: seq<Event>)
  {
    forall p, q | 0 <= p < q < |stream| && IsCall(stream[p]) && IsCall(stream[q]) &&
                  stream[p].body.toolCall.id == stream[q].body.toolCall.id ::
      !IsGatedCall(stream[p]) && !IsGatedCall(stream[q])
  }

  /** How many records of the last gate are in the stream. */
  function OpenLength(g: Gate): nat
  {
    if g.decision.Some? then 3 else if g.request.Some? then 2 else 1
  }

  /** The stream ends in the records of its open gate. */
  ghost predicate EndsOpen(stream: seq<Event>, g: Gate)
  {
    var n := OpenLength(g);
    && g.receipt.None?
    && (g.decision.Some? ==> g.request.Some? && HasDecision(g))
    && n <= |stream|
    && IsGatedCall(stream[|stream| - n])
    && stream[|stream| - n].body.toolCall == g.call
  }

  /** Every gate of the stream has its four records. */
  ghost predicate AllAnswered(stream: seq<Event>)
  {
    forall p | 0 <= p < |stream| && IsGatedCall(stream[p]) :: p + 3 < |stream|
  }

  /** The two views agree. */
  ghost predicate Agrees(stream: seq<Event>, x: Execution)
  {
    && x.calls == CallsIn(stream)
    && CallsDistinct(stream)
    && GatesAgree(stream, GateMap(x.gates))
    && (if IsOpen(x) then EndsOpen(stream, LastGate(x)) else AllAnswered(stream))
  }

  lemma {:induction false} CallsInSnoc(stream: seq<Event>, e: Event)
    ensures CallsIn(stream + [e]) ==
      if IsCall(e) then CallsIn(stream)[e.body.toolCall.id := e.body.toolCall.mediation.RequiresApproval?]
      else CallsIn(stream)
  {
    assert (stream + [e])[..|stream|] == stream;
  }

  /** Every recorded call is known, as gated when it is. */
  lemma {:induction false} CallsInCovers(stream: seq<Event>, p: nat)
    requires p < |stream| && IsCall(stream[p]) && CallsDistinct(stream)
    ensures stream[p].body.toolCall.id in CallsIn(stream)
    ensures IsGatedCall(stream[p]) ==> CallsIn(stream)[stream[p].body.toolCall.id]
  {
    var n := |stream| - 1;
    var init := stream[..n];
    if p < n {
      assert init[p] == stream[p];
      assert CallsDistinct(init);
      CallsInCovers(init, p);
    }
  }

  lemma {:induction false} GateMapSnoc(gates: seq<Gate>, g: Gate)
    ensures GateMap(gates + [g]) == GateMap(gates)[g.call.id := g]
  {
    assert (gates + [g])[..|gates|] == gates;
  }

  lemma {:induction false} GateMapLast(gates: seq<Gate>, g: Gate)
    requires gates != [] && g.call.id == gates[|gates| - 1].call.id
    ensures GateMap(gates[|gates| - 1 := g]) == GateMap(gates)[g.call.id := g]
    ensures gates[|gates| - 1].call.id in GateMap(gates)
    ensures GateMap(gates)[gates[|gates| - 1].call.id] == gates[|gates| - 1]
  {
    var n := |gates| - 1;
    assert gates[n := g][..n] == gates[..n];
  }

  /** A gated call of the stream other than the open one is answered, so its four records are there. */
  lemma {:induction false} OpenIsLast(stream: seq<Event>, x: Execution, p: nat)
    requires Agrees(stream, x) && IsOpen(x)
    requires p < |stream| && IsGatedCall(stream[p])
    requires p != |stream| - OpenLength(LastGate(x))
    ensures p + 3 < |stream| && stream[p].body.toolCall.id != LastGate(x).call.id
  {
    var q := |stream| - OpenLength(LastGate(x));
    assert IsCall(stream[p]) && IsCall(stream[q]);
    assert GateAt(stream, GateMap(x.gates), p);
    assert GateAt(stream, GateMap(x.gates), q);
  }

  // ---- one record keeps the two views in agreement ----

  /** An effect that is neither a call nor part of a gate leaves the gates as they are. */
  lemma {:induction false} PlainStep(stream: seq<Event>, x: Execution, e: Event)
    requires Agrees(stream, x) && !IsOpen(x) && !IsCall(e)
    ensures Agrees(stream + [e], x)
  {
    CallsInSnoc(stream, e);
    var s := stream + [e];
    forall p | 0 <= p < |s| && IsGatedCall(s[p])
      ensures GateAt(s, GateMap(x.gates), p)
    {
      assert s[p] == stream[p];
      assert GateAt(stream, GateMap(x.gates), p);
    }
  }

  lemma {:induction false} FreshIdentity(stream: seq<Event>, x: Execution, e: Event)
    requires Agrees(stream, x) && IsCall(e)
    requires e.body.toolCall.id in x.calls ==> !x.calls[e.body.toolCall.id] && !IsGatedCall(e)
    ensures CallsDistinct(stream + [e])
  {
    var s := stream + [e];
    forall p, q | 0 <= p < q < |s| && IsCall(s[p]) && IsCall(s[q]) && s[p].body.toolCall.id == s[q].body.toolCall.id
      ensures !IsGatedCall(s[p]) && !IsGatedCall(s[q])
    {
      assert s[p] == stream[p];
      if q == |stream| {
        CallsInCovers(stream, p);
      } else {
        assert s[q] == stream[q];
      }
    }
  }

  lemma {:induction false} CallStep(stream: seq<Event>, x: Execution, e: Entry, y: Execution)
    requires Agrees(stream, x) && StepCall(x, e) == Ok(y) && e.event.kind.KToolCall?
    ensures Agrees(stream + [e.event], y)
  {
    CallsInSnoc(stream, e.event);
    FreshIdentity(stream, x, e.event);
    var s := stream + [e.event];
    var call := e.event.body.toolCall;
    if IsGatedCall(e.event) {
      GateMapSnoc(x.gates, Gate(call, e.num, None, None, None));
    }
    forall p | 0 <= p < |s| && IsGatedCall(s[p])
      ensures GateAt(s, GateMap(y.gates), p)
    {
      if p < |stream| {
        assert s[p] == stream[p];
        assert GateAt(stream, GateMap(x.gates), p);
        CallsInCovers(stream, p);
      }
    }
  }

  /** The next record of the open gate: its request, its decision or its receipt. */
  lemma {:induction false} AnswerStep(stream: seq<Event>, x: Execution, e: Entry, g: Gate)
    requires Agrees(stream, x) && IsOpen(x) && !IsCall(e.event)
    requires g.call == LastGate(x).call
    requires
      || (LastGate(x).request.None? && g == LastGate(x).(request := Some(e)) && e.event.kind.KApprovalRequest?)
      || (LastGate(x).request.Some? && LastGate(x).decision.None? && g == LastGate(x).(decision := Some(e)) &&
          e.event.kind.KApprovalResult? && HasDecision(g))
      || (LastGate(x).decision.Some? && g == LastGate(x).(receipt := Some(e)) &&
          e.event.kind.KToolResult? && ReceiptServes(g, e.event))
    ensures Agrees(stream + [e.event], WithLast(x, g))
  {
    CallsInSnoc(stream, e.event);
    var s := stream + [e.event];
    var y := WithLast(x, g);
    GateMapLast(x.gates, g);
    var q := |stream| - OpenLength(LastGate(x));
    assert GateAt(stream, GateMap(x.gates), q);
    forall p | 0 <= p < |s| && IsGatedCall(s[p])
      ensures GateAt(s, GateMap(y.gates), p)
      ensures p != q ==> p + 3 < |s|
    {
      assert s[p] == stream[p];
      assert GateAt(stream, GateMap(x.gates), p);
      if p != q { OpenIsLast(stream, x, p); }
    }
  }

  lemma {:induction false} StepAgrees(stream: seq<Event>, x: Execution, first: bool, e: Entry, y: Execution)
    requires Agrees(stream, x) && Step(x, first, e) == Ok(y)
    ensures Agrees(if IsEffect(e.event.kind) then stream + [e.event] else stream, y)
  {
    hide GatesAgree, CallsDistinct, EndsOpen, AllAnswered, GateMap, CallsIn, ReceiptFits;
    match e.event.kind
    case KToolCall => CallStep(stream, x, e, y);
    case KApprovalRequest => AnswerStep(stream, x, e, LastGate(y));
    case KApprovalResult => AnswerStep(stream, x, e, LastGate(y));
    case KToolResult =>
      if IsOpen(x) { AnswerStep(stream, x, e, LastGate(y)); } else { PlainStep(stream, x, e.event); }
    case KModelCall => PlainStep(stream, x, e.event);
    case KOutput => PlainStep(stream, x, e.event);
    case KUsage => PlainStep(stream, x, e.event);
    case _ =>
  }

  /** A scan that accepts the records of an execution makes its effects and its gates agree. */
  lemma {:induction false} FoldAgrees(es: seq<Entry>)
    requires Fold(es).Ok?
    ensures Agrees(Stream(es), Fold(es).value)
  {
    if es != [] {
      var init := es[..|es| - 1];
      FoldAgrees(init);
      StepAgrees(Stream(init), Fold(init).value, |es| == 1, es[|es| - 1], Fold(es).value);
    }
  }

  // ---- which records a scan accepts ----

  /** The open gate waits for its request, its decision or its receipt. */
  predicate Waiting(x: Execution, kind: Kind)
  {
    && x.gates != [] && x.gates[|x.gates| - 1].receipt.None?
    && var g := x.gates[|x.gates| - 1];
       match kind
       case KApprovalRequest => g.request.None?
       case KApprovalResult => g.request.Some? && g.decision.None?
       case KToolResult => g.request.Some? && g.decision.Some? && g.decision.value.event.body.BApprovalResult?
       case _ => false
  }

  /** The record answers the open gate: it names the gate's call, and the request and decision before it, and a
  receipt has a status its decision allows. */
  predicate Binds(g: Gate, body: Body)
  {
    match body
    case BApproval(request) => request.toolCallId == g.call.id
    case BApprovalResult(d) => g.request.Some? && d.toolCallId == g.call.id && d.requestSeq == g.request.value.num
    case BResult(r) =>
      && g.request.Some? && g.decision.Some? && g.decision.value.event.body.BApprovalResult?
      && r.id == g.call.id && r.requestSeq == g.request.value.num && r.decisionSeq == g.decision.value.num
      && StatusFits(g.decision.value.event.body.decision.approved, r)
    case _ => false
  }

  predicate AnswerBody(kind: Kind, body: Body)
  {
    (kind == KApprovalRequest && body.BApproval?) || (kind == KApprovalResult && body.BApprovalResult?) || (kind == KToolResult && body.BResult?)
  }

  /** A record the scan accepts. While a gate is open nothing is but its next answer, and an ERROR. A gate is
  opened by a call with identity and key, for an identity never used, in an execution that has not ended; no
  gated identity is used again; and only an open gate is answered. */
  ghost predicate Accepts(x: Execution, first: bool, e: Entry)
  {
    var open := x.gates != [] && x.gates[|x.gates| - 1].receipt.None?;
    var kind, body := e.event.kind, e.event.body;
    if kind == KExecutionStart then first && body.BStart?
    else if kind == KError then true
    else if open then Waiting(x, kind) && AnswerBody(kind, body) && Binds(x.gates[|x.gates| - 1], body)
    else if kind == KToolCall then
      && body.BToolCall?
      && var call := body.toolCall;
         if call.mediation == RequiresApproval then call.id !in x.calls && !x.completed && call.id != "" && call.key != ""
         else !(call.id in x.calls && x.calls[call.id])
    else if kind == KToolResult then
      body.BResult? ==> body.result.requestSeq == 0 && body.result.decisionSeq == 0 && !(body.result.id in x.calls && x.calls[body.result.id])
    else kind != KApprovalRequest && kind != KApprovalResult
  }

  /** A scan takes a record iff it is acceptable; a record that would answer the open gate but names another call,
  request or decision, or has another status, is a divergence, and anything else an invalid log. */
  lemma {:induction false} ScanAccepts(x: Execution, first: bool, e: Entry)
    ensures Step(x, first, e).Ok? <==> Accepts(x, first, e)
    ensures Step(x, first, e) == Err(Diverged) <==>
      Waiting(x, e.event.kind) && AnswerBody(e.event.kind, e.event.body) && !Binds(x.gates[|x.gates| - 1], e.event.body)
  {
    if e.event.body.BResult? && x.gates != [] && HasDecision(LastGate(x)) {
      StatusIs(LastGate(x).decision.value.event.body.decision, e.event.body.result);
    }
    hide ReceiptFits, StatusFits;
  }

  /** What an accepted record leaves: an opened gate carries the call and its number, an answered one the record. */
  lemma {:induction false} ScanTakes(x: Execution, first: bool, e: Entry, y: Execution)
    requires Step(x, first, e) == Ok(y)
    ensures var kind, body := e.event.kind, e.event.body;
      var n := |x.gates| - 1;
      && y.start == (if kind == KExecutionStart then Some(body.start) else x.start)
      && y.inputRecords == x.inputRecords + (if kind == KInput then 1 else 0)
      && y.inputs == x.inputs + (if kind == KInput && body.BMessage? then [body.message] else [])
      && y.completed == (x.completed || kind == KEnd)
      && y.calls == (if kind == KToolCall then x.calls[body.toolCall.id := body.toolCall.mediation == RequiresApproval] else x.calls)
      && y.gates == (if kind == KToolCall && body.toolCall.mediation == RequiresApproval then x.gates + [Gate(body.toolCall, e.num, None, None, None)]
                     else if !Waiting(x, kind) then x.gates
                     else if kind == KApprovalRequest then x.gates[n := x.gates[n].(request := Some(e))]
                     else if kind == KApprovalResult then x.gates[n := x.gates[n].(decision := Some(e))]
                     else x.gates[n := x.gates[n].(receipt := Some(e))])
  {
    hide ReceiptFits;
  }
}
