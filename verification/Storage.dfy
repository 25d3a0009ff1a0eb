/** A session's journal as storage gives it back (sqlitelog.Log.Read after Append).

What is read back can differ from what was written: integers become floats, a part keeps its first field,
an unknown enum text is forgotten. None of it changes what a scan finds, which executions there are, or
what they said; so the journal can always be replayed, and the replay succeeds exactly when the harness,
given the answers as they come back, makes the operations as they come back. */
module Storage {
  import opened Api
  import opened Approval
  import opened ApprovalScan
  import opened Evidence
  import opened Runs
  import opened Sinks
  import opened Upkeep
  import opened Projection
  import opened Writers
  import opened Invocations
  import opened Controller
  import opened Journeys
  import opened Continuation
  import Codec
  import Owned
  import Replays

  // ---- what comes back ----

  function StoredEvent(e: Event): Event
  {
    Codec.DecodeEvent(Codec.EncodeEvent(e))
  }

  function StoredEntry(e: Entry): Entry
  {
    e.(event := StoredEvent(e.event))
  }

  /** A journal as it is read back from storage. */
  function Stored(es: seq<Entry>): (out: seq<Entry>)
    ensures |out| == |es|
  {
    seq(|es|, i requires 0 <= i < |es| => StoredEntry(es[i]))
  }

  predicate AllPlain(es: seq<Entry>)
  {
    forall i | 0 <= i < |es| :: Codec.PlainEvent(es[i].event)
  }

  /** Storage gives back the journal that was written exactly when every event in it is plain. */
  lemma {:induction false} StoredIsWritten(es: seq<Entry>)
    ensures Stored(es) == es <==> AllPlain(es)
  {
    hide Codec.PlainEvent, Codec.EncodeEvent, Codec.DecodeEvent;
    forall i | 0 <= i < |es|
      ensures Stored(es)[i] == es[i] <==> Codec.PlainEvent(es[i].event)
    {
      Codec.EventFixed(es[i].event);
    }
    if AllPlain(es) { assert Stored(es) == es; }
  }

  lemma {:induction false} StoredSnoc(es: seq<Entry>)
    requires es != []
    ensures Stored(es) != [] && Stored(es)[..|es| - 1] == Stored(es[..|es| - 1])
    ensures Stored(es)[|es| - 1] == StoredEntry(es[|es| - 1])
    ensures Stored(es) == Stored(es[..|es| - 1]) + [StoredEntry(es[|es| - 1])]
  {
    hide StoredEntry;
  }

  // ---- a scan of it ----

  function StoredMessages(ms: seq<Message>): (out: seq<Message>)
    ensures |out| == |ms|
  {
    seq(|ms|, i requires 0 <= i < |ms| => Codec.DecodeMessage(Codec.EncodeMessage(ms[i])))
  }

  function StoredOption(e: Option<Entry>): Option<Entry>
  {
    match e case None => None case Some(entry) => Some(StoredEntry(entry))
  }

  function StoredGate(g: Gate): Gate
  {
    Gate(Codec.DecodeCall(Codec.EncodeCall(g.call)), g.num, StoredOption(g.request), StoredOption(g.decision), StoredOption(g.receipt))
  }

  function StoredGates(gs: seq<Gate>): (out: seq<Gate>)
    ensures |out| == |gs|
  {
    seq(|gs|, i requires 0 <= i < |gs| => StoredGate(gs[i]))
  }

  /** What a scan finds in the records that come back, by what it finds in those written. */
  function StoredExecution(x: Execution): Execution
  {
    x.(inputs := StoredMessages(x.inputs), gates := StoredGates(x.gates))
  }

  /** What no scan decision depends on is all that storage changes of a call or a result. */
  lemma {:induction false} CallComesBack(c: ToolCall)
    ensures var d := Codec.DecodeCall(Codec.EncodeCall(c));
      d.id == c.id && d.key == c.key && d.tool == c.tool && d.mediation.RequiresApproval? == c.mediation.RequiresApproval?
  {
    hide Codec.ToStruct, Codec.FromStruct;
  }

  lemma {:induction false} ResultComesBack(r: ToolResult)
    ensures var d := Codec.DecodeResult(Codec.EncodeResult(r));
      d.id == r.id && d.requestSeq == r.requestSeq && d.decisionSeq == r.decisionSeq && d.isError == r.isError && d.code == r.code
  {
    hide Codec.ToStruct, Codec.FromStruct, Codec.EncodeParts, Codec.DecodeParts;
  }

  /** What is kept of an event, of every kind. */
  lemma {:induction false} EventComesBack(e: Event)
    ensures var d := StoredEvent(e);
      && d.executionId == e.executionId && d.kind == e.kind
      && d.body.BMessage? == e.body.BMessage? && d.body.BToolCall? == e.body.BToolCall? && d.body.BResult? == e.body.BResult?
      && (e.body.BMessage? ==> d.body.message == Codec.DecodeMessage(Codec.EncodeMessage(e.body.message)))
      && (e.body.BToolCall? ==> d.body.toolCall == Codec.DecodeCall(Codec.EncodeCall(e.body.toolCall)))
      && (e.body.BResult? ==> d.body.result == Codec.DecodeResult(Codec.EncodeResult(e.body.result)))
      && (!e.body.BMessage? && !e.body.BToolCall? && !e.body.BResult? && !e.body.BLifecycle? ==> d.body == e.body)
      && d.body.BLifecycle? == e.body.BLifecycle? && IsFork(d) == IsFork(e)
  {
    hide Codec.EncodeCall, Codec.DecodeCall, Codec.EncodeResult, Codec.DecodeResult, Codec.EncodeMessage, Codec.DecodeMessage;
  }

  function StoredResult(r: Result<Execution, ScanError>): Result<Execution, ScanError>
  {
    match r case Err(e) => Err(e) case Ok(x) => Ok(StoredExecution(x))
  }

  lemma {:induction false} OpenComesBack(x: Execution)
    ensures IsOpen(StoredExecution(x)) == IsOpen(x)
    ensures x.gates != [] ==> LastGate(StoredExecution(x)) == StoredGate(LastGate(x))
  {
    hide StoredMessages, Codec.EncodeCall, Codec.DecodeCall, StoredEntry;
  }

  lemma {:induction false} LastComesBack(x: Execution, g: Gate)
    requires x.gates != []
    ensures StoredExecution(WithLast(x, g)) == WithLast(StoredExecution(x), StoredGate(g))
  {
    hide StoredGate, StoredMessages;
    assert StoredGates(x.gates[|x.gates| - 1 := g]) == StoredGates(x.gates)[|x.gates| - 1 := StoredGate(g)];
  }

  lemma {:induction false} InputStored(x: Execution, e: Entry)
    ensures StepInput(StoredExecution(x), StoredEntry(e)) == StoredResult(StepInput(x, e))
  {
    EventComesBack(e.event);
    OpenComesBack(x);
    hide StoredEvent, IsOpen, StoredGates;
    if e.event.body.BMessage? {
      assert StoredMessages(x.inputs + [e.event.body.message]) ==
             StoredMessages(x.inputs) + [Codec.DecodeMessage(Codec.EncodeMessage(e.event.body.message))];
    }
  }

  lemma {:induction false} CallStored(x: Execution, e: Entry)
    ensures StepCall(StoredExecution(x), StoredEntry(e)) == StoredResult(StepCall(x, e))
  {
    EventComesBack(e.event);
    OpenComesBack(x);
    hide StoredEvent, IsOpen, StoredMessages;
    if e.event.body.BToolCall? {
      var call := e.event.body.toolCall;
      CallComesBack(call);
      var g := Gate(call, e.num, None, None, None);
      hide Codec.EncodeCall, Codec.DecodeCall;
      assert StoredGates(x.gates + [g]) == StoredGates(x.gates) + [StoredGate(g)];
    }
  }

  lemma {:induction false} RequestStored(x: Execution, e: Entry)
    ensures StepRequest(StoredExecution(x), StoredEntry(e)) == StoredResult(StepRequest(x, e))
  {
    EventComesBack(e.event);
    OpenComesBack(x);
    hide StoredEvent, StoredMessages, StoredExecution;
    if IsOpen(x) {
      CallComesBack(LastGate(x).call);
      LastComesBack(x, LastGate(x).(request := Some(e)));
    }
    hide Codec.EncodeCall, Codec.DecodeCall, IsOpen, LastGate, WithLast;
  }

  lemma {:induction false} DecisionStored(x: Execution, e: Entry)
    ensures StepDecision(StoredExecution(x), StoredEntry(e)) == StoredResult(StepDecision(x, e))
  {
    EventComesBack(e.event);
    OpenComesBack(x);
    hide StoredEvent, StoredMessages, StoredExecution;
    if IsOpen(x) {
      CallComesBack(LastGate(x).call);
      LastComesBack(x, LastGate(x).(decision := Some(e)));
    }
    hide Codec.EncodeCall, Codec.DecodeCall, IsOpen, LastGate, WithLast;
  }

  lemma {:induction false} ResultStored(x: Execution, e: Entry)
    ensures StepResult(StoredExecution(x), StoredEntry(e)) == StoredResult(StepResult(x, e))
  {
    EventComesBack(e.event);
    OpenComesBack(x);
    if e.event.body.BResult? { ResultComesBack(e.event.body.result); }
    assert StoredExecution(x).calls == x.calls;
    hide StoredEvent, StoredMessages, StoredExecution;
    if IsOpen(x) {
      CallComesBack(LastGate(x).call);
      if LastGate(x).decision.Some? { EventComesBack(LastGate(x).decision.value.event); }
      LastComesBack(x, LastGate(x).(receipt := Some(e)));
    }
    hide Codec.EncodeCall, Codec.DecodeCall, Codec.EncodeResult, Codec.DecodeResult, IsOpen, LastGate, WithLast;
  }

  /** A step of a scan over what comes back is that step over what was written. */
  lemma {:induction false} StepStored(x: Execution, first: bool, e: Entry)
    ensures Step(StoredExecution(x), first, StoredEntry(e)) == StoredResult(Step(x, first, e))
  {
    EventComesBack(e.event);
    OpenComesBack(x);
    InputStored(x, e);
    CallStored(x, e);
    RequestStored(x, e);
    DecisionStored(x, e);
    ResultStored(x, e);
    hide StepInput, StepCall, StepRequest, StepDecision, StepResult, StoredEvent, StoredMessages, StoredGates, IsOpen;
  }

  lemma {:induction false} FreshStored()
    ensures StoredExecution(FRESH) == FRESH
  {
  }

  lemma {:induction false} FoldStored(own: seq<Entry>)
    ensures Fold(Stored(own)) == StoredResult(Fold(own))
  {
    hide Step, Stored, StoredEntry, StoredExecution;
    if own != [] {
      var init, e := own[..|own| - 1], own[|own| - 1];
      StoredSnoc(own);
      FoldStored(init);
      if Fold(init).Ok? { StepStored(Fold(init).value, |own| == 1, e); }
    } else {
      FreshStored();
    }
  }

  lemma {:induction false} HealthyStored(own: seq<Entry>)
    requires Healthy(own)
    ensures Healthy(Stored(own))
  {
    hide Step, Stored, StoredEntry, StoredExecution, StepHealthy;
    if own != [] {
      var init, e := own[..|own| - 1], own[|own| - 1];
      StoredSnoc(own);
      HealthyStored(init);
      FoldStored(init);
      StepHealthyStored(Fold(init).value, |own| == 1, e);
    }
  }

  lemma {:induction false} StepHealthyStored(x: Execution, first: bool, e: Entry)
    requires StepHealthy(x, first, e)
    ensures StepHealthy(StoredExecution(x), first, StoredEntry(e))
  {
    StepStored(x, first, e);
    EventComesBack(e.event);
    hide Step, StoredEvent, StoredMessages, StoredGates;
  }

  // ---- the journal ----

  /** Grouping by execution, the fork marks and the order of executions come back as they were. */
  lemma {:induction false} GroupsStored(es: seq<Entry>, id: string)
    ensures EntriesOf(Stored(es), id) == Stored(EntriesOf(es, id))
    ensures Executions(Stored(es)) == Executions(es) && ForkSeq(Stored(es)) == ForkSeq(es)
    ensures FirstIndex(Stored(es), id) == FirstIndex(es, id)
  {
    hide StoredEvent;
    if es != [] {
      var init, e := es[..|es| - 1], es[|es| - 1];
      StoredSnoc(es);
      GroupsStored(init, id);
      EventComesBack(e.event);
      StoredJoin(EntriesOf(init, id), e);
    }
  }

  lemma {:induction false} StoredJoin(a: seq<Entry>, e: Entry)
    ensures Stored(a + [e]) == Stored(a) + [StoredEntry(e)]
  {
    hide StoredEntry;
  }

  /** A well-formed journal comes back well-formed. */
  lemma {:induction false} SaneStored(es: seq<Entry>)
    requires Sane(es)
    ensures Sane(Stored(es))
  {
    hide EntriesOf, Healthy, Fold, ForkSeq, Executions, FirstIndex, StoredEvent, StoredExecution;
    GroupsStored(es, "");
    forall id
      ensures Healthy(EntriesOf(Stored(es), id))
      ensures OwnsOpen(Stored(es), id) ==> id == Latest(Stored(es))
    {
      GroupsStored(es, id);
      HealthyStored(EntriesOf(es, id));
      FoldStored(EntriesOf(es, id));
      if OwnsOpen(Stored(es), id) {
        OpenComesBack(Fold(EntriesOf(es, id)).value);
        assert OwnsOpen(es, id);
      }
    }
  }

  // ---- what it says ----

  /** The text of what comes back is the text that was written. */
  lemma {:induction false} TextStored(parts: seq<Part>)
    ensures Text(Codec.DecodeParts(Codec.EncodeParts(parts))) == Text(parts)
  {
    hide Codec.EncodePart, Codec.DecodePart;
    var back := Codec.DecodeParts(Codec.EncodeParts(parts));
    if parts != [] {
      PartTextStored(parts[0]);
      TextStored(parts[1..]);
      assert back[1..] == Codec.DecodeParts(Codec.EncodeParts(parts[1..]));
    }
  }

  lemma {:induction false} PartTextStored(p: Part)
    ensures Codec.DecodePart(Codec.EncodePart(p)).text == p.text
  {
    hide Codec.EncodeReasoning, Codec.EncodeCall, Codec.EncodeResult;
  }

  lemma {:induction false} TextsStored(own: seq<Entry>)
    ensures Replays.OutputTexts(Stream(Stored(own))) == Replays.OutputTexts(Stream(own))
  {
    hide Stored, StoredEvent;
    if own != [] {
      var init, e := own[..|own| - 1], own[|own| - 1];
      StoredSnoc(own);
      TextsStored(init);
      EventComesBack(e.event);
      if e.event.body.BMessage? { TextStored(e.event.body.message.parts); }
      TextsSnoc(Stream(init), e.event);
      TextsSnoc(Stream(Stored(init)), StoredEvent(e.event));
    } else {
      assert Stored(own) == [];
    }
  }

  lemma {:induction false} TextsSnoc(stream: seq<Event>, e: Event)
    ensures Replays.OutputTexts(stream + [e]) ==
      Replays.OutputTexts(stream) + if e.kind.KOutput? && e.body.BMessage? then [Text(e.body.message.parts)] else []
  {
    assert (stream + [e])[..|stream|] == stream;
  }

  lemma {:induction false} SameTexts(es: seq<Entry>, ids: seq<string>)
    requires forall id | id in ids :: Gathered(EntriesOf(es, id)).Some? && Gathered(EntriesOf(Stored(es), id)).Some?
    requires forall id | id in ids :: Gathered(EntriesOf(Stored(es), id)).value.completed == Gathered(EntriesOf(es, id)).value.completed
    ensures TextsOf(Stored(es), ids) == TextsOf(es, ids)
  {
    hide Stored, EntriesOf, Gathered, Stream, Replays.OutputTexts;
    if ids != [] {
      var init, id := ids[..|ids| - 1], ids[|ids| - 1];
      assert forall k | k in init :: k in ids;
      SameTexts(es, init);
      GroupsStored(es, id);
      TextsStored(EntriesOf(es, id));
    }
  }

  lemma {:induction false} WordedStored(es: seq<Entry>)
    requires AllWorded(es)
    ensures AllWorded(Stored(es))
  {
    hide StoredEvent;
    forall e | e in Stored(es)
      ensures Worded(e.event)
    {
      var i :| 0 <= i < |es| && e == StoredEntry(es[i]);
      EventComesBack(es[i].event);
      assert es[i] in es;
    }
  }

  // ---- replaying what comes back ----

  /** An execution ended in what comes back iff it had ended in what was written. */
  lemma {:induction false} EndsStored(es: seq<Entry>, id: string)
    requires Sane(es)
    ensures Startable(es, id) && Startable(Stored(es), id)
    ensures Gathered(EntriesOf(es, id)).value.completed == HasEnded(es, id)
    ensures Gathered(EntriesOf(Stored(es), id)).value.completed == HasEnded(es, id)
  {
    hide Stored, EntriesOf, Fold, Healthy, Gathered, FirstIndex, Sane, StoredExecution;
    SaneStored(es);
    SaneIsHealthy(es, id);
    SaneIsHealthy(Stored(es), id);
    HealthyIsWhole(EntriesOf(es, id));
    HealthyIsWhole(EntriesOf(Stored(es), id));
    GroupsStored(es, id);
    FoldStored(EntriesOf(es, id));
    GatheredAgrees(EntriesOf(es, id));
    GatheredAgrees(EntriesOf(Stored(es), id));
    Owned.StartWithin(es, id);
    Owned.StartWithin(Stored(es), id);
    assert StoredExecution(Fold(EntriesOf(es, id)).value).completed == Fold(EntriesOf(es, id)).value.completed by { CompletedStored(Fold(EntriesOf(es, id)).value); }
  }

  lemma {:induction false} CompletedStored(x: Execution)
    ensures StoredExecution(x).completed == x.completed
  {
  }

  /** Any journal a session reaches, whatever is in it, can be replayed as storage gives it back: it can be
  read, and holds the same executions, ended as before. The replay succeeds iff, for each ended execution,
  the harness, given the answers as they come back, makes the operations as they come back, position by
  position and to the last record; and then it returns exactly the texts that were written. */
  lemma {:induction false} StoredJourneyReplays(h: Host, hars: Start -> Harness, path: seq<seq<Entry>>, acts: seq<Act>, n: nat, budget: nat)
    requires Journey(path, acts) && n < |path|
    ensures var es, stored := path[n], Stored(path[n]);
      && Readable(stored) && Executions(stored) == Executions(es)
      && (forall id | id in Executions(es) ::
            Startable(es, id) && Startable(stored, id) && Gathered(EntriesOf(stored, id)).value.completed == HasEnded(es, id))
      && (ReplayAll(stored, h, hars, budget, Executions(es)).Some? <==>
          forall id | id in Executions(es) && HasEnded(es, id) :: Matched(stored, h, hars, budget, id))
      && (ReplayAll(stored, h, hars, budget, Executions(es)).Some? ==>
          ReplayAll(stored, h, hars, budget, Executions(es)).value == TextsOf(es, Executions(es)))
  {
    hide Stored, EntriesOf, Executions, Gathered, FirstIndex, Sane, HasEnded, Broken, Matched, Leads, EffectsOf, Replays.OutputsHaveMessages, ScanOf,
         AllWorded, TextsOf, ReplayAll;
    var es, stored := path[n], Stored(path[n]);
    var ids := Executions(es);
    WritersNeverWedge(path, acts, n);
    SaneStored(es);
    SanePicks(stored);
    GroupsStored(es, "");
    forall id | id in ids
      ensures Startable(es, id) && Startable(stored, id) && Gathered(EntriesOf(stored, id)).value.completed == HasEnded(es, id)
      ensures Gathered(EntriesOf(es, id)).value.completed == HasEnded(es, id)
      ensures Replays.OutputsHaveMessages(EffectsOf(stored, id))
    {
      EndsStored(es, id);
      JourneyWorded(path, acts, n);
      WordedStored(es);
      EffectsWorded(stored, id);
    }
    ReplaySucceedsIff(stored, h, hars, budget, ids);
    ReplayReturnsTexts(stored, h, hars, budget, ids);
    SameTexts(es, ids);
  }
}
