/** What a session's whole history says about its ended turns.

Over every journal a session reaches, by Exec, Resume, the repair, Approve, lifecycle marks and forks, each
of them stopped anywhere: an execution that ended was ended by one turn that nothing interrupted, gains no
record afterwards, and replays. */
module Journeys {
  import opened Api
  import opened Approval
  import opened ApprovalScan
  import opened Sinks
  import opened Evidence
  import opened Runs
  import opened Upkeep
  import opened Projection
  import opened Deciding
  import opened Writers
  import opened Invocations
  import opened Controller
  import EventLog
  import Owned
  import Recovery
  import Replays

  // ---- what one act writes ----

  /** The execution whose records an act writes. */
  function Subject(act: Act): string
  {
    match act
    case ExecTurn(h, _, _, _, _, _) => h.executionId
    case ResumeTurn(h, _, _, _) => h.executionId
    case Decide(d) => d.executionId
    case _ => ""
  }

  /** The journal the run of a turn starts from, when the turn gets to run. */
  ghost function RunsFrom(es: seq<Entry>, act: Act): Option<seq<Entry>>
  {
    match act
    case ExecTurn(h, start, inputs, _, _, _) =>
      if h.executionId == "" || h.executionId in Executions(es) || Blocked(es) then None
      else Some(Appending(es, Opening(h.executionId, start, inputs)))
    case ResumeTurn(h, _, _, _) =>
      if Resumable(es, h.executionId) && ApprovalGateway(es, h.executionId).Proceeds? then Some(es) else None
    case _ => None
  }

  /** The act is a turn that ends its execution when nothing interrupts it. */
  ghost predicate Completes(es: seq<Entry>, act: Act, id: string)
  {
    && RunsFrom(es, act).Some? && Subject(act) == id && Sound(act.host, RunsFrom(es, act).value)
    && var e := Recovery.RunOn(act.host, RunsFrom(es, act).value, act.har, act.envs, act.budget);
    Recovery.Finished(act.host, RunsFrom(es, act).value, e) && e.finish == Some(Completed)
  }

  /** Records of one execution, none of which ends it but the last, which does so when the flag is set. */
  ghost predicate Adds(a: seq<Entry>, b: seq<Entry>, id: string, ends: bool)
  {
    && a <= b
    && (forall q | |a| <= q < |b| ::
          && (b[q].event.kind.KLifecycle? || b[q].event.executionId == id)
          && (b[q].event.kind.KEnd? ==> ends && q == |b| - 1)
          && Worded(b[q].event))
    && (ends ==> |b| > |a| && b[|b| - 1].event.kind.KEnd?)
  }

  lemma {:induction false} AddsTwice(a: seq<Entry>, b: seq<Entry>, c: seq<Entry>, id: string, ends: bool)
    requires Adds(a, b, id, false) && Adds(b, c, id, ends)
    ensures Adds(a, c, id, ends)
  {
    forall q | |a| <= q < |c|
      ensures c[q].event.kind.KLifecycle? || c[q].event.executionId == id
      ensures c[q].event.kind.KEnd? ==> ends && q == |c| - 1
      ensures Worded(c[q].event)
    {
      if q < |b| { assert c[q] == b[q]; }
    }
  }

  lemma {:induction false} AppendingAdds(es: seq<Entry>, events: seq<Event>, id: string)
    requires forall e | e in events :: (e.kind.KLifecycle? || e.executionId == id) && !e.kind.KEnd? && Worded(e)
    ensures Adds(es, Appending(es, events), id, false)
    decreases |events|
  {
    if events != [] {
      var next := es + [Entry(Head(es) + 1, events[0])];
      assert events == [events[0]] + events[1..];
      AppendingAdds(next, events[1..], id);
      assert Adds(es, next, id, false);
      AddsTwice(es, next, Appending(es, events), id, false);
    }
  }

  /** What a turn writes once it runs. */
  lemma {:induction false} TurnAdds(h: Host, from: seq<Entry>, har: Harness, envs: nat -> Env, budget: nat)
    requires Sound(h, from)
    ensures var e := Recovery.RunOn(h, from, har, envs, budget);
      Adds(from, TurnLeaves(h, from, har, envs, budget), h.executionId, Recovery.Finished(h, from, e) && e.finish == Some(Completed))
  {
    hide EntriesOf, Fold, ResumeRun, Stream, Recovery.RunOn;
    TurnUpheld(h, from, har, envs, budget);
    var e := Recovery.RunOn(h, from, har, envs, budget);
    var final, closing := e.sink.live.journal, Closing(h, from, e);
    assert Adds(from, final, h.executionId, false);
    if closing != [] {
      AppendingOne(final, closing);
      assert Adds(final, Appending(final, closing), h.executionId, closing[0].kind.KEnd?);
      AddsTwice(from, final, Appending(final, closing), h.executionId, closing[0].kind.KEnd?);
    }
  }

  /** Everything an act can write is of one execution, or a lifecycle record; an END comes last, and only
  from a turn that completes. */
  lemma {:induction false} WritesAdds(es: seq<Entry>, act: Act)
    requires Sane(es)
    ensures Adds(es, Writes(es, act), Subject(act), Completes(es, act, Subject(act)))
  {
    hide EntriesOf, Fold, Sane, Resumable, Blocked, Sound, Judge, ApprovalGateway, TurnLeaves, Opening, Appending, Adds, Executions,
         Recovery.RunOn, Recovery.Finished, Current;
    NothingAdded(es, Subject(act));
    match act
    case ExecTurn(h, start, inputs, har, envs, budget) =>
      if RunsFrom(es, act).Some? {
        var begun := Appending(es, Opening(h.executionId, start, inputs));
        OpeningAdds(es, h.executionId, start, inputs);
        FreshIsSound(es, h, start, inputs);
        TurnAdds(h, begun, har, envs, budget);
        AddsTwice(es, begun, TurnLeaves(h, begun, har, envs, budget), h.executionId, Completes(es, act, h.executionId));
      }
    case ResumeTurn(h, har, envs, budget) =>
      if Resumable(es, h.executionId) {
        ResumableIsCurrent(es, h);
        if ApprovalGateway(es, h.executionId).Repairs? { RepairAdds(es, h.executionId); }
        TurnAdds(h, es, har, envs, budget);
      }
    case Decide(d) => AppendingAdds(es, [DecisionEvent(d)], d.executionId);
    case Mark(lifecycle) => AppendingAdds(es, [Event("", KLifecycle, BLifecycle(lifecycle), NO_IDENTITY)], "");
    case ForkAt(_) =>
  }

  lemma {:induction false} NothingAdded(es: seq<Entry>, id: string)
    ensures Adds(es, es, id, false)
  {
  }

  lemma {:induction false} OpeningAdds(es: seq<Entry>, id: string, start: ExecutionStart, inputs: seq<Message>)
    ensures Adds(es, Appending(es, Opening(id, start, inputs)), id, false)
  {
    AppendingAdds(es, Opening(id, start, inputs), id);
  }

  lemma {:induction false} RepairAdds(es: seq<Entry>, id: string)
    requires ApprovalGateway(es, id).Repairs?
    ensures Adds(es, Appending(es, [ApprovalGateway(es, id).request]), id, false)
  {
    hide ScanOf, Appending, Adds;
    AppendingAdds(es, [ApprovalGateway(es, id).request], id);
  }

  /** An act, however it is interrupted, writes such records, and an END only when it was not interrupted. */
  lemma {:induction false} LeadsAdds(es: seq<Entry>, act: Act, es': seq<Entry>)
    requires Sane(es) && Leads(es, act, es') && !act.ForkAt?
    ensures var ends := es' == Writes(es, act) && Completes(es, act, Subject(act));
      Adds(es, es', Subject(act), ends)
  {
    hide Sane, Writes, Completes, Worded;
    WritesAdds(es, act);
    var w := Writes(es, act);
    assert forall q | 0 <= q < |es'| :: es'[q] == w[q];
    if |es'| == |w| { assert es' == w; }
  }

  /** Only a recoverable execution, or one that did not exist, gains records. */
  lemma {:induction false} OnlyResumableGrows(es: seq<Entry>, act: Act, es': seq<Entry>, id: string)
    requires Sane(es) && Leads(es, act, es') && !act.ForkAt? && !Resumable(es, id)
    requires act.ExecTurn? && act.host.executionId == id ==> id in Executions(es)
    ensures es <= es' && forall q | |es| <= q < |es'| :: !Of(es'[q], id)
    ensures EntriesOf(es', id) == EntriesOf(es, id)
  {
    LeadsAdds(es, act, es');
    hide EntriesOf, Fold, Sane, TurnLeaves, Opening, Blocked, Sound, Completes, Executions, ScanOf;
    if Subject(act) == id {
      match act
      case Decide(d) =>
        if Judge(es, d).Commit? { CommitResumable(es, d); }
      case _ =>
        RefusedWritesNone(es, act, id);
    }
    OthersLeave(es, es', id);
  }

  /** A turn whose execution cannot be recovered, or is not new, writes none of its records. */
  lemma {:induction false} RefusedWritesNone(es: seq<Entry>, act: Act, id: string)
    requires Subject(act) == id && !act.Decide? && !act.ForkAt? && !Resumable(es, id)
    requires act.ExecTurn? ==> id in Executions(es)
    ensures forall q | |es| <= q < |Writes(es, act)| :: !Of(Writes(es, act)[q], id)
  {
    hide EntriesOf, Fold, TurnLeaves, Opening, Blocked, Sound, Resumable;
    if act.Mark? && !act.lifecycle.kind.Fork? {
      AppendingOne(es, [Event("", KLifecycle, BLifecycle(act.lifecycle), NO_IDENTITY)]);
    }
  }

  lemma {:induction false} CommitResumable(es: seq<Entry>, d: ApprovalDecision)
    requires Judge(es, d).Commit?
    ensures Resumable(es, d.executionId)
  {
    hide EntriesOf, Fold, HasGate, StatesOf, ForkSeq;
    CommitAwaits(es, d);
    var own := EntriesOf(es, d.executionId);
    OpenIsRunning(own);
    NotRejected(es, d.executionId);
    RejectedMeans(d.executionId, own);
    SeenExecution(es, d.executionId);
  }

  // ---- ended executions ----

  predicate HasEnded(es: seq<Entry>, id: string)
  {
    var r := Fold(EntriesOf(es, id));
    r.Ok? && r.value.completed
  }

  /** An END of the execution is what ends it. */
  lemma {:induction false} EndedByEnd(es: seq<Entry>, n: nat, id: string)
    requires n <= |es| && HasEnded(es, id) && !HasEnded(es[..n], id)
    ensures exists q :: n <= q < |es| && Of(es[q], id) && es[q].event.kind.KEnd?
  {
    hide EntriesOf, Fold;
    assert es[..|es|] == es;
    if n < |es| {
      var init, e := es[..|es| - 1], es[|es| - 1];
      assert es == init + [e] && init[..n] == es[..n];
      EndsNext(init, e, id);
      if HasEnded(init, id) {
        EndedByEnd(init, n, id);
        var q :| n <= q < |init| && Of(init[q], id) && init[q].event.kind.KEnd?;
        assert es[q] == init[q];
      } else {
        assert es[|es| - 1] == e;
      }
    }
  }

  lemma {:induction false} EndsNext(es: seq<Entry>, e: Entry, id: string)
    ensures HasEnded(es + [e], id) && !HasEnded(es, id) ==> Of(e, id) && e.event.kind.KEnd?
  {
    hide EntriesOf, Fold;
    EntriesNext(es, e, id);
    FoldSnoc(EntriesOf(es, id), e);
    if Of(e, id) && HasEnded(es + [e], id) { EndStep(Fold(EntriesOf(es, id)).value, EntriesOf(es, id) == [], e); }
  }

  lemma {:induction false} EndStep(x: Execution, first: bool, e: Entry)
    requires Step(x, first, e).Ok?
    ensures Step(x, first, e).value.completed ==> x.completed || e.event.kind.KEnd?
  {
  }

  /** An act ends an execution only as a turn of it that completes, uninterrupted. */
  lemma {:induction false} EndsOnlyAsTurn(es: seq<Entry>, act: Act, es': seq<Entry>, id: string)
    requires Sane(es) && Leads(es, act, es') && !act.ForkAt?
    requires HasEnded(es', id) && !HasEnded(es, id)
    ensures Completes(es, act, id) && es' == Writes(es, act)
    ensures forall q | |es| <= q < |es'| && Of(es'[q], id) && es'[q].event.kind.KEnd? :: q == |es'| - 1
  {
    hide HasEnded, Completes, Writes, Sane, Worded;
    LeadsAdds(es, act, es');
    assert es'[..|es|] == es;
    EndedByEnd(es', |es|, id);
  }

  /** Before its last record a turn that completes has not ended its execution. */
  lemma {:induction false} EndsLast(es: seq<Entry>, act: Act, id: string, m: nat)
    requires Sane(es) && Completes(es, act, id) && !HasEnded(es, id) && m < |Writes(es, act)|
    ensures !HasEnded(Writes(es, act)[..m], id)
  {
    hide HasEnded, Completes, Writes, Sane, Worded;
    var w := Writes(es, act);
    assert Subject(act) == id by { CompletesIs(es, act, id); }
    WritesAdds(es, act);
    if HasEnded(w[..m], id) {
      if m <= |es| {
        assert w[..m] == es[..m];
        EndedStays(es, m, id);
      } else {
        assert w[..m][..|es|] == es;
        EndedByEnd(w[..m], |es|, id);
      }
      assert false;
    }
  }

  lemma {:induction false} CompletesIs(es: seq<Entry>, act: Act, id: string)
    requires Completes(es, act, id)
    ensures Subject(act) == id && (act.ExecTurn? || act.ResumeTurn?)
  {
  }

  /** Ending is not taken back by further records that the scan accepts. */
  lemma {:induction false} EndedStays(es: seq<Entry>, m: nat, id: string)
    requires Sane(es) && m <= |es| && HasEnded(es[..m], id)
    ensures HasEnded(es, id)
  {
    hide EntriesOf, Fold, Healthy;
    EntriesPrefix(es, m, id);
    var own, now := EntriesOf(es[..m], id), EntriesOf(es, id);
    assert now[..|own|] == own;
    HealthyIsWhole(now);
    Recovery.ScanPrefix(now, |own|);
  }

  /** The execution was ended by this act of the journey, and has gained nothing since. */
  ghost predicate EndedAt(path: seq<seq<Entry>>, acts: seq<Act>, n: nat, id: string, k: nat)
    requires |path| == |acts| + 1
  {
    && k < n < |path| && Completes(path[k], acts[k], id) && !HasEnded(path[k], id)
    && path[k + 1] == Writes(path[k], acts[k]) && path[k + 1] <= path[n]
    && (forall q | |path[k + 1]| <= q < |path[n]| :: !Of(path[n][q], id))
  }

  /** Every execution that has ended, in any journal a session reaches, was ended by exactly one turn that
  nothing interrupted, and no act since, forks included, has added a record to it. */
  lemma {:induction false} EndedOnce(path: seq<seq<Entry>>, acts: seq<Act>, n: nat, id: string) returns (k: nat)
    requires Journey(path, acts) && n < |path| && HasEnded(path[n], id)
    ensures EndedAt(path, acts, n, id, k)
    ensures forall q | 0 <= q < |path[n]| && Of(path[n][q], id) && path[n][q].event.kind.KEnd? :: q == |path[k + 1]| - 1
    decreases n
  {
    hide Sane, Leads, Writes, Completes, HasEnded;
    if n == 0 {
      NothingEnded(id);
      assert false;
    } else {
      WritersNeverWedge(path, acts, n - 1);
      var es, act, es' := path[n - 1], acts[n - 1], path[n];
      assert Leads(es, act, es');
      if act.ForkAt? {
        var m := ForkPoint(es, act, es');
        ForkEnds(es, m, es', act.atSeq, id);
        k := EndedOnce(path, acts, n - 1, id);
        ForkKeepsEnd(path, acts, n - 1, id, k, m, es');
      } else if HasEnded(es, id) {
        k := EndedOnce(path, acts, n - 1, id);
        EndedIsFixed(es, id);
        OnlyResumableGrows(es, act, es', id);
      } else {
        k := n - 1;
        EndsOnlyAsTurn(es, act, es', id);
      }
    }
    OneEnd(path, acts, n, id, k);
  }

  lemma {:induction false} NothingEnded(id: string)
    ensures !HasEnded([], id)
  {
  }

  lemma {:induction false} ForkPoint(es: seq<Entry>, act: Act, es': seq<Entry>) returns (m: nat)
    requires Leads(es, act, es') && act.ForkAt?
    ensures m <= |es| && es' == es[..m] + [Entry(m + 1, EventLog.ForkEvent(act.atSeq))]
  {
    m :| 0 <= m <= |es| && es' == es[..m] + [Entry(m + 1, EventLog.ForkEvent(act.atSeq))];
  }

  lemma {:induction false} ForkEnds(es: seq<Entry>, m: nat, es': seq<Entry>, atSeq: int, id: string)
    requires Sane(es) && m <= |es| && es' == es[..m] + [Entry(m + 1, EventLog.ForkEvent(atSeq))]
    requires HasEnded(es', id)
    ensures HasEnded(es[..m], id) && HasEnded(es, id)
  {
    hide HasEnded, Sane;
    EndsNext(es[..m], Entry(m + 1, EventLog.ForkEvent(atSeq)), id);
    EndedStays(es, m, id);
  }

  lemma {:induction false} ForkKeepsEnd(path: seq<seq<Entry>>, acts: seq<Act>, n: nat, id: string, k: nat, m: nat, es': seq<Entry>)
    requires Journey(path, acts) && n < |acts| && EndedAt(path, acts, n, id, k) && m <= |path[n]|
    requires acts[n].ForkAt? && es' == path[n + 1] == path[n][..m] + [Entry(m + 1, EventLog.ForkEvent(acts[n].atSeq))]
    requires HasEnded(path[n][..m], id)
    ensures EndedAt(path, acts, n + 1, id, k)
  {
    hide HasEnded, Completes, Writes, Sane, Leads;
    var left := path[k + 1];
    WritersNeverWedge(path, acts, k);
    if m < |left| {
      assert path[n][..m] == left[..m];
      EndsLast(path[k], acts[k], id, m);
      assert false;
    }
    assert left <= es';
    forall q | |left| <= q < |es'|
      ensures !Of(es'[q], id)
    {
      if q < m { assert es'[q] == path[n][q]; }
    }
  }

  /** An ended execution is not recovered. */
  lemma {:induction false} EndedIsFixed(es: seq<Entry>, id: string)
    requires HasEnded(es, id)
    ensures !Resumable(es, id) && id in Executions(es)
  {
    hide EntriesOf;
    SeenExecution(es, id);
    FoldNone();
  }

  lemma {:induction false} EndIsEnded(es: seq<Entry>, q: nat, id: string)
    requires Sane(es) && q < |es| && Of(es[q], id) && es[q].event.kind.KEnd?
    ensures HasEnded(es, id)
  {
    hide EntriesOf, Fold, Healthy;
    assert es[..q + 1] == es[..q] + [es[q]];
    EntriesPrefix(es, q + 1, id);
    EntriesNext(es[..q], es[q], id);
    var own, now := EntriesOf(es[..q + 1], id), EntriesOf(es, id);
    assert now[..|own|] == own;
    HealthyIsWhole(now);
    Recovery.ScanPrefix(now, |own|);
    FoldSnoc(EntriesOf(es[..q], id), es[q]);
    Recovery.ScanPrefix(own, |own| - 1);
    assert own[..|own| - 1] == EntriesOf(es[..q], id);
    EndedStays(es, q + 1, id);
  }

  /** The only END of an ended execution is the one its turn wrote last. */
  lemma {:induction false} OneEnd(path: seq<seq<Entry>>, acts: seq<Act>, n: nat, id: string, k: nat)
    requires Journey(path, acts) && EndedAt(path, acts, n, id, k)
    ensures forall q | 0 <= q < |path[n]| && Of(path[n][q], id) && path[n][q].event.kind.KEnd? :: q == |path[k + 1]| - 1
  {
    hide HasEnded, Completes, Writes, Sane, Leads, Worded;
    WritersNeverWedge(path, acts, k);
    CompletesIs(path[k], acts[k], id);
    WritesAdds(path[k], acts[k]);
    var left := path[k + 1];
    forall q | 0 <= q < |path[n]| && Of(path[n][q], id) && path[n][q].event.kind.KEnd?
      ensures q == |left| - 1
    {
      assert q < |left|;
      assert path[n][q] == left[q];
      if q < |path[k]| {
        assert left[q] == path[k][q];
        EndIsEnded(path[k], q, id);
      }
    }
  }

  // ---- replaying a whole session ----

  /** The turn drives the harness that the replay drives, and hashes model inputs as the replay does. */
  ghost predicate Tied(h: Host, hars: Start -> Harness, es: seq<Entry>, act: Act)
  {
    match act
    case ExecTurn(own, start, inputs, har, _, _) =>
      own.hashInput == h.hashInput && har == hars(ExecStart(es, own.executionId, start, inputs))
    case ResumeTurn(own, har, _, _) =>
      own.hashInput == h.hashInput &&
      (Resumable(es, own.executionId) && Gathered(EntriesOf(es, own.executionId)).Some? && FirstIndex(es, own.executionId) <= |es| ==>
         har == hars(RebuiltStart(es, ExecutionOf(es, own.executionId))))
    case _ => true
  }

  lemma {:induction false} ServesSame(h: Host, h': Host, rec: Recording, s: Served, op: Op)
    requires h.hashInput == h'.hashInput
    ensures ServeStep(h, rec, s, op) == ServeStep(h', rec, s, op)
  {
  }

  /** A replay depends on its host through the input hash alone, and not on its budget once it returns. */
  lemma {:induction false} ReplaySame(h: Host, h': Host, rec: Recording, har: Harness, s: Served, seen: seq<Seen>, budget: nat, more: nat)
    requires h.hashInput == h'.hashInput && budget <= more
    requires ReplayRun(h, rec, har, s, seen, budget).finish.Some?
    ensures ReplayRun(h', rec, har, s, seen, more) == ReplayRun(h, rec, har, s, seen, budget)
    decreases budget
  {
    hide ServeStep;
    match har(seen)
    case Return(_) =>
    case Emit(op) =>
      if budget > 0 {
        ServesSame(h, h', rec, s, op);
        var t := ServeStep(h, rec, s, op);
        ReplaySame(h, h', rec, har, t.0, seen + [See(t.1)], budget - 1, more - 1);
      }
  }

  /** The turn that ended an execution was repeatable, step by step. */
  ghost predicate TurnFaithful(es: seq<Entry>, act: Act)
    requires RunsFrom(es, act).Some? && Sound(act.host, RunsFrom(es, act).value)
  {
    var from := RunsFrom(es, act).value;
    Replays.Faithful(EffectsOf(Recovery.RunOn(act.host, from, act.har, act.envs, act.budget).sink.live.journal, act.host.executionId),
                     Recovery.TraceOn(act.host, from, act.har, act.envs, act.budget))
  }

  /** An ended turn of a journey, replayed from any later journal that keeps it. */
  lemma {:induction false} EndedActReplays(h: Host, hars: Start -> Harness, es0: seq<Entry>, act: Act, es: seq<Entry>, id: string, budget: nat)
    requires Sane(es0) && Sane(es) && ScanOf(es).Ok? && Completes(es0, act, id) && Tied(h, hars, es0, act)
    requires Writes(es0, act) <= es && (forall q | |Writes(es0, act)| <= q < |es| :: !Of(es[q], id))
    requires TurnFaithful(es0, act) && budget >= act.budget
    ensures Gathered(EntriesOf(es, id)).Some? && FirstIndex(es, id) <= |es|
    ensures Reproduced(ReplayOne(es, h, hars, budget, id), |EffectsOf(es, id)|)
  {
    hide EntriesOf, Fold, Sane, ScanOf, Sound, TurnLeaves, ReplayRun, Opening, Appending, Executions, Blocked, Gathered, FirstIndex,
         Recovery.RunOn, Recovery.TraceOn, Recovery.Finished, Replays.Faithful, EffectsOf, Resumable, ApprovalGateway;
    match act
    case ExecTurn(own, start, inputs, har, envs, b) =>
      ExecThenReplay(es0, own, start, inputs, hars, envs, b, es);
      ReplayCarries(h, own, hars, es, id, b, budget);
    case ResumeTurn(own, har, envs, b) =>
      ResumableGathers(es0, id);
      ResumeThenReplay(es0, own, hars, envs, b, es);
      ReplayCarries(h, own, hars, es, id, b, budget);
    case _ =>
  }

  lemma {:induction false} ResumableGathers(es: seq<Entry>, id: string)
    requires Sane(es) && Resumable(es, id)
    ensures ScanOf(es).Ok? && Gathered(EntriesOf(es, id)).Some? && FirstIndex(es, id) <= |es|
  {
    hide EntriesOf, Fold, Sane, StatesOf, Gathered, FirstIndex;
    SaneScans(es);
    GatheredAgrees(EntriesOf(es, id));
    Owned.StartWithin(es, id);
  }

  lemma {:induction false} ReplayCarries(h: Host, own: Host, hars: Start -> Harness, es: seq<Entry>, id: string, b: nat, budget: nat)
    requires own.hashInput == h.hashInput && b <= budget
    requires ScanOf(es).Ok? && Gathered(EntriesOf(es, id)).Some? && FirstIndex(es, id) <= |es|
    requires Reproduced(ReplayOne(es, own, hars, b, id), |EffectsOf(es, id)|)
    ensures Reproduced(ReplayOne(es, h, hars, budget, id), |EffectsOf(es, id)|)
  {
    hide EntriesOf, ScanOf, ReplayRun, Gathered, FirstIndex, EffectsOf, ServedFrom, RebuiltStart;
    ReplaySame(own.(executionId := id), h.(executionId := id), ServedFrom(es, id), hars(RebuiltStart(es, ExecutionOf(es, id))),
               Served(0, [], None, Guard(false, None), map[]), [], b, budget);
  }

  // ---- the texts of a session ----

  ghost predicate AllWorded(es: seq<Entry>)
  {
    forall e | e in es :: Worded(e.event)
  }

  lemma {:induction false} JourneyWorded(path: seq<seq<Entry>>, acts: seq<Act>, n: nat)
    requires Journey(path, acts) && n < |path|
    ensures AllWorded(path[n])
  {
    hide Sane, Leads, Writes, Completes, Worded;
    if n > 0 {
      JourneyWorded(path, acts, n - 1);
      WritersNeverWedge(path, acts, n - 1);
      var es, act, es' := path[n - 1], acts[n - 1], path[n];
      assert Leads(es, act, es');
      if act.ForkAt? {
        var m := ForkPoint(es, act, es');
        MarkWorded(act.atSeq);
      } else {
        LeadsAdds(es, act, es');
      }
    }
  }

  lemma {:induction false} MarkWorded(atSeq: int)
    ensures Worded(EventLog.ForkEvent(atSeq))
  {
  }

  lemma {:induction false} EffectsWorded(es: seq<Entry>, id: string)
    requires AllWorded(es)
    ensures Replays.OutputsHaveMessages(EffectsOf(es, id))
  {
    hide EffectsOf;
    if es == [] {
      Owned.NoEffects(id);
    } else {
      var init, e := es[..|es| - 1], es[|es| - 1];
      assert es == init + [e];
      EffectsWorded(init, id);
      EffectsSnoc(init, e, id);
    }
  }

  /** Each turn that ended an execution of this journal of the journey was repeatable. */
  ghost predicate Repeats(path: seq<seq<Entry>>, acts: seq<Act>, n: nat, budget: nat)
    requires |path| == |acts| + 1
  {
    forall k, id | 0 <= k < |acts| && EndedAt(path, acts, n, id, k) :: TurnFaithful(path[k], acts[k]) && acts[k].budget <= budget
  }

  lemma {:induction false} RepeatsAt(path: seq<seq<Entry>>, acts: seq<Act>, n: nat, budget: nat, k: nat, id: string)
    requires |path| == |acts| + 1 && Repeats(path, acts, n, budget) && EndedAt(path, acts, n, id, k)
    ensures TurnFaithful(path[k], acts[k]) && acts[k].budget <= budget
  {
  }

  /** Replay reproduces live. Take any journal a session reaches by Exec, Resume, the repair, Approve,
  lifecycle marks and forks, each interrupted anywhere, with one deterministic harness. If each turn that
  ended its execution was repeatable, a replay of the journal succeeds, writing nothing, and returns
  exactly the recorded texts of the ended executions, in order. */
  lemma {:induction false} JourneyReplays(h: Host, hars: Start -> Harness, path: seq<seq<Entry>>, acts: seq<Act>, n: nat, budget: nat)
    requires Journey(path, acts) && n < |path|
    requires forall k | 0 <= k < |acts| :: Tied(h, hars, path[k], acts[k])
    requires Repeats(path, acts, n, budget)
    ensures var es := path[n];
      && Readable(es) && (forall id | id in Executions(es) :: Gathered(EntriesOf(es, id)).Some? && FirstIndex(es, id) <= |es|)
      && ReplayAll(es, h, hars, budget, Executions(es)) == Some(TextsOf(es, Executions(es)))
  {
    hide EntriesOf, Fold, Sane, ScanOf, Leads, Writes, Completes, TurnFaithful, Gathered, FirstIndex, ReplayOne, Reproduced, Tied,
         EffectsOf, Executions, Broken, Replays.OutputsHaveMessages;
    var es := path[n];
    WritersNeverWedge(path, acts, n);
    SanePicks(es);
    assert Readable(es);
    ReadableGathers(es);
    var ids := Executions(es);
    forall id | id in ids && Gathered(EntriesOf(es, id)).value.completed
      ensures Reproduced(ReplayOne(es, h, hars, budget, id), |EffectsOf(es, id)|)
    {
      GatheredEnded(es, id);
      var k := EndedOnce(path, acts, n, id);
      WritersNeverWedge(path, acts, k);
      RepeatsAt(path, acts, n, budget, k, id);
      EndedActReplays(h, hars, path[k], acts[k], es, id, budget);
    }
    AllReproduced(es, h, hars, budget, ids);
    JourneyWorded(path, acts, n);
    forall id | id in ids
      ensures Replays.OutputsHaveMessages(EffectsOf(es, id))
    {
      EffectsWorded(es, id);
    }
    ReplayReturnsTexts(es, h, hars, budget, ids);
  }

  lemma {:induction false} GatheredEnded(es: seq<Entry>, id: string)
    requires Sane(es) && Gathered(EntriesOf(es, id)).Some? && Gathered(EntriesOf(es, id)).value.completed
    ensures HasEnded(es, id)
  {
    hide EntriesOf, Fold, Healthy, Gathered;
    HealthyIsWhole(EntriesOf(es, id));
    GatheredAgrees(EntriesOf(es, id));
  }

  /** When no operation of a turn that ended failed, it was repeatable iff its usage is accounted for. */
  lemma {:induction false} AccountedTurnReplays(es: seq<Entry>, act: Act, id: string)
    requires Completes(es, act, id)
    requires Recovery.NoneFailed(Recovery.TraceOn(act.host, RunsFrom(es, act).value, act.har, act.envs, act.budget))
    ensures TurnFaithful(es, act) <==>
      Recovery.UsageAccounted(Recovery.TraceOn(act.host, RunsFrom(es, act).value, act.har, act.envs, act.budget))
  {
    hide EntriesOf, Fold, Sound, ResumeRun, Recovery.Finished, Recovery.NoneFailed, Recovery.UsageAccounted, Replays.Faithful,
         Recovery.RunOn, Recovery.TraceOn, Stream;
    var from := RunsFrom(es, act).value;
    Recovery.RunLeaves(act.host, from, act.har, act.envs, act.budget);
    Recovery.UsageDecides(act.host, act.har, EffectsOf(Recovery.RunOn(act.host, from, act.har, act.envs, act.budget).sink.live.journal, act.host.executionId),
                          Recovery.TraceOn(act.host, from, act.har, act.envs, act.budget));
  }

  // ---- openings that were interrupted ----

  /** The first m records of an invocation, and those among them that come first. */
  lemma {:induction false} OpeningOwn(es: seq<Entry>, id: string, start: ExecutionStart, inputs: seq<Message>, m: nat, j: nat)
    requires id !in Executions(es) && j <= m <= |inputs| + 1
    ensures var own := EntriesOf(Appending(es, Opening(id, start, inputs)[..m]), id);
      |own| == m && own[..j] == EntriesOf(Appending(es, Opening(id, start, inputs)[..j]), id)
  {
    hide Executions, EntriesOf, Appending;
    var all := Opening(id, start, inputs);
    if m == 0 {
      assert Appending(es, all[..0]) == es by { NothingAppended(es, all); }
      SeenExecution(es, id);
    } else {
      var shorter := Appending(es, all[..m - 1]);
      assert all[..m] == all[..m - 1] + [all[m - 1]];
      AppendingSnoc(es, all[..m - 1], all[m - 1]);
      EntriesNext(shorter, Entry(Head(shorter) + 1, all[m - 1]), id);
      OpeningOwn(es, id, start, inputs, m - 1, if j < m then j else m - 1);
    }
  }

  /** What is left of an interrupted opening, if anything, lacks inputs. */
  lemma {:induction false} PartialIsIncomplete(es0: seq<Entry>, id: string, start: ExecutionStart, inputs: seq<Message>, m: nat, es: seq<Entry>)
    requires id !in Executions(es0) && m <= |inputs| && Sane(es)
    requires EntriesOf(es, id) <= EntriesOf(Appending(es0, Opening(id, start, inputs)[..m]), id)
    ensures !Resumable(es, id) && !HasEnded(es, id)
    ensures id in Executions(es) ==>
      Gathered(EntriesOf(es, id)).Some? && InputError(Gathered(EntriesOf(es, id)).value) == Some(Incomplete)
  {
    hide EntriesOf, Executions, Fold, Appending, Healthy, Gathered, Latest;
    var own := EntriesOf(es, id);
    SeenExecution(es, id);
    if own == [] {
      FoldNone();
    } else {
      var all := EntriesOf(Appending(es0, Opening(id, start, inputs)[..m]), id);
      OpeningOwn(es0, id, start, inputs, m, m);
      OpeningOwn(es0, id, start, inputs, m, |own|);
      assert own == all[..|own|];
      OpeningGathered(es0, id, start, inputs, |own|);
      HealthyIsWhole(own);
      GatheredAgrees(own);
    }
  }

  /** An opening that was interrupted before its last input stays as it was, forks apart, in every journal
  the session reaches: its execution is never recovered and never ends, and reads as incomplete. Its
  identity is taken to be fresh: no later Exec uses it. */
  lemma {:induction false} PartialInputsForever(path: seq<seq<Entry>>, acts: seq<Act>, k: nat, m: nat, n: nat)
    requires Journey(path, acts) && k < n < |path| && acts[k].ExecTurn?
    requires acts[k].host.executionId !in Executions(path[k]) && m <= |acts[k].inputs|
    requires path[k + 1] == Appending(path[k], Opening(acts[k].host.executionId, acts[k].start, acts[k].inputs)[..m])
    requires forall j | k < j < n && acts[j].ExecTurn? :: acts[j].host.executionId != acts[k].host.executionId
    ensures var es, id := path[n], acts[k].host.executionId;
      && EntriesOf(es, id) <= EntriesOf(path[k + 1], id)
      && !Resumable(es, id) && !HasEnded(es, id)
      && (id in Executions(es) ==>
            Gathered(EntriesOf(es, id)).Some? && InputError(Gathered(EntriesOf(es, id)).value) == Some(Incomplete))
    decreases n
  {
    hide Sane, Leads, Writes, HasEnded, EntriesOf, Executions, Gathered, Resumable, Appending, Opening;
    var id := acts[k].host.executionId;
    WritersNeverWedge(path, acts, n);
    if n > k + 1 {
      PartialInputsForever(path, acts, k, m, n - 1);
      WritersNeverWedge(path, acts, n - 1);
      var es, act, es' := path[n - 1], acts[n - 1], path[n];
      assert Leads(es, act, es');
      if act.ForkAt? {
        var p := ForkPoint(es, act, es');
        EntriesPrefix(es, p, id);
        EntriesNext(es[..p], Entry(p + 1, EventLog.ForkEvent(act.atSeq)), id);
        MarkIsNone(act.atSeq, p, id);
      } else {
        OnlyResumableGrows(es, act, es', id);
      }
    }
    PartialIsIncomplete(path[k], id, acts[k].start, acts[k].inputs, m, path[n]);
  }

  lemma {:induction false} MarkIsNone(atSeq: int, p: nat, id: string)
    ensures !Of(Entry(p + 1, EventLog.ForkEvent(atSeq)), id)
  {
  }
}
