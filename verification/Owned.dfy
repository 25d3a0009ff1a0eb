/** No intent recorded before a fork is driven again (the fork rules of controller/resume.go).

A call recorded before the last fork marker belongs to the parent. A recovery that is not refused never
runs the executor for one, and never answers a gate that was requested there. */
module Owned {
  import opened Api
  import opened Approval
  import opened ApprovalScan
  import opened Sinks
  import opened Evidence
  import opened Runs
  import opened Upkeep
  import opened Accounting
  import opened Projection
  import opened Deciding
  import opened Writers
  import opened Invocations
  import opened Inherited
  import Recovery

  /** The execution left a call unanswered before the last fork marker after its start. */
  ghost predicate Inherits(es: seq<Entry>, id: string)
  {
    FirstIndex(es, id) <= |es| &&
    var events := EventsOf(es[FirstIndex(es, id)..]);
    |Unanswered(events, id, LastFork(events))| > 0
  }

  lemma {:induction false} StartWithin(es: seq<Entry>, id: string)
    ensures FirstIndex(es, id) <= |es|
  {
    if es != [] { StartWithin(es[..|es| - 1], id); }
  }

  /** Recovery goes on to run the harness. */
  ghost predicate Recovers(es: seq<Entry>, id: string)
  {
    Sane(es) && Resumable(es, id) && ApprovalGateway(es, id).Proceeds? && !Inherits(es, id)
  }

  // ---- which record an execution is of ----

  /** The executor ran for the call that this record of the journal is. */
  predicate Drives(h: Host, journal: seq<Entry>, inv: Invocation, k: nat)
    requires inv.at <= |journal|
  {
    && k < inv.at && Of(journal[k], h.executionId) && IsCall(journal[k].event) && journal[k].event.body.toolCall == inv.call
    && |EffectsOf(journal[..k], h.executionId)| + (if IsGatedCall(journal[k].event) then 3 else 1) == |Before(h, journal, inv)|
  }

  /** Where an effect is recorded. */
  lemma {:induction false} EffectRecord(journal: seq<Entry>, id: string, p: nat) returns (k: nat)
    requires p < |EffectsOf(journal, id)|
    ensures k < |journal| && Of(journal[k], id) && IsEffect(journal[k].event.kind)
    ensures journal[k].event == EffectsOf(journal, id)[p] && |EffectsOf(journal[..k], id)| == p
  {
    hide EffectsOf;
    assert journal != [] by { NoEffects(id); }
    var init, e := journal[..|journal| - 1], journal[|journal| - 1];
    assert journal == init + [e];
    EffectsSnoc(init, e, id);
    if p < |EffectsOf(init, id)| {
      k := EffectRecord(init, id, p);
      assert init[..k] == journal[..k];
    } else {
      k := |init|;
    }
  }

  lemma {:induction false} NoEffects(id: string)
    ensures EffectsOf([], id) == []
  {
  }

  /** An effect is counted from its record on. */
  lemma {:induction false} EffectCounted(journal: seq<Entry>, id: string, k: nat, m: nat)
    requires k < m <= |journal| && Of(journal[k], id) && IsEffect(journal[k].event.kind)
    ensures |EffectsOf(journal[..k], id)| < |EffectsOf(journal[..m], id)|
    ensures EffectsOf(journal[..m], id)[|EffectsOf(journal[..k], id)|] == journal[k].event
  {
    hide EffectsOf;
    assert journal[..k + 1] == journal[..k] + [journal[k]];
    EffectsSnoc(journal[..k], journal[k], id);
    assert journal[..m][..k + 1] == journal[..k + 1];
    EffectsPrefix(journal[..m], k + 1, id);
  }

  lemma {:induction false} DrivesUnique(h: Host, journal: seq<Entry>, inv: Invocation, k: nat, l: nat)
    requires inv.at <= |journal| && Due(Before(h, journal, inv), inv.call) && Drives(h, journal, inv, k) && Drives(h, journal, inv, l)
    ensures k == l
  {
    hide EffectsOf;
    var p, q := |EffectsOf(journal[..k], h.executionId)|, |EffectsOf(journal[..l], h.executionId)|;
    EffectCounted(journal, h.executionId, k, inv.at);
    EffectCounted(journal, h.executionId, l, inv.at);
    if k < l { EffectCounted(journal, h.executionId, k, l); }
    if l < k { EffectCounted(journal, h.executionId, l, k); }
    assert IsGatedCall(journal[k].event) <==> inv.call.mediation.RequiresApproval?;
    assert IsGatedCall(journal[l].event) <==> inv.call.mediation.RequiresApproval?;
  }

  /** The executor ran for one record and for no other. */
  ghost predicate OneRecord(h: Host, journal: seq<Entry>, inv: Invocation)
    requires inv.at <= |journal|
  {
    exists k: nat :: Drives(h, journal, inv, k) && forall l: nat | Drives(h, journal, inv, l) :: l == k
  }

  /** Every execution is of exactly one record. */
  lemma {:induction false} DrivesOne(h: Host, journal: seq<Entry>, inv: Invocation)
    requires inv.at <= |journal| && Due(Before(h, journal, inv), inv.call)
    ensures OneRecord(h, journal, inv)
  {
    var all := Before(h, journal, inv);
    var cut := journal[..inv.at];
    var ordinary := all != [] && IsCall(all[|all| - 1]) && !IsGatedCall(all[|all| - 1]) && all[|all| - 1].body.toolCall == inv.call;
    var k := EffectRecord(cut, h.executionId, |all| - (if ordinary then 1 else 3));
    assert cut[..k] == journal[..k] && cut[k] == journal[k];
    assert Drives(h, journal, inv, k);
    forall l: nat | Drives(h, journal, inv, l)
      ensures l == k
    {
      DrivesUnique(h, journal, inv, k, l);
    }
  }

  // ---- a trailing ordinary call ----

  lemma {:induction false} LastForkIs(es: seq<Entry>, q: nat)
    requires Contiguous(es) && q <= |es|
    ensures var f := LastFork(EventsOf(es[q..]));
      ForkSeq(es) <= q || (q + f < |es| && ForkSeq(es) == q + f + 1 && IsFork(es[q + f].event))
  {
    if q < |es| {
      var init, e := es[..|es| - 1], es[|es| - 1];
      LastForkIs(init, q);
      assert es == init + [e] && init[q..] == es[q..][..|es| - 1 - q];
      ScanNext(init, e);
      var events := EventsOf(es[q..]);
      assert events[..|events| - 1] == EventsOf(init[q..]);
    } else {
      ForkWithin(es);
    }
  }

  lemma {:induction false} ForkWithin(es: seq<Entry>)
    requires Contiguous(es)
    ensures ForkSeq(es) <= |es|
  {
    ForkIsLifecycle(es);
  }

  /** A trailing ordinary call of an execution that inherits nothing was recorded after the last fork. */
  lemma {:induction false} TrailingIsOwned(es: seq<Entry>, id: string, k: nat)
    requires Contiguous(es) && !Inherits(es, id) && k < |es| && Of(es[k], id) && IsCall(es[k].event)
    requires |EffectsOf(es[..k], id)| + 1 == |EffectsOf(es, id)|
    ensures k + 1 > ForkSeq(es)
  {
    var q := FirstIndex(es, id);
    StartWithin(es, id);
    FirstIsFirst(es, id, k);
    var events := EventsOf(es[q..]);
    NoneSeparates(es, id, k);
    forall m | k - q < m < |events|
      ensures !Separates(events[m], id)
    {
      assert events[m] == es[q + m].event;
    }
    hide EffectsOf, FirstIndex, ForkSeq, LastFork, Unanswered, Separates;
    assert Unanswered(events, id, LastFork(events)) == {};
    TrailingCallIsOwned(events, id, k - q);
    LastForkIs(es, q);
  }

  /** No effect of the execution follows its last one. */
  lemma {:induction false} NoneSeparates(es: seq<Entry>, id: string, k: nat)
    requires k < |es| && Of(es[k], id) && IsEffect(es[k].event.kind)
    requires |EffectsOf(es[..k], id)| + 1 == |EffectsOf(es, id)|
    ensures forall m | k < m < |es| :: !Separates(es[m].event, id)
  {
    hide EffectsOf;
    assert es[..|es|] == es;
    forall m | k < m < |es|
      ensures !Separates(es[m].event, id)
    {
      if Separates(es[m].event, id) {
        EffectCounted(es, id, k, m);
        EffectCounted(es, id, m, |es|);
      }
    }
  }

  lemma {:induction false} FirstIsFirst(es: seq<Entry>, id: string, k: nat)
    requires k < |es| && Of(es[k], id)
    ensures FirstIndex(es, id) <= k
  {
    hide FirstIndex, EntriesOf;
    var init, e := es[..|es| - 1], es[|es| - 1];
    assert es == init + [e];
    FirstIndexNext(init, e, id);
    StartWithin(init, id);
    if k < |init| {
      FirstIsFirst(init, id, k);
      FirstIndexNext(init, e, id);
      if EntriesOf(init, id) == [] { assert false by { RecordedIsOwn(init, id, k); } }
    }
  }

  lemma {:induction false} RecordedIsOwn(es: seq<Entry>, id: string, k: nat)
    requires k < |es| && Of(es[k], id)
    ensures es[k] in EntriesOf(es, id)
  {
    if k < |es| - 1 { RecordedIsOwn(es[..|es| - 1], id, k); }
  }

  // ---- the open gate ----

  /** What the gateway has looked at: an open gate of the execution was requested after the last fork. */
  lemma {:induction false} OpenIsOwned(es: seq<Entry>, id: string)
    requires Sane(es) && Resumable(es, id) && ApprovalGateway(es, id).Proceeds?
    requires Fold(EntriesOf(es, id)).Ok? && IsOpen(Fold(EntriesOf(es, id)).value)
    ensures LastGate(Fold(EntriesOf(es, id)).value).num > ForkSeq(es)
  {
    hide EntriesOf, Fold, Executions, ForkSeq, HasGate, StatesOf, Healthy;
    var own := EntriesOf(es, id);
    var x := Fold(own).value;
    if !HasGate(own) { GatesMeanGated(own); }
    SaneScans(es);
    SelectedState(es);
    OwnedAfterFork(es, id, LastGate(x));
  }

  /** The record of an open gate's call is the one its gate names. */
  lemma {:induction false} OpenRecord(h: Host, es: seq<Entry>, k: nat)
    requires Contiguous(es) && Fold(EntriesOf(es, h.executionId)).Ok?
    requires k < |es| && Of(es[k], h.executionId) && IsGatedCall(es[k].event)
    requires |EffectsOf(es[..k], h.executionId)| + 3 >= |EffectsOf(es, h.executionId)|
    ensures var x := Scanned(es, h.executionId); IsOpen(x) && k + 1 == LastGate(x).num
  {
    hide Fold, EntriesOf, Stream;
    var id := h.executionId;
    Agreed(h, es);
    var x, all := Scanned(es, id), EffectsOf(es, id);
    var p := |EffectsOf(es[..k], id)|;
    assert es[..|es|] == es;
    EffectCounted(es, id, k, |es|);
    assert all[p] == es[k].event;
    assert IsOpen(x);
    if p != |all| - OpenLength(LastGate(x)) { OpenIsLast(all, x, p); }
    GatesFrom(EntriesOf(es, id));
    var g := LastGate(x);
    assert g in x.gates;
    var e :| e in EntriesOf(es, id) && Opens(e, g);
    OwnEntries(es, id);
    OwnIsOf(es, id, e);
    var l := e.num - 1;
    EffectCounted(es, id, l, |es|);
    var q := |EffectsOf(es[..l], id)|;
    assert all[q] == e.event;
    assert IsCall(all[q]) && IsCall(all[p]);
    if l < k { EffectCounted(es, id, l, k); }
    if k < l { EffectCounted(es, id, k, l); }
  }

  lemma {:induction false} OwnIsOf(es: seq<Entry>, id: string, e: Entry)
    requires e in EntriesOf(es, id)
    ensures Of(e, id)
  {
    if es != [] && e in EntriesOf(es[..|es| - 1], id) { OwnIsOf(es[..|es| - 1], id, e); }
  }

  // ---- gates of a longer journal ----

  lemma {:induction false} ReceiptsFrom(own: seq<Entry>)
    requires Fold(own).Ok?
    ensures forall g | g in Fold(own).value.gates && g.receipt.Some? :: g.receipt.value in own
  {
    if own != [] {
      var init := own[..|own| - 1];
      ReceiptsFrom(init);
      ReceiptStep(Fold(init).value, |own| == 1, own[|own| - 1], Fold(own).value);
      assert own == init + [own[|own| - 1]];
    }
  }

  lemma {:induction false} ReceiptStep(x: Execution, first: bool, e: Entry, y: Execution)
    requires Step(x, first, e) == Ok(y)
    ensures forall g | g in y.gates && g.receipt.Some? :: g.receipt == Some(e) || exists g' :: g' in x.gates && g'.receipt == g.receipt
  {
    hide Step;
    StepGates(x, first, e, y);
    forall g | g in y.gates && g.receipt.Some?
      ensures g.receipt == Some(e) || exists g' :: g' in x.gates && g'.receipt == g.receipt
    {
      var k :| 0 <= k < |y.gates| && y.gates[k] == g;
      if k < |x.gates| { assert x.gates[k] in x.gates; }
    }
  }

  /** Gates opened later come from later records. */
  lemma {:induction false} LaterGates(own: seq<Entry>, n: nat)
    requires n <= |own| && Fold(own).Ok?
    ensures Fold(own[..n]).Ok?
    ensures forall j | |Fold(own[..n]).value.gates| <= j < |Fold(own).value.gates| :: exists e :: e in own[n..] && e.num == Fold(own).value.gates[j].num
  {
    if n == |own| {
      assert own[..n] == own;
    } else {
      var init, e := own[..|own| - 1], own[|own| - 1];
      assert init[..n] == own[..n] && own[n..] == init[n..] + [e];
      LaterGates(init, n);
      var x, y, was := Fold(init).value, Fold(own).value, Fold(own[..n]).value;
      forall j | |was.gates| <= j < |y.gates|
        ensures exists e' :: e' in own[n..] && e'.num == y.gates[j].num
      {
        NewGate(x, |own| == 1, e, y, j);
        if j < |x.gates| {
          var e' :| e' in init[n..] && e'.num == x.gates[j].num;
          assert e' in own[n..];
        } else {
          assert e in own[n..];
        }
      }
    }
  }

  lemma {:induction false} NewGate(x: Execution, first: bool, e: Entry, y: Execution, j: nat)
    requires Step(x, first, e) == Ok(y) && j < |y.gates|
    ensures if j < |x.gates| then y.gates[j].num == x.gates[j].num else y.gates[j].num == e.num
  {
    hide Step;
    StepGates(x, first, e, y);
  }

  lemma {:induction false} LaterEntries(journal: seq<Entry>, n: nat, id: string)
    requires Contiguous(journal) && n <= |journal|
    ensures EntriesOf(journal[..n], id) <= EntriesOf(journal, id)
    ensures forall e | e in EntriesOf(journal, id)[|EntriesOf(journal[..n], id)|..] :: e.num > n
    ensures forall e | e in EntriesOf(journal[..n], id) :: e.num <= n
  {
    hide EntriesOf;
    if n == |journal| {
      assert journal[..n] == journal;
      OwnEntries(journal, id);
    } else {
      var init, e := journal[..|journal| - 1], journal[|journal| - 1];
      assert init[..n] == journal[..n] && journal == init + [e];
      LaterEntries(init, n, id);
      EntriesNext(init, e, id);
      var cut := |EntriesOf(journal[..n], id)|;
      if Of(e, id) { assert EntriesOf(journal, id)[cut..] == EntriesOf(init, id)[cut..] + [e]; }
    }
  }

  /** A gate answered after these records was opened after the last fork among them. */
  lemma {:induction false} AnsweredIsOwned(h: Host, es: seq<Entry>, longer: seq<Entry>, g: Gate)
    requires Sane(es) && Resumable(es, h.executionId) && ApprovalGateway(es, h.executionId).Proceeds?
    requires es <= longer && Contiguous(longer) && Fold(EntriesOf(longer, h.executionId)).Ok?
    requires g in Scanned(longer, h.executionId).gates && g.receipt.Some? && g.receipt.value.num > |es|
    ensures g.num > ForkSeq(es)
  {
    hide Fold, EntriesOf, HasGate, ForkSeq, Executions, Healthy, ScanOf, Resumable, ApprovalGateway;
    var id := h.executionId;
    assert longer[..|es|] == es;
    LaterEntries(longer, |es|, id);
    var own, now := EntriesOf(es, id), EntriesOf(longer, id);
    assert now[..|own|] == own;
    ScanKeepsGates(now, |own|);
    LaterGates(now, |own|);
    var x, y := Fold(own).value, Fold(now).value;
    var j :| 0 <= j < |y.gates| && y.gates[j] == g;
    ForkWithin(es);
    if j < |x.gates| {
      assert GateKeeps(x.gates[j], y.gates[j]);
      ReceiptsFrom(own);
      assert x.gates[j] in x.gates;
      EarlierAnswered(own);
      assert x.gates[j].receipt.None?;
      assert IsOpen(x) && x.gates[j] == LastGate(x);
      OpenIsOwned(es, id);
    }
  }

  // ---- a recovery ----

  /** Every execution is of exactly one call record, and that one comes after the last fork marker of the journal the run started from. */
  ghost predicate ExecutesOwned(h: Host, es: seq<Entry>, live: Live)
  {
    forall inv | inv in live.invocations ::
      && inv.at <= |live.journal|
      && OneRecord(h, live.journal, inv)
      && (forall k: nat | Drives(h, live.journal, inv, k) :: live.journal[k].num > ForkSeq(es))
  }

  /** Every gate answered since was opened after the last fork marker. */
  ghost predicate AnswersOwned(h: Host, es: seq<Entry>, journal: seq<Entry>)
  {
    && Fold(EntriesOf(journal, h.executionId)).Ok?
    && forall g | g in Scanned(journal, h.executionId).gates && g.receipt.Some? && g.receipt.value.num > |es| :: g.num > ForkSeq(es)
  }

  ghost predicate OnlyOwned(h: Host, es: seq<Entry>, live: Live)
  {
    es <= live.journal && ExecutesOwned(h, es, live) && AnswersOwned(h, es, live.journal)
  }

  lemma {:induction false} DrivenIsOwned(h: Host, es: seq<Entry>, journal: seq<Entry>, inv: Invocation, k: nat)
    requires Recovers(es, h.executionId) && es <= journal && inv.at <= |journal|
    requires |Before(h, journal, inv)| >= |EffectsOf(es, h.executionId)|
    requires Drives(h, journal, inv, k)
    ensures k + 1 > ForkSeq(es)
  {
    var id := h.executionId;
    ForkWithin(es);
    if k < |es| {
      assert es[..k] == journal[..k] && es[k] == journal[k] && es[..|es|] == es;
      EffectCounted(es, id, k, |es|);
      SaneFolds(es, id);
      if IsGatedCall(es[k].event) {
        OpenRecord(h, es, k);
        OpenIsOwned(es, id);
      } else {
        TrailingIsOwned(es, id, k);
      }
    }
  }

  lemma {:induction false} SaneFolds(es: seq<Entry>, id: string)
    requires Sane(es)
    ensures Contiguous(es) && Fold(EntriesOf(es, id)).Ok?
  {
    hide EntriesOf, Fold;
    HealthyIsWhole(EntriesOf(es, id));
  }

  lemma {:induction false} ExecutionsOwned(h: Host, es: seq<Entry>, live: Live)
    requires Recovers(es, h.executionId) && es <= live.journal && Contiguous(live.journal)
    requires Tally(h, |EffectsOf(es, h.executionId)|, live.journal, live.invocations)
    ensures ExecutesOwned(h, es, live)
  {
    hide Fold, EntriesOf, Stream, Recovers, ForkSeq, EffectsOf, Due, OneRecord;
    assert Accounted(h, live.journal, live.invocations);
    forall inv | inv in live.invocations
      ensures inv.at <= |live.journal|
      ensures OneRecord(h, live.journal, inv)
      ensures forall k: nat | Drives(h, live.journal, inv, k) :: live.journal[k].num > ForkSeq(es)
    {
      DrivesOne(h, live.journal, inv);
      forall k: nat | Drives(h, live.journal, inv, k)
        ensures live.journal[k].num > ForkSeq(es)
      {
        DrivenIsOwned(h, es, live.journal, inv, k);
        DrivenWithin(h, live.journal, inv, k);
      }
    }
  }

  lemma {:induction false} DrivenWithin(h: Host, journal: seq<Entry>, inv: Invocation, k: nat)
    requires inv.at <= |journal| && Drives(h, journal, inv, k)
    ensures k < |journal|
  {
  }

  lemma {:induction false} GatesOwned(h: Host, es: seq<Entry>, journal: seq<Entry>)
    requires Recovers(es, h.executionId) && es <= journal && Contiguous(journal) && Fold(EntriesOf(journal, h.executionId)).Ok?
    ensures AnswersOwned(h, es, journal)
  {
    hide Fold, EntriesOf, ForkSeq, Inherits, Sane;
    forall g | g in Scanned(journal, h.executionId).gates && g.receipt.Some? && g.receipt.value.num > |es|
      ensures g.num > ForkSeq(es)
    {
      AnsweredIsOwned(h, es, journal, g);
    }
  }

  /** However a recovery that is not refused runs and ends: the executor never runs for a call recorded
  before the last fork, and no gate opened before it is answered. */
  lemma {:induction false} RecoveryDrivesOwned(h: Host, es: seq<Entry>, har: Harness, envs: nat -> Env, budget: nat)
    requires Recovers(es, h.executionId)
    ensures Sound(h, es) && OnlyOwned(h, es, Recovery.RunOn(h, es, har, envs, budget).sink.live)
  {
    RecoversSoundly(h, es);
    hide Fold, EntriesOf, ResumeRun, Stream, Recovers, Tally, ExecutesOwned, AnswersOwned, Recovery.RunOn;
    EffectAccounting(h, es, har, envs, budget);
    TurnUpheld(h, es, har, envs, budget);
    var live := Recovery.RunOn(h, es, har, envs, budget).sink.live;
    ExecutionsOwned(h, es, live);
    GatesOwned(h, es, live.journal);
  }

  lemma {:induction false} RecoversSoundly(h: Host, es: seq<Entry>)
    requires Recovers(es, h.executionId)
    ensures Sound(h, es) && Contiguous(es)
  {
    ResumableIsCurrent(es, h);
    SaneFolds(es, h.executionId);
  }

  // ---- over the runs of a branch ----

  /** Runs of one execution along one branch of forks: each starts from a journal that continues what
  survived the one before, fork markers included, and is a first run or a recovery that is not refused.
  What a fork cut away did not survive. */
  ghost predicate Branch(h: Host, turns: seq<Turn>)
  {
    && History(h, turns)
    && (forall t | t in turns :: Contiguous(t.start) && (EffectsOf(t.start, h.executionId) == [] || Recovers(t.start, h.executionId)))
    && (forall k | 0 < k < |turns| :: Ran(h, turns[k - 1]).journal[..turns[k - 1].crash] <= turns[k].start)
  }

  lemma {:induction false} TurnDrivesOwned(h: Host, t: Turn)
    requires Sound(h, t.start) && Contiguous(t.start)
    requires EffectsOf(t.start, h.executionId) == [] || Recovers(t.start, h.executionId)
    ensures t.start <= Ran(h, t).journal && ExecutesOwned(h, t.start, Ran(h, t))
  {
    hide Fold, EntriesOf, ResumeRun, Stream, Recovers, Recovery.RunOn, ForkSeq, EffectsOf, OnlyOwned, ExecutesOwned;
    EffectAccounting(h, t.start, t.har, t.envs, t.budget);
    TurnUpheld(h, t.start, t.har, t.envs, t.budget);
    var live := Ran(h, t);
    if Recovers(t.start, h.executionId) { ExecutionsOwned(h, t.start, live); } else { FirstRunOwned(h, t.start, live); }
  }

  lemma {:induction false} FirstRunOwned(h: Host, es: seq<Entry>, live: Live)
    requires EffectsOf(es, h.executionId) == [] && es <= live.journal && Contiguous(es) && Contiguous(live.journal)
    requires Accounted(h, live.journal, live.invocations)
    ensures ExecutesOwned(h, es, live)
  {
    hide Fold, EntriesOf, Stream, ForkSeq, EffectsOf, Due, OneRecord;
    ForkWithin(es);
    assert es[..|es|] == es;
    forall inv | inv in live.invocations
      ensures inv.at <= |live.journal|
      ensures OneRecord(h, live.journal, inv)
      ensures forall k: nat | Drives(h, live.journal, inv, k) :: live.journal[k].num > ForkSeq(es)
    {
      DrivesOne(h, live.journal, inv);
      forall k: nat | Drives(h, live.journal, inv, k)
        ensures live.journal[k].num > ForkSeq(es)
      {
        if k < |es| { EffectCounted(es, h.executionId, k, |es|); }
      }
    }
  }

  lemma {:induction false} StartsGrow(h: Host, turns: seq<Turn>, j: nat, k: nat)
    requires Branch(h, turns) && j <= k < |turns|
    ensures turns[j].start <= turns[k].start
    decreases k - j
  {
    hide Sound, Recovers, EffectsOf;
    if j < k {
      StartsGrow(h, turns, j, k - 1);
      var t := turns[k - 1];
      assert t in turns;
      TurnDrivesOwned(h, t);
    }
  }

  /** Once a fork marker follows a record, no later run along the branch executes it. */
  lemma {:induction false} ForksEndExecution(h: Host, turns: seq<Turn>, j: nat, k: nat, i: nat)
    requires Branch(h, turns) && j <= k < |turns| && i < ForkSeq(turns[j].start)
    ensures var live := Ran(h, turns[k]);
      forall inv | inv in live.invocations :: inv.at <= |live.journal| && !Drives(h, live.journal, inv, i)
  {
    StartsGrow(h, turns, j, k);
    assert turns[j] in turns && turns[k] in turns;
    var a, b := turns[j].start, turns[k].start;
    assert b[..|a|] == a;
    ForkLater(b, |a|);
    ForkWithin(a);
    TurnDrivesOwned(h, turns[k]);
    var live := Ran(h, turns[k]);
    hide Ran, Sound, Recovers, ForkSeq, History;
    assert i < |a| && a <= live.journal && live.journal[i] == a[i] && a[i].num == i + 1;
    assert !(live.journal[i].num > ForkSeq(b));
  }

  /** The journal ends, as far as the execution goes, in a call that nothing answers, or in a gate with
  its decision, recorded after the last fork marker. */
  ghost predicate TrailingOwned(h: Host, es: seq<Entry>)
  {
    exists k: nat :: k < |es| && Trails(h, es, k) && es[k].num > ForkSeq(es)
  }

  predicate Trails(h: Host, es: seq<Entry>, k: nat)
    requires k < |es|
  {
    && Of(es[k], h.executionId) && IsCall(es[k].event)
    && |EffectsOf(es[..k], h.executionId)| + (if IsGatedCall(es[k].event) then 3 else 1) == |EffectsOf(es, h.executionId)|
  }

  /** An execution that stands where these records end, for the execution, is of one that trails in them. */
  lemma {:induction false} DrivenTrails(h: Host, es: seq<Entry>, journal: seq<Entry>, inv: Invocation, k: nat)
    requires es <= journal && inv.at <= |journal| && Drives(h, journal, inv, k)
    requires |Before(h, journal, inv)| == |EffectsOf(es, h.executionId)|
    ensures k < |es| && es[k] == journal[k] && Trails(h, es, k)
  {
    hide EffectsOf;
    if k >= |es| {
      assert journal[..k][..|es|] == es;
      EffectsPrefix(journal[..k], |es|, h.executionId);
      assert false;
    }
    assert es[..k] == journal[..k];
  }

  /** An execution of the n-th effect in the run, up to the crash. */
  lemma {:induction false} ExecutionAt(h: Host, t: Turn, n: nat) returns (inv: Invocation)
    requires Sound(h, t.start) && t.crash <= |Ran(h, t).journal| && ExecutedIn(h, t, n) > 0
    ensures var live := Ran(h, t);
      inv in live.invocations && inv.at <= |live.journal| && |Before(h, live.journal, inv)| == n
  {
    hide Sound, EffectsOf, Ran, Due;
    var live := Ran(h, t);
    RanAccounts(h, t);
    RunsOnce(h, live.journal, t.crash, live.invocations, n);
    var i :| 0 <= i < |live.invocations| && live.invocations[i].at <= t.crash && |Before(h, live.journal, live.invocations[i])| == n;
    inv := live.invocations[i];
  }

  lemma {:induction false} FoundIsOwned(h: Host, t: Turn, n: nat)
    requires Sound(h, t.start) && |t.start| <= t.crash <= |Ran(h, t).journal| && Contiguous(t.start)
    requires EffectsOf(t.start, h.executionId) == [] || Recovers(t.start, h.executionId)
    requires ExecutedIn(h, t, n) > 0 && |EffectsOf(t.start, h.executionId)| == n
    ensures TrailingOwned(h, t.start)
  {
    hide Sound, Recovers, EffectsOf, Ran, ForkSeq, ExecutedIn, Drives, Trails;
    var inv := ExecutionAt(h, t, n);
    TurnDrivesOwned(h, t);
    var live := Ran(h, t);
    var k: nat :| Drives(h, live.journal, inv, k);
    DrivenTrails(h, t.start, live.journal, inv, k);
  }

  lemma {:induction false} RanAccounts(h: Host, t: Turn)
    requires Sound(h, t.start)
    ensures Accounted(h, Ran(h, t).journal, Ran(h, t).invocations)
  {
    hide Sound, Recovery.RunOn, Accounted;
    EffectAccounting(h, t.start, t.har, t.envs, t.budget);
  }

  /** How many of the runs found the n-th effect trailing, and found it after their last fork marker. */
  ghost function FoundOwned(h: Host, turns: seq<Turn>, n: nat): nat
  {
    if turns == [] then 0
    else
      var es := turns[|turns| - 1].start;
      FoundOwned(h, turns[..|turns| - 1], n) + if |EffectsOf(es, h.executionId)| == n && TrailingOwned(h, es) then 1 else 0
  }

  lemma {:induction false} BranchInit(h: Host, turns: seq<Turn>)
    requires Branch(h, turns) && turns != []
    ensures Branch(h, turns[..|turns| - 1])
  {
    hide Sound, Recovers, EffectsOf, Ran;
    HistoryInit(h, turns);
    var init := turns[..|turns| - 1];
    forall t | t in init
      ensures Contiguous(t.start) && (EffectsOf(t.start, h.executionId) == [] || Recovers(t.start, h.executionId))
    {
      assert t in turns;
    }
  }

  /** Over the runs of a branch, its crashes, recoveries and forks: each call record is executed at most
  once plus once per recovery that found it trailing with no fork marker after it. */
  lemma {:induction false} BranchRunsOwned(h: Host, turns: seq<Turn>, n: nat)
    requires Branch(h, turns)
    ensures Total(h, turns, n) <= FoundOwned(h, turns, n) + 1
    ensures turns != [] && n > |Survives(h, turns[|turns| - 1])| ==> Total(h, turns, n) <= FoundOwned(h, turns, n)
  {
    hide Sound, ExecutedIn, EffectsOf, Survives, Ran, Recovers, TrailingOwned;
    if turns != [] {
      var init, last := turns[..|turns| - 1], turns[|turns| - 1];
      BranchInit(h, turns);
      BranchRunsOwned(h, init, n);
      assert last in turns;
      TurnRuns(h, last, n);
      if ExecutedIn(h, last, n) > 0 && |EffectsOf(last.start, h.executionId)| == n { FoundIsOwned(h, last, n); }
      if init != [] {
        assert init[|init| - 1] == turns[|turns| - 2];
        assert Survives(h, init[|init| - 1]) <= EffectsOf(last.start, h.executionId);
      }
    }
  }
}
