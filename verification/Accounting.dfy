/** What a run does outside its journal: tool executions and model calls.

The executor runs only for a call whose record is durable and unanswered, and for a gated call only
under an approving decision. A run that diverges has done nothing at all. */
module Accounting {
  import opened Api
  import opened Approval
  import opened Sinks
  import opened Evidence
  import opened Runs
  import opened Upkeep
  import opened Recovery

  /** A call that the last effect records, or a gated call under the approving decision that the last
  effect records: nothing answers it yet. */
  predicate Due(all: seq<Event>, call: ToolCall)
  {
    || (all != [] && IsCall(all[|all| - 1]) && !IsGatedCall(all[|all| - 1]) && all[|all| - 1].body.toolCall == call)
    || (|all| >= 3 && IsGatedCall(all[|all| - 3]) && all[|all| - 3].body.toolCall == call &&
        all[|all| - 2].kind.KApprovalRequest? && all[|all| - 1].kind.KApprovalResult? &&
        all[|all| - 1].body.BApprovalResult? && all[|all| - 1].body.decision.approved)
  }

  /** The effects that were durable when the executor ran. */
  function Before(h: Host, journal: seq<Entry>, inv: Invocation): seq<Event>
    requires inv.at <= |journal|
  {
    EffectsOf(journal[..inv.at], h.executionId)
  }

  /** Every execution was of a call recorded last at that time, each with a later record than the one before. */
  ghost predicate Accounted(h: Host, journal: seq<Entry>, invs: seq<Invocation>)
  {
    && (forall k | 0 <= k < |invs| :: invs[k].at <= |journal| && Due(Before(h, journal, invs[k]), invs[k].call))
    && (forall k, l | 0 <= k < l < |invs| :: |Before(h, journal, invs[k])| < |Before(h, journal, invs[l])|)
  }

  /** Effects so far are no fewer than those any execution saw. */
  ghost predicate Within(h: Host, journal: seq<Entry>, invs: seq<Invocation>, n: nat)
    requires forall k | 0 <= k < |invs| :: invs[k].at <= |journal|
  {
    forall k | 0 <= k < |invs| :: |Before(h, journal, invs[k])| <= n
  }

  /** Nothing outside the journal has happened, nor in it. */
  ghost predicate Untouched(journal: seq<Entry>, s: Live)
  {
    s.journal == journal && s.invocations == [] && s.modelRuns == 0
  }

  // ---- live effects and divergence exclude each other ----

  lemma {:induction false} CallTouches(h: Host, rec: Recording, s: Resuming, call: ToolCall, env: Env)
    requires Clean(s) && GatesAgree(rec.stream, rec.gates) && s.i < |rec.stream|
    ensures var t := ResumeCall(h, rec, s, call, env).0;
      t.live.(calls := s.live.calls) == s.live || (t.i == |rec.stream| && t.failure.None?)
  {
    hide CompleteApproval, ExecCall;
    if IsGatedCall(rec.stream[s.i]) { assert GateAt(rec.stream, rec.gates, s.i); }
  }

  /** A step acts, on the journal or outside, only once the recorded prefix is exhausted; then it is not
  a divergence. */
  lemma {:induction false} ActsOnlyLive(h: Host, rec: Recording, s: Resuming, op: Op, env: Env)
    requires Clean(s) && GatesAgree(rec.stream, rec.gates) && s.i < |rec.stream|
    ensures var t := ResumeStep(h, rec, s, op, env).0;
      t.live.(calls := s.live.calls) == s.live || (t.i == |rec.stream| && t.failure.None?)
  {
    hide ResumeCall, CompleteModel;
    if op.Call? { CallTouches(h, rec, s, op.call, env); }
  }

  /** After a divergence every further operation fails and changes nothing. */
  lemma {:induction false} DivergedStays(h: Host, rec: Recording, s: Resuming, op: Op, env: Env)
    requires s.failure.Some?
    ensures ResumeStep(h, rec, s, op, env).0 == s && ResumeStep(h, rec, s, op, env).1.Failed?
  {
  }

  /** A run that diverged wrote nothing, called no model and ran no tool. */
  lemma {:induction false} DivergedDidNothing(h: Host, rec: Recording, har: Harness, envs: nat -> Env, s: Resuming, seen: seq<Seen>, budget: nat)
    requires GatesAgree(rec.stream, rec.gates) && s.i <= |rec.stream|
    requires s.failure.None? ==> Clean(s)
    requires ResumeRun(h, rec, har, envs, s, seen, budget).sink.failure.Some?
    ensures var t := ResumeRun(h, rec, har, envs, s, seen, budget).sink; t.live.(calls := s.live.calls) == s.live
    decreases budget
  {
    hide ResumeStep, GatesAgree;
    match har(seen)
    case Return(_) =>
    case Emit(op) =>
      if budget > 0 {
        var r := ResumeStep(h, rec, s, op, envs(|seen|));
        var seen' := seen + [See(r.1)];
        if s.failure.Some? {
          DivergedStays(h, rec, s, op, envs(|seen|));
        } else if s.i == |rec.stream| {
          LiveRunCannotDiverge(h, rec, har, envs, s, seen, budget);
        } else {
          ActsOnlyLive(h, rec, s, op, envs(|seen|));
          if r.0.live.(calls := s.live.calls) != s.live {
            LiveRunCannotDiverge(h, rec, har, envs, r.0, seen', budget - 1);
          } else {
            StaysWithin(h, rec, s, op, envs(|seen|));
          }
        }
        DivergedDidNothing(h, rec, har, envs, r.0, seen', budget - 1);
      }
  }

  lemma {:induction false} StaysWithin(h: Host, rec: Recording, s: Resuming, op: Op, env: Env)
    requires s.i <= |rec.stream| && GatesAgree(rec.stream, rec.gates)
    ensures ResumeStep(h, rec, s, op, env).0.i <= |rec.stream|
  {
    hide LiveModel, LiveOutput, LiveCall, LiveReport, LiveAccount, CompleteApproval, ExecCall, CompleteModel;
  }

  // ---- tool executions ----

  /** Nothing was executed by this step, or one call was, as its record stood last. */
  ghost predicate Executes(h: Host, rec: Recording, s: Resuming, t: Live)
  {
    || t.invocations == s.live.invocations
    || (|t.invocations| == |s.live.invocations| + 1 && t.invocations[..|s.live.invocations|] == s.live.invocations &&
        var inv := t.invocations[|s.live.invocations|];
        && inv.at <= |t.journal|
        && Due(Before(h, t.journal, inv), inv.call)
        && (|Before(h, t.journal, inv)| > |Effects(h, s)| || (s.i < |rec.stream| && Before(h, t.journal, inv) == Effects(h, s))))
  }

  lemma {:induction false} BeforeStays(h: Host, journal: seq<Entry>, longer: seq<Entry>, inv: Invocation)
    requires journal <= longer && inv.at <= |journal|
    ensures Before(h, longer, inv) == Before(h, journal, inv)
  {
    assert longer[..inv.at] == journal[..inv.at];
  }

  lemma {:induction false} ExecRuns(h: Host, s: Live, call: ToolCall, env: Env)
    ensures var t := ExecCall(h, s, call, env).0;
      && s.journal <= t.journal
      && (t.invocations == s.invocations || t.invocations == s.invocations + [Invocation(call, |s.journal|)])
  {
  }

  lemma {:induction false} CompleteRuns(h: Host, s: Live, g: Gate, env: Env)
    requires g.request.Some? && HasDecision(g)
    ensures var t := CompleteApproval(h, s, g, env).0;
      && s.journal <= t.journal
      && (t.invocations == s.invocations ||
          (g.decision.value.event.body.decision.approved && t.invocations == s.invocations + [Invocation(g.call, |s.journal|)]))
  {
  }

  lemma {:induction false} LiveCallExecutes(h: Host, rec: Recording, s: Resuming, call: ToolCall, env: Env)
    ensures Executes(h, rec, s, LiveCall(h, s.live, call, env).0)
  {
    hide EffectsOf, ExecCall;
    var e := Entry(Head(s.live.journal) + 1, Event(h.executionId, KToolCall, BToolCall(call), NO_IDENTITY));
    var called := Put(s.live, h.executionId, KToolCall, BToolCall(call), env.room);
    if !called.fenced && !call.mediation.RequiresApproval? {
      var open := called.(calls := called.calls[call.id := false]);
      ExecRuns(h, open, call, env.(room := env.room - 1));
      EffectsSnoc(s.live.journal, e, h.executionId);
      BeforeStays(h, called.journal, ExecCall(h, open, call, env.(room := env.room - 1)).0.journal, Invocation(call, |called.journal|));
      assert called.journal[..|called.journal|] == called.journal;
    }
  }

  lemma {:induction false} ServedCallExecutes(h: Host, rec: Recording, s: Resuming, call: ToolCall, env: Env)
    requires Clean(s) && GatesAgree(rec.stream, rec.gates) && s.i < |rec.stream| && Effects(h, s) == rec.stream
    ensures Executes(h, rec, s, ResumeCall(h, rec, s, call, env).0.live)
  {
    hide EffectsOf, ExecCall, CompleteApproval;
    if IsCall(rec.stream[s.i]) {
      var recorded := rec.stream[s.i].body.toolCall;
      var live := s.live.(calls := s.live.calls[recorded.id := recorded.mediation.RequiresApproval?]);
      assert s.live.journal[..|s.live.journal|] == s.live.journal;
      if IsGatedCall(rec.stream[s.i]) {
        assert GateAt(rec.stream, rec.gates, s.i);
        if DecidedNext(rec, s.i + 1, recorded.id) {
          var g := rec.gates[recorded.id];
          CompleteRuns(h, live, g, env);
          BeforeStays(h, s.live.journal, CompleteApproval(h, live, g, env).0.journal, Invocation(g.call, |s.live.journal|));
        }
      } else {
        ExecRuns(h, live, recorded, env);
        BeforeStays(h, s.live.journal, ExecCall(h, live, recorded, env).0.journal, Invocation(recorded, |s.live.journal|));
      }
    }
  }

  lemma {:induction false} StepExecutes(h: Host, rec: Recording, s: Resuming, op: Op, env: Env)
    requires Clean(s) && GatesAgree(rec.stream, rec.gates) && Tracks(h, rec, s)
    ensures Executes(h, rec, s, ResumeStep(h, rec, s, op, env).0.live)
  {
    hide EffectsOf, ResumeCall, LiveCall, GatesAgree;
    if op.Call? {
      CallOp(h, rec, s, op.call, env);
      if s.i < |rec.stream| { ServedCallExecutes(h, rec, s, op.call, env); }
      else { LiveCallExecutes(h, rec, s, op.call, env); PastIsLive(h, rec, s, op.call, env); }
    } else {
      OthersExecuteNothing(h, rec, s, op, env);
    }
  }

  lemma {:induction false} PastIsLive(h: Host, rec: Recording, s: Resuming, call: ToolCall, env: Env)
    requires s.i == |rec.stream|
    ensures var t := ResumeCall(h, rec, s, call, env).0.live; t == s.live || t == LiveCall(h, s.live, call, env).0
  {
    hide LiveCall;
  }

  lemma {:induction false} OthersExecuteNothing(h: Host, rec: Recording, s: Resuming, op: Op, env: Env)
    requires !op.Call?
    ensures ResumeStep(h, rec, s, op, env).0.live.invocations == s.live.invocations
  {
  }

  /** The executions of a run that resumed n effects: only the first may be of a call recorded before. */
  ghost predicate Tally(h: Host, n: nat, journal: seq<Entry>, invs: seq<Invocation>)
  {
    && Accounted(h, journal, invs)
    && forall k | 0 <= k < |invs| :: |Before(h, journal, invs[k])| >= n && (k > 0 ==> |Before(h, journal, invs[k])| > n)
  }

  /** What a run keeps about its executions while it is clean. */
  ghost predicate Accounts(h: Host, rec: Recording, s: Resuming)
  {
    && Tally(h, |rec.stream|, s.live.journal, s.live.invocations)
    && Within(h, s.live.journal, s.live.invocations, |Effects(h, s)|)
    && (s.i < |rec.stream| ==> s.live.invocations == [])
  }

  lemma {:induction false} StepAccountsBy(h: Host, rec: Recording, s: Resuming, t: Resuming)
    requires Accounts(h, rec, s) && Executes(h, rec, s, t.live) && s.live.journal <= t.live.journal
    requires Effects(h, s) <= Effects(h, t) && |rec.stream| <= |Effects(h, s)|
    requires t.i < |rec.stream| ==> t.live.invocations == s.live.invocations && s.i < |rec.stream|
    requires t.live.invocations != s.live.invocations ==>
      |Before(h, t.live.journal, t.live.invocations[|t.live.invocations| - 1])| <= |Effects(h, t)|
    ensures Accounts(h, rec, t)
  {
    hide Before, Due;
    var invs := s.live.invocations;
    forall k | 0 <= k < |invs|
      ensures Before(h, t.live.journal, invs[k]) == Before(h, s.live.journal, invs[k])
    {
      BeforeStays(h, s.live.journal, t.live.journal, invs[k]);
    }
  }

  lemma {:induction false} StepAccounts(h: Host, rec: Recording, s: Resuming, op: Op, env: Env)
    requires Tracks(h, rec, s) && Clean(s) && GatesAgree(rec.stream, rec.gates) && Accounts(h, rec, s)
    ensures var t := ResumeStep(h, rec, s, op, env).0;
      Accounts(h, rec, t) && (t.live.fenced ==> t.i == |rec.stream|)
  {
    hide ResumeStep, Accounts, EffectsOf, Due;
    var t := ResumeStep(h, rec, s, op, env).0;
    StepExecutes(h, rec, s, op, env);
    StepGrows(h, rec, s, op, env);
    assert t.live.journal[..|s.live.journal|] == s.live.journal;
    EffectsPrefix(t.live.journal, |s.live.journal|, h.executionId);
    if s.i < |rec.stream| { ActsOnlyLive(h, rec, s, op, env); } else { LiveCannotDiverge(h, rec, s, op, env); }
    if t.live.invocations != s.live.invocations {
      EffectsPrefix(t.live.journal, t.live.invocations[|t.live.invocations| - 1].at, h.executionId);
    }
    StepAccountsBy(h, rec, s, t);
  }

  lemma {:induction false} UncleanExecutesNothing(h: Host, rec: Recording, s: Resuming, op: Op, env: Env)
    requires !Clean(s) && (s.live.fenced ==> s.i == |rec.stream|)
    ensures var t := ResumeStep(h, rec, s, op, env).0;
      t.live.invocations == s.live.invocations && (t.live.fenced ==> t.i == |rec.stream|)
  {
    hide CompleteApproval, ExecCall, CompleteModel;
  }

  lemma {:induction false} UncleanRunExecutesNothing(h: Host, rec: Recording, har: Harness, envs: nat -> Env, s: Resuming, seen: seq<Seen>, budget: nat)
    requires !Clean(s) && (s.live.fenced ==> s.i == |rec.stream|)
    ensures var t := ResumeRun(h, rec, har, envs, s, seen, budget).sink;
      t.live.journal == s.live.journal && t.live.invocations == s.live.invocations
    decreases budget
  {
    hide ResumeStep;
    match har(seen)
    case Return(_) =>
    case Emit(op) =>
      if budget > 0 {
        var r := ResumeStep(h, rec, s, op, envs(|seen|));
        UncleanWritesNothing(h, rec, s, op, envs(|seen|));
        UncleanExecutesNothing(h, rec, s, op, envs(|seen|));
        if Clean(r.0) { CleanBefore(h, rec, s, op, envs(|seen|)); }
        UncleanRunExecutesNothing(h, rec, har, envs, r.0, seen + [See(r.1)], budget - 1);
      }
  }

  lemma {:induction false} RunAccounts(h: Host, rec: Recording, har: Harness, envs: nat -> Env, s: Resuming, seen: seq<Seen>, budget: nat)
    requires Tracks(h, rec, s) && Clean(s) && GatesAgree(rec.stream, rec.gates) && Accounts(h, rec, s)
    ensures var t := ResumeRun(h, rec, har, envs, s, seen, budget).sink;
      Tally(h, |rec.stream|, t.live.journal, t.live.invocations)
    decreases budget
  {
    hide ResumeStep, Tally, EffectsOf;
    match har(seen)
    case Return(_) =>
    case Emit(op) =>
      if budget > 0 {
        var r := ResumeStep(h, rec, s, op, envs(|seen|));
        StepAccounts(h, rec, s, op, envs(|seen|));
        if Clean(r.0) {
          StepTracks(h, rec, s, op, envs(|seen|));
          RunAccounts(h, rec, har, envs, r.0, seen + [See(r.1)], budget - 1);
        } else {
          UncleanRunExecutesNothing(h, rec, har, envs, r.0, seen + [See(r.1)], budget - 1);
        }
      }
  }

  /** However a run of an execution ends: the executor ran only for a call whose record was durable and
  last, so never for one with a recorded result; a gated call only under its approving decision; each
  call record at most once; and at most one of them, the trailing one, was recorded before the run. */
  lemma {:induction false} EffectAccounting(h: Host, journal: seq<Entry>, har: Harness, envs: nat -> Env, budget: nat)
    requires Sound(h, journal)
    ensures var t := RunOn(h, journal, har, envs, budget).sink;
      Tally(h, |EffectsOf(journal, h.executionId)|, t.live.journal, t.live.invocations)
  {
    hide Fold, EntriesOf, ResumeRun, Stream;
    BeginUpheld(h, journal);
    Agreed(h, journal);
    RunAccounts(h, RecordingOf(journal, h.executionId), har, envs, Begin(journal), [], budget);
  }

  /** A run of an execution whose evidence a scan accepted diverged only if it did nothing at all. */
  lemma {:induction false} DivergenceIsClean(h: Host, journal: seq<Entry>, har: Harness, envs: nat -> Env, budget: nat)
    requires Sound(h, journal)
    requires RunOn(h, journal, har, envs, budget).sink.failure.Some?
    ensures Untouched(journal, RunOn(h, journal, har, envs, budget).sink.live)
  {
    hide Fold, EntriesOf, ResumeRun, Stream;
    Agreed(h, journal);
    DivergedDidNothing(h, RecordingOf(journal, h.executionId), har, envs, Begin(journal), [], budget);
  }

  // ---- over crashes and recoveries ----

  /** One run of an execution: what it started from, and how much of what it wrote was durable when it
  ended or crashed. */
  datatype Turn = Turn(start: seq<Entry>, har: Harness, envs: nat -> Env, budget: nat, crash: nat)

  function Ran(h: Host, t: Turn): Live
    requires Sound(h, t.start)
  {
    RunOn(h, t.start, t.har, t.envs, t.budget).sink.live
  }

  /** The effects that survive the run. */
  function Survives(h: Host, t: Turn): seq<Event>
    requires Sound(h, t.start) && t.crash <= |Ran(h, t).journal|
  {
    EffectsOf(Ran(h, t).journal[..t.crash], h.executionId)
  }

  /** Runs of one execution, each starting from at least what survived the one before. */
  ghost predicate History(h: Host, turns: seq<Turn>)
  {
    && (forall t | t in turns :: Sound(h, t.start) && |t.start| <= t.crash <= |Ran(h, t).journal|)
    && (forall k | 0 < k < |turns| :: Survives(h, turns[k - 1]) <= EffectsOf(turns[k].start, h.executionId))
  }

  /** How often the executor ran, before the crash, with n effects durable: the one call that the last of
  them left unanswered. */
  function Executed(h: Host, journal: seq<Entry>, crash: nat, invs: seq<Invocation>, n: nat): nat
    requires forall k | 0 <= k < |invs| :: invs[k].at <= |journal|
  {
    if invs == [] then 0
    else
      var last := invs[|invs| - 1];
      Executed(h, journal, crash, invs[..|invs| - 1], n) + if last.at <= crash && |Before(h, journal, last)| == n then 1 else 0
  }

  function ExecutedIn(h: Host, t: Turn, n: nat): nat
    requires Sound(h, t.start)
  {
    EffectAccounting(h, t.start, t.har, t.envs, t.budget);
    Executed(h, Ran(h, t).journal, t.crash, Ran(h, t).invocations, n)
  }

  lemma {:induction false} RunsOnce(h: Host, journal: seq<Entry>, crash: nat, invs: seq<Invocation>, n: nat)
    requires Accounted(h, journal, invs) && crash <= |journal|
    ensures Executed(h, journal, crash, invs, n) <= 1
    ensures Executed(h, journal, crash, invs, n) > 0 ==>
      exists k | 0 <= k < |invs| :: invs[k].at <= crash && |Before(h, journal, invs[k])| == n
  {
    hide EffectsOf;
    if invs != [] {
      var init := invs[..|invs| - 1];
      assert forall k | 0 <= k < |init| :: init[k] == invs[k];
      RunsOnce(h, journal, crash, init, n);
    }
  }

  /** A run executes each call record at most once, only while it is the last effect, and one recorded
  before the run only if the run found it trailing. */
  lemma {:induction false} TurnRuns(h: Host, t: Turn, n: nat)
    requires Sound(h, t.start) && |t.start| <= t.crash <= |Ran(h, t).journal|
    ensures ExecutedIn(h, t, n) <= 1
    ensures EffectsOf(t.start, h.executionId) <= Survives(h, t)
    ensures ExecutedIn(h, t, n) > 0 ==> |EffectsOf(t.start, h.executionId)| <= n <= |Survives(h, t)|
  {
    var journal, invs := Ran(h, t).journal, Ran(h, t).invocations;
    EffectAccounting(h, t.start, t.har, t.envs, t.budget);
    RunGrows(h, RecordingOf(t.start, h.executionId), t.har, t.envs, Begin(t.start), [], t.budget);
    RunsOnce(h, journal, t.crash, invs, n);
    hide EffectsOf, ResumeRun, Fold, EntriesOf;
    assert journal[..t.crash][..|t.start|] == t.start;
    EffectsPrefix(journal[..t.crash], |t.start|, h.executionId);
    if ExecutedIn(h, t, n) > 0 {
      var k :| 0 <= k < |invs| && invs[k].at <= t.crash && |Before(h, journal, invs[k])| == n;
      assert journal[..t.crash][..invs[k].at] == journal[..invs[k].at];
      EffectsPrefix(journal[..t.crash], invs[k].at, h.executionId);
    }
  }

  function Total(h: Host, turns: seq<Turn>, n: nat): nat
    requires forall t | t in turns :: Sound(h, t.start)
  {
    if turns == [] then 0 else Total(h, turns[..|turns| - 1], n) + ExecutedIn(h, turns[|turns| - 1], n)
  }

  /** How many of the runs started with exactly n effects, so found the n-th trailing. */
  function Found(h: Host, turns: seq<Turn>, n: nat): nat
  {
    if turns == [] then 0
    else Found(h, turns[..|turns| - 1], n) + if |EffectsOf(turns[|turns| - 1].start, h.executionId)| == n then 1 else 0
  }

  lemma {:induction false} HistoryInit(h: Host, turns: seq<Turn>)
    requires History(h, turns) && turns != []
    ensures History(h, turns[..|turns| - 1])
  {
    var init := turns[..|turns| - 1];
    forall t | t in init
      ensures Sound(h, t.start) && |t.start| <= t.crash <= |Ran(h, t).journal|
    {
      assert t in turns;
    }
  }

  /** Over any run of an execution, its crashes and its recoveries: each call record is executed at most
  once plus once per recovery that found it trailing. */
  lemma {:induction false} CallsRunOncePerRecovery(h: Host, turns: seq<Turn>, n: nat)
    requires History(h, turns)
    ensures Total(h, turns, n) <= Found(h, turns, n) + 1
    ensures turns != [] && n > |Survives(h, turns[|turns| - 1])| ==> Total(h, turns, n) <= Found(h, turns, n)
  {
    hide Sound, ExecutedIn, EffectsOf, Survives, Ran;
    if turns != [] {
      var init, last := turns[..|turns| - 1], turns[|turns| - 1];
      HistoryInit(h, turns);
      CallsRunOncePerRecovery(h, init, n);
      assert last in turns;
      TurnRuns(h, last, n);
      if init != [] {
        assert init[|init| - 1] == turns[|turns| - 2];
        assert Survives(h, init[|init| - 1]) <= EffectsOf(last.start, h.executionId);
      }
    }
  }
}
