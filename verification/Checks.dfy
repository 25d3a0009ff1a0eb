/** What the checks of a session's processes are for (placement/placement.go).

A checkpoint supersedes the connections it finds, a fork and a recovery compare the head with the one they were
asked about, and a decision is appended at the head it was read at. Over every interleaving of the processes:
whoever a check is against does not get past it, and each record is of the kind its writer writes. */
module Checks {
  import opened Api
  import opened Checkpoint
  import opened Cursors

  // ---- superseded turns ----

  /** The turn has not started to run its harness, or has not got past the check of its park. */
  predicate Before(p: Proc, unstarted: bool)
  {
    p.Turn? && (p.tpc in {Idle, EarlyMarked, EarlyMinted, Ready, Opened, RemintMarked, RemintMinted, Fenced, Settled, TurnDone} ||
                (!unstarted && p.tpc in {Running, ParkMarked}))
  }

  predicate Superseded(s: State, id: Id, unstarted: bool)
  {
    id in s.procs && id in s.superseded && Before(s.procs[id], unstarted)
  }

  lemma {:induction false} StaysSuperseded(s: State, c: Choice, id: Id, unstarted: bool)
    requires Superseded(s, id, unstarted)
    ensures Superseded(Act(s, c.id, c.action), id, unstarted)
  {
    ActSteps(s, c.id, c.action);
    SupersededGrow(s, c.id, c.action);
    if c.id != id { hide Act; }
  }

  lemma {:induction false} SupersededGrow(s: State, id: Id, a: Action)
    ensures s.superseded <= Act(s, id, a).superseded
  {
  }

  /** A turn that a checkpoint superseded before it started never runs its harness, and one that was superseded
  while it ran never suspends the session. */
  lemma {:induction false} SupersededStops(s: State, run: seq<Choice>, id: Id, unstarted: bool)
    requires Superseded(s, id, unstarted)
    ensures Superseded(After(s, run), id, unstarted)
  {
    hide Act, Superseded;
    if run != [] {
      SupersededStops(s, run[..|run| - 1], id, unstarted);
      StaysSuperseded(After(s, run[..|run| - 1]), run[|run| - 1], id, unstarted);
    }
  }

  // ---- forks of a journal that has moved on ----

  /** The fork has not made its n-th check of the head, or is over. */
  predicate Unpassed(pc: ForkPc, n: nat)
  {
    || pc in {Planned, ForkDone}
    || (n > 0 && pc in {Checked0, Begun, FencedOnce})
    || (n > 1 && pc in {Checked1, Waited, FencedTwice})
  }

  predicate Missed(s: State, id: Id, n: nat)
  {
    id in s.procs && s.procs[id].Forking? && Unpassed(s.procs[id].fpc, n) && |s.log| > s.procs[id].atSeq
  }

  lemma {:induction false} StaysMissed(s: State, c: Choice, id: Id, n: nat)
    requires Missed(s, id, n)
    ensures Missed(Act(s, c.id, c.action), id, n)
  {
    ActSteps(s, c.id, c.action);
    if c.id != id { hide Act; }
  }

  /** Once the journal has moved past the fork point, a fork gets past none of the checks it has still to make: not
  the one before it takes the mark, not the ones after each of its fences. */
  lemma {:induction false} MissedForkStops(s: State, run: seq<Choice>, id: Id, n: nat)
    requires Missed(s, id, n)
    ensures Missed(After(s, run), id, n)
  {
    hide Act, Missed;
    if run != [] {
      MissedForkStops(s, run[..|run| - 1], id, n);
      StaysMissed(After(s, run[..|run| - 1]), run[|run| - 1], id, n);
    }
  }

  // ---- decisions and suspensions ----

  /** The decision was read at this head: it is still to be recorded there, or was, or was not recorded. */
  predicate ReadAt(s: State, id: Id, head: nat)
  {
    && id in s.procs && s.procs[id].Write? && s.procs[id].early && head <= |s.log|
    && match s.procs[id].wpc
       case Waiting => false
       case Marked => false
       case Recorded => |s.log| > head && s.log[head].writer == id
       case WriteDone => true
       case _ => s.procs[id].head == head
  }

  lemma {:induction false} StaysReadAt(s: State, c: Choice, id: Id, head: nat)
    requires ReadAt(s, id, head)
    ensures ReadAt(Act(s, c.id, c.action), id, head)
  {
    ActSteps(s, c.id, c.action);
    if c.id != id {
      hide Act;
      var t := Act(s, c.id, c.action);
      if |s.log| > head { assert t.log[head] == t.log[..|s.log|][head]; }
    }
  }

  /** However the other processes interleave, a decision that is recorded is the record right after the journal it
  was judged on. */
  lemma {:induction false} DecisionIsFresh(s: State, run: seq<Choice>, id: Id)
    requires id in s.procs && s.procs[id].Write? && s.procs[id].early && s.procs[id].wpc.Marked?
    ensures ReadAt(After(Act(s, id, Advance), run), id, |s.log|)
  {
    hide Act, ReadAt;
    if run != [] {
      var t := Act(s, id, Advance);
      DecisionIsFresh(s, run[..|run| - 1], id);
      StaysReadAt(After(t, run[..|run| - 1]), run[|run| - 1], id, |s.log|);
    } else {
      Inspects(s, id);
    }
  }

  lemma {:induction false} Inspects(s: State, id: Id)
    requires id in s.procs && s.procs[id].Write? && s.procs[id].early && s.procs[id].wpc.Marked?
    ensures ReadAt(Act(s, id, Advance), id, |s.log|)
  {
  }

  /** The process has written the SUSPEND it was for. */
  predicate HasSuspended(p: Proc)
  {
    match p
    case Turn(pc, _, _, _) => pc.ParkRecorded?
    case Write(pc, early, _, _) => pc.Recorded? && !early
    case Forking(pc, _, _, _, _) => pc.Suspended?
    case _ => false
  }

  /** A record of this kind is one this process writes. */
  predicate Writes(p: Proc, suspend: bool)
  {
    match p
    case Turn(pc, _, _, _) => suspend ==> pc.ParkRecorded? || pc.TurnDone?
    case Write(_, early, _, _) => suspend == !early
    case Repair(_, _, _) => !suspend
    case Bare(_, _, _) => !suspend
    case Forking(_, _, _, _, _) => suspend
  }

  ghost predicate KindsMatch(s: State)
  {
    && (forall k | 0 <= k < |s.log| :: s.log[k].writer in s.procs && Writes(s.procs[s.log[k].writer], s.log[k].suspend))
    && (forall id | id in s.procs && HasSuspended(s.procs[id]) :: exists k :: 0 <= k < |s.log| && s.log[k].writer == id && s.log[k].suspend)
  }

  /** What a step makes of its process agrees with what it writes. */
  ghost predicate KindStep(s: State, t: State, id: Id)
  {
    && (id in s.procs ==> id in t.procs && forall suspend | Writes(s.procs[id], suspend) :: Writes(t.procs[id], suspend))
    && (t.log != s.log ==> |t.log| > |s.log| && id in t.procs && Writes(t.procs[id], t.log[|s.log|].suspend))
    && (id in t.procs && HasSuspended(t.procs[id]) ==>
          (id in s.procs && HasSuspended(s.procs[id])) || (|t.log| > |s.log| && t.log[|s.log|].suspend))
  }

  lemma {:induction false} TurnKinds(s: State, id: Id)
    requires id in s.procs && s.procs[id].Turn?
    ensures KindStep(s, TurnStep(s, id, s.procs[id]), id)
  {
  }

  lemma {:induction false} ForkKinds(s: State, id: Id)
    requires id in s.procs && s.procs[id].Forking?
    ensures KindStep(s, ForkStep(s, id, s.procs[id]), id)
  {
  }

  lemma {:induction false} OtherKinds(s: State, id: Id)
    requires id in s.procs
    ensures s.procs[id].Write? ==> KindStep(s, WriteStep(s, id, s.procs[id]), id)
    ensures s.procs[id].Repair? ==> KindStep(s, RepairStep(s, id, s.procs[id]), id)
    ensures s.procs[id].Bare? ==> KindStep(s, BareStep(s, id, s.procs[id]), id)
  {
  }

  lemma {:induction false} ActKinds(s: State, id: Id, a: Action)
    ensures KindStep(s, Act(s, id, a), id)
  {
    if a.Advance? && id in s.procs {
      hide KindStep, TurnStep, WriteStep, RepairStep, BareStep, ForkStep;
      match s.procs[id]
      case Turn(_, _, _, _) => TurnKinds(s, id);
      case Forking(_, _, _, _, _) => ForkKinds(s, id);
      case _ => OtherKinds(s, id);
    }
  }

  lemma {:induction false} KindsStay(s: State, t: State, id: Id)
    requires KindsMatch(s) && Steps(s, t, id) && KindStep(s, t, id)
    ensures KindsMatch(t)
  {
    hide Writes, HasSuspended, Minted;
    forall k | 0 <= k < |t.log|
      ensures t.log[k].writer in t.procs && Writes(t.procs[t.log[k].writer], t.log[k].suspend)
    {
      if k < |s.log| { assert t.log[k] == s.log[k]; }
    }
    forall f | f in t.procs && HasSuspended(t.procs[f])
      ensures exists k :: 0 <= k < |t.log| && t.log[k].writer == f && t.log[k].suspend
    {
      if f in s.procs && HasSuspended(s.procs[f]) {
        var k :| 0 <= k < |s.log| && s.log[k].writer == f && s.log[k].suspend;
        assert t.log[k] == s.log[k];
      } else {
        assert t.log[|s.log|].writer == f;
      }
    }
  }

  /** Over every interleaving: a suspension and a fork write only SUSPEND records, a decision and a repair none, a
  turn one only when it has parked; and a process that goes on as having suspended the session has. */
  lemma {:induction false} RecordsAreOfTheirKind(run: seq<Choice>)
    ensures KindsMatch(After(START, run))
  {
    hide Act, KindsMatch, Steps, KindStep;
    if run != [] {
      var s, last := After(START, run[..|run| - 1]), run[|run| - 1];
      RecordsAreOfTheirKind(run[..|run| - 1]);
      ActSteps(s, last.id, last.action);
      ActKinds(s, last.id, last.action);
      KindsStay(s, Act(s, last.id, last.action), last.id);
    } else {
      NoneWritten();
    }
  }

  lemma {:induction false} NoneWritten()
    ensures KindsMatch(START)
  {
  }
}
