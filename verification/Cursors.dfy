/** The cursor of a recovery (placement.Resume with an expected head, placement/placement.go).

A recovery that was given the head it expects checks it after each fence it mints. Over every interleaving of
the session's processes: it goes on only while nothing but its own records follows that head, and once the
journal has moved on before its check it never opens a harness, or never runs it. */
module Cursors {
  import opened Api
  import opened Checkpoint

  /** The turn has minted the fence it writes under, and the head was still its cursor after that. */
  predicate Checked(p: Proc)
  {
    p.Turn? && p.tpc in {Fenced, Settled, Running, ParkMarked, ParkInspected, ParkClosed}
  }

  /** The process has minted the fence it would write under. */
  predicate Minted(p: Proc)
  {
    match p
    case Turn(pc, _, _, _) => pc.RemintMinted? || Checked(p)
    case Write(pc, _, _, _) => pc.MarkMinted? || pc.Targeted?
    case Repair(pc, _, _) => pc.RepairMinted? || pc.RepairFree?
    case Bare(pc, _, _) => pc.BareMinted?
    case Forking(pc, _, _, _, _) => Stage(pc) >= 6
  }

  /** Every process writes under a fence of its own. */
  ghost predicate OwnFences(s: State)
  {
    && (forall a | a in s.procs :: FenceOf(s.procs[a]) <= s.fence && (Minted(s.procs[a]) ==> FenceOf(s.procs[a]) > 0))
    && (forall a, b | a in s.procs && b in s.procs && a != b && FenceOf(s.procs[a]) > 0 :: FenceOf(s.procs[a]) != FenceOf(s.procs[b]))
  }

  /** While its fence is the newest, nothing but its own records follows the cursor a recovery was given. */
  ghost predicate CursorHolds(s: State, id: Id)
    requires id in s.procs
  {
    var p := s.procs[id];
    Checked(p) && p.cursor.Some? && p.fence == s.fence ==>
      |s.log| >= p.cursor.value && forall k | p.cursor.value <= k < |s.log| :: s.log[k].writer == id
  }

  ghost predicate Held(s: State)
  {
    OwnFences(s) && forall id | id in s.procs :: CursorHolds(s, id)
  }

  /** A step changes its own process only, which keeps its fence or mints the next one; it writes at most one
  record, under a fence it minted before and that is still the newest. */
  ghost predicate Steps(s: State, t: State, id: Id)
  {
    && (forall a | a != id :: a in t.procs <==> a in s.procs)
    && (forall a | a in s.procs && a != id :: t.procs[a] == s.procs[a])
    && (id in s.procs ==> id in t.procs)
    && s.fence <= t.fence
    && (id in t.procs ==>
          var q := t.procs[id];
          || (FenceOf(q) == t.fence && t.fence == s.fence + 1)
          || (id in s.procs && FenceOf(q) == FenceOf(s.procs[id]) && (Minted(q) ==> Minted(s.procs[id])))
          || (id !in s.procs && FenceOf(q) == 0 && !Minted(q)))
    && (t.log == s.log ||
        (&& id in s.procs && Minted(s.procs[id]) && FenceOf(s.procs[id]) >= s.fence && t.fence == s.fence
         && |t.log| == |s.log| + 1 && t.log[..|s.log|] == s.log && t.log[|s.log|].writer == id))
  }

  /** A turn with a cursor gets past its last check only when the head is its cursor. */
  ghost predicate ChecksHead(s: State, t: State, id: Id)
  {
    id in t.procs && Checked(t.procs[id]) && t.procs[id].cursor.Some? ==>
      && id in s.procs && s.procs[id].Turn? && s.procs[id].cursor == t.procs[id].cursor && FenceOf(s.procs[id]) == FenceOf(t.procs[id])
      && (!Checked(s.procs[id]) ==> t.log == s.log && |s.log| == t.procs[id].cursor.value)
  }

  lemma {:induction false} TurnSteps(s: State, id: Id)
    requires id in s.procs && s.procs[id].Turn?
    ensures var t := TurnStep(s, id, s.procs[id]); Steps(s, t, id) && ChecksHead(s, t, id)
  {
    hide Steps, ChecksHead, TurnStep;
    if s.procs[id].tpc in {Idle, EarlyMarked, EarlyMinted, Ready, Opened, RemintMarked, RemintMinted} {
      EarlyTurnSteps(s, id);
    } else {
      LateTurnSteps(s, id);
    }
  }

  lemma {:induction false} EarlyTurnSteps(s: State, id: Id)
    requires id in s.procs && s.procs[id].Turn?
    requires s.procs[id].tpc in {Idle, EarlyMarked, EarlyMinted, Ready, Opened, RemintMarked, RemintMinted}
    ensures var t := TurnStep(s, id, s.procs[id]); Steps(s, t, id) && ChecksHead(s, t, id)
  {
  }

  lemma {:induction false} LateTurnSteps(s: State, id: Id)
    requires id in s.procs && s.procs[id].Turn?
    requires s.procs[id].tpc !in {Idle, EarlyMarked, EarlyMinted, Ready, Opened, RemintMarked, RemintMinted}
    ensures var t := TurnStep(s, id, s.procs[id]); Steps(s, t, id) && ChecksHead(s, t, id)
  {
  }

  lemma {:induction false} WriteSteps(s: State, id: Id)
    requires id in s.procs && s.procs[id].Write?
    ensures var t := WriteStep(s, id, s.procs[id]); Steps(s, t, id) && ChecksHead(s, t, id)
  {
  }

  lemma {:induction false} RepairSteps(s: State, id: Id)
    requires id in s.procs
    ensures s.procs[id].Repair? ==> var t := RepairStep(s, id, s.procs[id]); Steps(s, t, id) && ChecksHead(s, t, id)
    ensures s.procs[id].Bare? ==> var t := BareStep(s, id, s.procs[id]); Steps(s, t, id) && ChecksHead(s, t, id)
  {
  }

  lemma {:induction false} ForkSteps(s: State, id: Id)
    requires id in s.procs && s.procs[id].Forking?
    ensures var t := ForkStep(s, id, s.procs[id]); Steps(s, t, id) && ChecksHead(s, t, id)
  {
    hide Steps, ChecksHead, ForkStep;
    if Stage(s.procs[id].fpc) < 5 { EarlyForkSteps(s, id); } else { LateForkSteps(s, id); }
  }

  lemma {:induction false} EarlyForkSteps(s: State, id: Id)
    requires id in s.procs && s.procs[id].Forking? && Stage(s.procs[id].fpc) < 5
    ensures var t := ForkStep(s, id, s.procs[id]); Steps(s, t, id) && ChecksHead(s, t, id)
  {
  }

  lemma {:induction false} LateForkSteps(s: State, id: Id)
    requires id in s.procs && s.procs[id].Forking? && Stage(s.procs[id].fpc) >= 5
    ensures var t := ForkStep(s, id, s.procs[id]); Steps(s, t, id) && ChecksHead(s, t, id)
  {
  }

  lemma {:induction false} ActSteps(s: State, id: Id, a: Action)
    ensures Steps(s, Act(s, id, a), id) && ChecksHead(s, Act(s, id, a), id)
  {
    if a.Advance? && id in s.procs {
      hide Steps, ChecksHead, TurnStep, WriteStep, RepairStep, BareStep, ForkStep;
      match s.procs[id]
      case Turn(_, _, _, _) => TurnSteps(s, id);
      case Write(_, _, _, _) => WriteSteps(s, id);
      case Forking(_, _, _, _, _) => ForkSteps(s, id);
      case _ => RepairSteps(s, id);
    }
  }

  lemma {:induction false} StepHolds(s: State, t: State, id: Id)
    requires Held(s) && Steps(s, t, id) && ChecksHead(s, t, id)
    ensures Held(t)
  {
    hide Minted, Checked;
    forall a | a in t.procs
      ensures CursorHolds(t, a)
    {
      if a in s.procs { assert CursorHolds(s, a); }
    }
  }

  /** Over every interleaving of turns, recoveries, repairs, suspensions, decisions and forks: while the fence of a
  recovery with a cursor is the newest, so that it can write at all, what follows its cursor in the journal is
  its own records. */
  lemma {:induction false} CursorExcludesOthers(run: seq<Choice>)
    ensures Held(After(START, run))
  {
    hide Act, Held, Steps, ChecksHead;
    if run != [] {
      var s, last := After(START, run[..|run| - 1]), run[|run| - 1];
      CursorExcludesOthers(run[..|run| - 1]);
      ActSteps(s, last.id, last.action);
      StepHolds(s, Act(s, last.id, last.action), last.id);
    } else {
      StartHolds();
    }
  }

  lemma {:induction false} StartHolds()
    ensures Held(START)
  {
  }

  // ---- a journal that has moved on ----

  /** The recovery has not opened its harness. */
  predicate Unopened(p: Proc)
  {
    p.Turn? && p.tpc in {Idle, EarlyMarked, EarlyMinted}
  }

  /** The recovery has not made its last check. */
  predicate Unchecked(p: Proc)
  {
    p.Turn? && p.tpc in {Idle, EarlyMarked, EarlyMinted, Ready, Opened, RemintMarked, RemintMinted}
  }

  /** The recovery was given a cursor that the journal has moved past, and has stopped, or is still before its
  last check; before its first one, if it was. */
  predicate Outrun(s: State, id: Id, unopened: bool)
  {
    && id in s.procs && s.procs[id].Turn? && s.procs[id].cursor.Some? && |s.log| > s.procs[id].cursor.value
    && (s.procs[id].tpc.TurnDone? || (if unopened then Unopened(s.procs[id]) else Unchecked(s.procs[id])))
  }

  lemma {:induction false} StaysOutrun(s: State, c: Choice, id: Id, unopened: bool)
    requires Outrun(s, id, unopened)
    ensures Outrun(Act(s, c.id, c.action), id, unopened)
  {
    ActSteps(s, c.id, c.action);
    if c.id != id { hide Act; }
  }

  /** Once the journal has moved past its cursor, a recovery that has not made its last check never runs its
  harness, and one that has not made its first check never opens it. */
  lemma {:induction false} OutrunNeverRuns(s: State, run: seq<Choice>, id: Id, unopened: bool)
    requires Outrun(s, id, unopened)
    ensures Outrun(After(s, run), id, unopened)
  {
    hide Act, Outrun;
    if run != [] {
      OutrunNeverRuns(s, run[..|run| - 1], id, unopened);
      StaysOutrun(After(s, run[..|run| - 1]), run[|run| - 1], id, unopened);
    }
  }
}
