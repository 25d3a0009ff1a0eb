/** Turns, suspensions, decisions and stateful forks on one session (placement/placement.go).

Every operation is a process that takes one atomic step at a time; steps of different processes
interleave in any order. They share the journal with its newest fence, the session's checkpoint mark,
and the open harness connections, each with its "superseded" and "minted" signals. A process may stop
between any two steps for reasons of its own; it then gives back what it holds. */
module Checkpoint {
  import opened Api

  type Id = nat

  /** What a record says about its writer. */
  datatype Written = Written(writer: Id, fence: nat, suspend: bool)

  datatype TurnPc =
    | Idle            // a recovery with a cursor starts here, any other turn at Ready
    | EarlyMarked
    | EarlyMinted
    | Ready
    | Opened          // connection registered
    | RemintMarked
    | RemintMinted
    | Fenced          // fence minted, signal not yet given
    | Settled         // signal given
    | Running         // superseded flag was clear after minting
    | ParkMarked
    | ParkInspected   // the head is captured
    | ParkClosed      // connection released, compute to be snapshotted
    | ParkRecorded
    | TurnDone

  datatype WritePc = Waiting | Marked | Inspected | MarkMinted | Targeted | Recorded | WriteDone

  datatype RepairPc = Found | RepairMarked | RepairMinted | RepairFree | RepairDone

  datatype BarePc = BareFound | BareMinted | BareDone

  datatype ForkPc =
    | Planned
    | Checked0
    | Begun           // mark held, open connections superseded
    | FencedOnce
    | Checked1
    | Waited          // every superseded connection has minted or returned
    | FencedTwice
    | Checked2
    | Snapshotted
    | Suspended
    | ForkDone

  datatype Proc =
    | Turn(tpc: TurnPc, cursor: Option<nat>, fence: nat, head: nat)
    | Write(wpc: WritePc, early: bool, fence: nat, head: nat)   // Suspend, or Approve which reads the head early
    | Repair(rpc: RepairPc, fence: nat, head: nat)              // recovery's repair of a missing request, with a cursor
    | Bare(bpc: BarePc, fence: nat, head: nat)                  // the same without a cursor: it never takes the mark
    | Forking(fpc: ForkPc, atSeq: nat, open: set<Id>, fence: nat, failed: bool)

  /** The session: its journal, its checkpoint mark, its connections, and the running processes. */
  datatype State = State(
    log: seq<Written>,
    fence: nat,
    mark: Option<Id>,
    live: set<Id>,
    superseded: set<Id>,
    minted: set<Id>,
    procs: map<Id, Proc>)

  const START := State([], 0, None, {}, {}, {}, map[])

  datatype Action =
    | SpawnTurn(cursor: Option<nat>)
    | SpawnWrite(early: bool)
    | SpawnRepair(head: nat)
    | SpawnBare
    | SpawnFork(atSeq: nat)
    | Advance         // the next step of the process
    | Append          // one more record of a running turn
    | Park            // a running turn was asked to park
    | GiveUp          // the process stops here and gives back what it holds

  function With(s: State, id: Id, p: Proc): State
  {
    s.(procs := s.procs[id := p])
  }

  /** Takes the mark for a process if it is free. */
  function TakeMark(s: State, id: Id, p: Proc): State
  {
    if s.mark.None? then With(s.(mark := Some(id)), id, p) else s
  }

  function DropMark(s: State, id: Id, p: Proc): State
  {
    With(s.(mark := None), id, p)
  }

  /** Commits a record iff the writer's head is the head and its fence is not stale. */
  function Commits(s: State, expected: nat, fence: nat): bool
  {
    expected == |s.log| && fence >= s.fence
  }

  function Commit(s: State, id: Id, fence: nat, suspend: bool): State
  {
    s.(log := s.log + [Written(id, fence, suspend)])
  }

  /** Registers a connection unless the session is being checkpointed. */
  function Open(s: State, id: Id, p: Proc): State
  {
    if s.mark.Some? then s else With(s.(live := s.live + {id}), id, p)
  }

  /** Deregisters a connection and gives its minted signal. */
  function Close(s: State, id: Id, p: Proc): State
  {
    With(s.(live := s.live - {id}, minted := s.minted + {id}), id, p)
  }

  function TurnStep(s: State, id: Id, p: Proc): State
    requires p.Turn?
  {
    match p.tpc
    case Idle => TakeMark(s, id, p.(tpc := EarlyMarked))
    case EarlyMarked => With(s.(fence := s.fence + 1), id, p.(tpc := EarlyMinted))
    case EarlyMinted => DropMark(s, id, p.(tpc := if p.cursor == Some(|s.log|) then Ready else TurnDone))
    case Ready => Open(s, id, p.(tpc := Opened))
    case Opened =>
      if p.cursor.Some? then TakeMark(s, id, p.(tpc := RemintMarked))
      else With(s.(fence := s.fence + 1), id, p.(tpc := Fenced, fence := s.fence + 1))
    case RemintMarked => With(s.(fence := s.fence + 1), id, p.(tpc := RemintMinted, fence := s.fence + 1))
    case RemintMinted =>
      if p.cursor == Some(|s.log|) then DropMark(s, id, p.(tpc := Fenced))
      else Close(s.(mark := None), id, p.(tpc := TurnDone))
    case Fenced => With(s.(minted := s.minted + {id}), id, p.(tpc := Settled))
    case Settled =>
      if id in s.superseded then Close(s, id, p.(tpc := TurnDone)) else With(s, id, p.(tpc := Running))
    case Running => Close(s, id, p.(tpc := TurnDone))
    case ParkMarked =>
      if id in s.superseded then Close(s.(mark := None), id, p.(tpc := TurnDone)) else With(s, id, p.(tpc := ParkInspected, head := |s.log|))
    case ParkInspected => Close(s, id, p.(tpc := ParkClosed))
    case ParkClosed =>
      if Commits(s, p.head, p.fence) then With(Commit(s, id, p.fence, true), id, p.(tpc := ParkRecorded))
      else DropMark(s, id, p.(tpc := TurnDone))
    case ParkRecorded => DropMark(s, id, p.(tpc := TurnDone))
    case TurnDone => s
  }

  /** A suspension reads the head after minting its fence, a decision before. */
  function WriteStep(s: State, id: Id, p: Proc): State
    requires p.Write?
  {
    match p.wpc
    case Waiting => TakeMark(s, id, p.(wpc := Marked))
    case Marked => With(s, id, p.(wpc := Inspected, head := |s.log|))
    case Inspected => With(s.(fence := s.fence + 1), id, p.(wpc := MarkMinted, fence := s.fence + 1))
    case MarkMinted => With(s, id, p.(wpc := Targeted, head := if p.early then p.head else |s.log|))
    case Targeted =>
      if Commits(s, p.head, p.fence) then With(Commit(s, id, p.fence, !p.early), id, p.(wpc := Recorded))
      else DropMark(s, id, p.(wpc := WriteDone))
    case Recorded => DropMark(s, id, p.(wpc := WriteDone))
    case WriteDone => s
  }

  function RepairStep(s: State, id: Id, p: Proc): State
    requires p.Repair?
  {
    match p.rpc
    case Found => TakeMark(s, id, p.(rpc := RepairMarked))
    case RepairMarked => With(s.(fence := s.fence + 1), id, p.(rpc := RepairMinted, fence := s.fence + 1))
    case RepairMinted => DropMark(s, id, p.(rpc := if |s.log| == p.head then RepairFree else RepairDone))
    case RepairFree =>
      if Commits(s, p.head, p.fence) then With(Commit(s, id, p.fence, false), id, p.(rpc := RepairDone))
      else With(s, id, p.(rpc := RepairDone))
    case RepairDone => s
  }

  /** Without a cursor nothing is marked and no head is checked: the fence is minted, and the request is
  appended at the head the recovery had read. */
  function BareStep(s: State, id: Id, p: Proc): State
    requires p.Bare?
  {
    match p.bpc
    case BareFound => With(s.(fence := s.fence + 1), id, p.(bpc := BareMinted, fence := s.fence + 1))
    case BareMinted =>
      if Commits(s, p.head, p.fence) then With(Commit(s, id, p.fence, false), id, p.(bpc := BareDone))
      else With(s, id, p.(bpc := BareDone))
    case BareDone => s
  }

  function ForkStep(s: State, id: Id, p: Proc): State
    requires p.Forking?
  {
    match p.fpc
    case Planned => With(s, id, p.(fpc := if |s.log| == p.atSeq then Checked0 else ForkDone))
    case Checked0 =>
      if s.mark.Some? then s
      else With(s.(mark := Some(id), superseded := s.superseded + s.live), id, p.(fpc := Begun, open := s.live))
    case Begun => With(s.(fence := s.fence + 1), id, p.(fpc := FencedOnce))
    case FencedOnce =>
      if |s.log| == p.atSeq then With(s, id, p.(fpc := Checked1)) else DropMark(s, id, p.(fpc := ForkDone))
    case Checked1 => if p.open <= s.minted then With(s, id, p.(fpc := Waited)) else s
    case Waited => With(s.(fence := s.fence + 1), id, p.(fpc := FencedTwice, fence := s.fence + 1))
    case FencedTwice =>
      if |s.log| == p.atSeq then With(s, id, p.(fpc := Checked2)) else DropMark(s, id, p.(fpc := ForkDone))
    case Checked2 => With(s, id, p.(fpc := Snapshotted))
    case Snapshotted =>
      if Commits(s, p.atSeq, p.fence) then With(Commit(s, id, p.fence, true), id, p.(fpc := Suspended))
      else DropMark(s, id, p.(fpc := ForkDone, failed := true))
    case Suspended => DropMark(s, id, p.(fpc := ForkDone))
    case ForkDone => s
  }

  predicate HoldsMark(p: Proc)
  {
    match p
    case Turn(pc, _, _, _) => pc in {EarlyMarked, EarlyMinted, RemintMarked, RemintMinted, ParkMarked, ParkInspected, ParkClosed, ParkRecorded}
    case Write(pc, _, _, _) => pc in {Marked, Inspected, MarkMinted, Targeted, Recorded}
    case Repair(pc, _, _) => pc in {RepairMarked, RepairMinted}
    case Bare(_, _, _) => false
    case Forking(pc, _, _, _, _) => pc !in {Planned, Checked0, ForkDone}
  }

  predicate Connected(p: Proc)
  {
    p.Turn? && p.tpc in {Opened, RemintMarked, RemintMinted, Fenced, Settled, Running, ParkMarked, ParkInspected}
  }

  /** The process is over. */
  function Over(p: Proc): Proc
  {
    match p
    case Turn(_, _, _, _) => p.(tpc := TurnDone)
    case Write(_, _, _, _) => p.(wpc := WriteDone)
    case Repair(_, _, _) => p.(rpc := RepairDone)
    case Bare(_, _, _) => p.(bpc := BareDone)
    case Forking(_, _, _, _, _) => p.(fpc := ForkDone)
  }

  function Stop(s: State, id: Id, p: Proc): State
  {
    var t := if HoldsMark(p) then s.(mark := None) else s;
    if Connected(p) then Close(t, id, Over(p)) else With(t, id, Over(p))
  }

  /** One step of the session. A step that is not enabled changes nothing. */
  function Act(s: State, id: Id, a: Action): State
  {
    match a
    case SpawnTurn(cursor) =>
      if id in s.procs then s else With(s, id, Turn(if cursor.Some? then Idle else Ready, cursor, 0, 0))
    case SpawnWrite(early) => if id in s.procs then s else With(s, id, Write(Waiting, early, 0, 0))
    case SpawnRepair(head) => if id in s.procs then s else With(s, id, Repair(Found, 0, head))
    case SpawnBare => if id in s.procs then s else With(s, id, Bare(BareFound, 0, |s.log|))
    case SpawnFork(atSeq) => if id in s.procs then s else With(s, id, Forking(Planned, atSeq, {}, 0, false))
    case Append =>
      if id in s.procs && s.procs[id].Turn? && s.procs[id].tpc.Running? && Commits(s, |s.log|, s.procs[id].fence)
      then Commit(s, id, s.procs[id].fence, false) else s
    case Park =>
      if id in s.procs && s.procs[id].Turn? && s.procs[id].tpc.Running?
      then TakeMark(s, id, s.procs[id].(tpc := ParkMarked)) else s
    case GiveUp => if id in s.procs then Stop(s, id, s.procs[id]) else s
    case Advance =>
      if id !in s.procs then s
      else
        match s.procs[id]
        case Turn(_, _, _, _) => TurnStep(s, id, s.procs[id])
        case Write(_, _, _, _) => WriteStep(s, id, s.procs[id])
        case Repair(_, _, _) => RepairStep(s, id, s.procs[id])
        case Bare(_, _, _) => BareStep(s, id, s.procs[id])
        case Forking(_, _, _, _, _) => ForkStep(s, id, s.procs[id])
  }

  // ---- the invariant ----

  /** The process may append under its fence. */
  predicate CanWrite(p: Proc)
  {
    match p
    case Turn(pc, _, _, _) => pc in {Running, ParkMarked, ParkInspected, ParkClosed}
    case Write(pc, _, _, _) => pc.MarkMinted? || pc.Targeted?
    case Repair(pc, _, _) => pc.RepairFree? || pc.RepairMinted?
    case Bare(pc, _, _) => pc.BareMinted?
    case Forking(_, _, _, _, _) => false
  }

  function FenceOf(p: Proc): nat
  {
    p.fence
  }

  /** The steps of a checkpoint, in order; only those of a fork that holds the mark are above one. */
  function Stage(pc: ForkPc): nat
  {
    match pc
    case Planned => 0
    case ForkDone => 0
    case Checked0 => 1
    case Begun => 2
    case FencedOnce => 3
    case Checked1 => 4
    case Waited => 5
    case FencedTwice => 6
    case Checked2 => 7
    case Snapshotted => 8
    case Suspended => 9
  }

  /** The turn has not minted yet, or has not said so. */
  predicate Unsettled(p: Proc)
  {
    p.Turn? && p.tpc in {Idle, EarlyMarked, EarlyMinted, Ready, Opened, RemintMarked, RemintMinted, Fenced}
  }

  ghost predicate Marks(s: State)
  {
    && (s.mark.Some? ==> s.mark.value in s.procs && HoldsMark(s.procs[s.mark.value]))
    && (forall a | a in s.procs && HoldsMark(s.procs[a]) :: s.mark == Some(a))
  }

  ghost predicate Connections(s: State)
  {
    && (forall a | a in s.live :: a in s.procs && Connected(s.procs[a]))
    && (forall a | a in s.procs && Connected(s.procs[a]) :: a in s.live)
    && (forall a | a in s.minted :: a in s.procs && !Unsettled(s.procs[a]))
    && (forall a | a in s.superseded :: a in s.procs)
  }

  ghost predicate Fences(s: State)
  {
    forall a | a in s.procs :: FenceOf(s.procs[a]) <= s.fence
  }

  /** What a fork that holds the mark can rely on. */
  ghost predicate Secured(s: State, f: Id)
    requires f in s.procs && s.procs[f].Forking?
  {
    var p := s.procs[f];
    var stage := Stage(p.fpc);
    && (!p.fpc.ForkDone? ==> !p.failed)
    && (stage >= 2 ==> s.live <= p.open <= s.superseded)
    && (stage >= 3 ==> forall a | a in s.procs && CanWrite(s.procs[a]) && !s.procs[a].Bare? :: FenceOf(s.procs[a]) < s.fence)
    && (stage >= 4 ==> |s.log| >= p.atSeq)
    && (stage >= 5 ==> p.open <= s.minted)
    && (stage >= 6 ==> p.fence <= s.fence)
    && (stage >= 6 && p.fence == s.fence ==> forall a | a in s.procs && CanWrite(s.procs[a]) :: FenceOf(s.procs[a]) < s.fence)
    && (7 <= stage <= 8 && p.fence == s.fence ==> |s.log| == p.atSeq)
    && (stage == 9 ==> |s.log| > p.atSeq && s.log[p.atSeq] == Written(f, p.fence, true))
    && (stage == 9 && p.fence == s.fence ==> |s.log| == p.atSeq + 1)
  }

  ghost predicate Inv(s: State)
  {
    Marks(s) && Connections(s) && Fences(s) &&
    forall f | f in s.procs && s.procs[f].Forking? :: Secured(s, f)
  }

  lemma {:induction false} StartInv()
    ensures Inv(START)
  {
  }

  // ---- every step keeps it ----

  /** What the step of one process does to the mark, the connections and the fence. */
  ghost predicate Moved(s: State, t: State, id: Id)
  {
    && id in s.procs && id in t.procs
    && var p, q := s.procs[id], t.procs[id];
    && t.procs == s.procs[id := q]
    && (|| (t.mark == s.mark && HoldsMark(q) == HoldsMark(p))
        || (s.mark.None? && t.mark == Some(id) && HoldsMark(q))
        || (HoldsMark(p) && t.mark.None? && !HoldsMark(q)))
    && (|| (t.live == s.live && t.minted == s.minted && Connected(q) == Connected(p) && (Unsettled(q) ==> Unsettled(p)))
        || (t.live == s.live && t.minted == s.minted + {id} && Connected(q) == Connected(p) && !Unsettled(q))
        || (t.live == s.live + {id} && t.minted == s.minted && Connected(q) && Unsettled(p))
        || (t.live == s.live - {id} && t.minted == s.minted + {id} && !Connected(q) && !Unsettled(q)))
    && (t.superseded == s.superseded || t.superseded == s.superseded + s.live)
    && t.fence >= s.fence && FenceOf(q) <= t.fence
  }

  lemma {:induction false} MovedMarks(s: State, t: State, id: Id)
    requires Marks(s) && Moved(s, t, id)
    ensures Marks(t)
  {
  }

  lemma {:induction false} MovedConnections(s: State, t: State, id: Id)
    requires Connections(s) && Moved(s, t, id)
    ensures Connections(t)
  {
  }

  lemma {:induction false} MovedFences(s: State, t: State, id: Id)
    requires Fences(s) && Moved(s, t, id)
    ensures Fences(t)
  {
  }

  lemma {:induction false} TurnStepMoved(s: State, id: Id)
    requires id in s.procs && s.procs[id].Turn? && FenceOf(s.procs[id]) <= s.fence
    ensures Moved(s, TurnStep(s, id, s.procs[id]), id)
  {
    hide Moved, TurnStep;
    if s.procs[id].tpc in {Idle, EarlyMarked, EarlyMinted, Ready, Opened, RemintMarked, RemintMinted} {
      EarlyTurnMoved(s, id);
    } else {
      LateTurnMoved(s, id);
    }
  }

  lemma {:induction false} EarlyTurnMoved(s: State, id: Id)
    requires id in s.procs && s.procs[id].Turn? && FenceOf(s.procs[id]) <= s.fence
    requires s.procs[id].tpc in {Idle, EarlyMarked, EarlyMinted, Ready, Opened, RemintMarked, RemintMinted}
    ensures Moved(s, TurnStep(s, id, s.procs[id]), id)
  {
  }

  lemma {:induction false} LateTurnMoved(s: State, id: Id)
    requires id in s.procs && s.procs[id].Turn? && FenceOf(s.procs[id]) <= s.fence
    requires s.procs[id].tpc !in {Idle, EarlyMarked, EarlyMinted, Ready, Opened, RemintMarked, RemintMinted}
    ensures Moved(s, TurnStep(s, id, s.procs[id]), id)
  {
  }

  lemma {:induction false} WriteStepMoved(s: State, id: Id)
    requires id in s.procs && s.procs[id].Write? && FenceOf(s.procs[id]) <= s.fence
    ensures Moved(s, WriteStep(s, id, s.procs[id]), id)
  {
  }

  lemma {:induction false} RepairStepMoved(s: State, id: Id)
    requires id in s.procs && FenceOf(s.procs[id]) <= s.fence
    ensures s.procs[id].Repair? ==> Moved(s, RepairStep(s, id, s.procs[id]), id)
    ensures s.procs[id].Bare? ==> Moved(s, BareStep(s, id, s.procs[id]), id)
  {
  }

  lemma {:induction false} StopMoved(s: State, id: Id)
    requires id in s.procs && FenceOf(s.procs[id]) <= s.fence
    ensures Moved(s, Stop(s, id, s.procs[id]), id)
  {
  }

  lemma {:induction false} ForkStepMoved(s: State, id: Id)
    requires id in s.procs && s.procs[id].Forking? && FenceOf(s.procs[id]) <= s.fence
    ensures Moved(s, ForkStep(s, id, s.procs[id]), id)
  {
    hide Moved, ForkStep;
    if Stage(s.procs[id].fpc) < 3 { EarlyForkMoved(s, id); } else { LateForkMoved(s, id); }
  }

  lemma {:induction false} EarlyForkMoved(s: State, id: Id)
    requires id in s.procs && s.procs[id].Forking? && FenceOf(s.procs[id]) <= s.fence && Stage(s.procs[id].fpc) < 3
    ensures Moved(s, ForkStep(s, id, s.procs[id]), id)
  {
  }

  lemma {:induction false} LateForkMoved(s: State, id: Id)
    requires id in s.procs && s.procs[id].Forking? && FenceOf(s.procs[id]) <= s.fence && Stage(s.procs[id].fpc) >= 3
    ensures Moved(s, ForkStep(s, id, s.procs[id]), id)
  {
  }

  /** The process is a repair without a cursor that may still append. */
  predicate Intrudes(s: State, id: Id)
  {
    id in s.procs && s.procs[id].Bare? && s.procs[id].bpc.BareMinted? && s.procs[id].fence >= s.fence
  }

  /** A step of another process leaves a fork what it relies on, unless it is an unmarked repair. */
  ghost predicate Harmless(s: State, t: State, id: Id, f: Id)
    requires f in s.procs && s.procs[f].Forking?
  {
    var stage := Stage(s.procs[f].fpc);
    && f != id && f in t.procs && t.procs[f] == s.procs[f]
    && (stage >= 2 ==> t.live <= s.live && s.superseded <= t.superseded && s.minted <= t.minted)
    && (stage >= 3 ==> t.fence >= s.fence && (t.log == s.log || (s.log <= t.log && Intrudes(s, id))) &&
                       (id in t.procs && CanWrite(t.procs[id]) && !t.procs[id].Bare? ==> FenceOf(t.procs[id]) < t.fence))
    && (stage >= 5 ==> t.fence == s.fence || (t.fence > s.fence && id in s.procs && s.procs[id].Bare?))
    && (stage >= 5 && t.fence == s.fence && id in t.procs && CanWrite(t.procs[id]) ==> FenceOf(t.procs[id]) < t.fence)
  }

  lemma {:induction false} HarmlessSecured(s: State, t: State, id: Id, f: Id)
    requires Inv(s) && f in s.procs && s.procs[f].Forking?
    requires Harmless(s, t, id, f) && id in t.procs && (forall a | a in t.procs && a != id :: a in s.procs && t.procs[a] == s.procs[a])
    ensures Secured(t, f)
  {
    assert Secured(s, f);
  }

  lemma {:induction false} TurnHarmless(s: State, id: Id, f: Id)
    requires Inv(s) && id in s.procs && s.procs[id].Turn?
    requires f in s.procs && s.procs[f].Forking?
    ensures Harmless(s, TurnStep(s, id, s.procs[id]), id, f)
  {
    assert Secured(s, f);
    if Stage(s.procs[f].fpc) >= 2 { assert s.mark == Some(f); }
  }

  lemma {:induction false} WriterHarmless(s: State, id: Id, f: Id)
    requires Inv(s) && id in s.procs && id != f
    requires f in s.procs && s.procs[f].Forking?
    ensures s.procs[id].Write? ==> Harmless(s, WriteStep(s, id, s.procs[id]), id, f)
    ensures s.procs[id].Repair? ==> Harmless(s, RepairStep(s, id, s.procs[id]), id, f)
    ensures s.procs[id].Bare? ==> Harmless(s, BareStep(s, id, s.procs[id]), id, f)
  {
    assert Secured(s, f);
    assert HoldsMark(s.procs[id]) ==> s.mark == Some(id);
    if Stage(s.procs[f].fpc) >= 2 { assert s.mark == Some(f); }
    hide Inv, Marks, Connections, Fences;
  }

  lemma {:induction false} OtherHarmless(s: State, id: Id, f: Id)
    requires Inv(s) && id in s.procs && id != f
    requires f in s.procs && s.procs[f].Forking?
    ensures s.procs[id].Write? ==> Harmless(s, WriteStep(s, id, s.procs[id]), id, f)
    ensures s.procs[id].Repair? ==> Harmless(s, RepairStep(s, id, s.procs[id]), id, f)
    ensures s.procs[id].Bare? ==> Harmless(s, BareStep(s, id, s.procs[id]), id, f)
    ensures s.procs[id].Forking? ==> Harmless(s, ForkStep(s, id, s.procs[id]), id, f)
    ensures Harmless(s, Stop(s, id, s.procs[id]), id, f)
  {
    WriterHarmless(s, id, f);
    hide WriteStep, RepairStep, BareStep;
    assert Secured(s, f);
    assert HoldsMark(s.procs[id]) ==> s.mark == Some(id);
    if Stage(s.procs[f].fpc) >= 2 { assert s.mark == Some(f); }
    hide Inv, Marks, Connections, Fences;
  }

  lemma {:induction false} NewestIsLater(s: State)
    requires Fences(s)
    ensures forall a | a in s.procs && CanWrite(s.procs[a]) :: FenceOf(s.procs[a]) < s.fence + 1
  {
  }

  /** A fork's own step secures the next stage. */
  lemma {:induction false} ForkSecures(s: State, f: Id)
    requires Inv(s) && f in s.procs && s.procs[f].Forking?
    ensures var t := ForkStep(s, f, s.procs[f]); f in t.procs && t.procs[f].Forking? && Secured(t, f)
  {
    assert Secured(s, f);
    NewestIsLater(s);
    assert forall a | a in s.live :: a in s.procs;
    hide Inv, Marks, Connections, Fences;
  }

  lemma {:induction false} OverSecured(s: State, f: Id)
    requires Inv(s) && f in s.procs && s.procs[f].Forking?
    ensures Secured(Stop(s, f, s.procs[f]), f)
  {
    assert Secured(s, f);
  }

  /** A step of a process keeps the invariant. */
  lemma {:induction false} ProcessInv(s: State, t: State, id: Id)
    requires Inv(s) && Moved(s, t, id)
    requires forall f | f in s.procs && s.procs[f].Forking? && f != id :: Harmless(s, t, id, f)
    requires t.procs[id].Forking? ==> Secured(t, id)
    ensures Inv(t)
  {
    hide Moved, Secured, Harmless, Marks, Connections, Fences;
    MovedMarks(s, t, id);
    MovedConnections(s, t, id);
    MovedFences(s, t, id);
    MovedProcs(s, t, id);
    forall f | f in t.procs && t.procs[f].Forking?
      ensures Secured(t, f)
    {
      if f != id { HarmlessSecured(s, t, id, f); }
    }
  }

  lemma {:induction false} MovedProcs(s: State, t: State, id: Id)
    requires Moved(s, t, id)
    ensures id in t.procs && forall a | a in t.procs && a != id :: a in s.procs && t.procs[a] == s.procs[a]
  {
  }

  lemma {:induction false} AdvanceInv(s: State, id: Id)
    requires Inv(s) && id in s.procs
    ensures Inv(Act(s, id, Advance))
  {
    hide Moved, Secured, Harmless, Marks, Connections, TurnStep, WriteStep, RepairStep, BareStep, ForkStep, Stop;
    assert FenceOf(s.procs[id]) <= s.fence;
    var t := Act(s, id, Advance);
    if s.procs[id].Write? { WriteStepMoved(s, id); } else { RepairStepMoved(s, id); }
    match s.procs[id]
    case Turn(_, _, _, _) =>
      TurnStepMoved(s, id);
      forall f | f in s.procs && s.procs[f].Forking? && f != id
        ensures Harmless(s, t, id, f)
      {
        TurnHarmless(s, id, f);
      }
      StaysItself(s, id);
      ProcessInv(s, t, id);
    case Forking(_, _, _, _, _) =>
      ForkStepMoved(s, id);
      ForkSecures(s, id);
      forall f | f in s.procs && s.procs[f].Forking? && f != id
        ensures Harmless(s, t, id, f)
      {
        OtherHarmless(s, id, f);
      }
      ProcessInv(s, t, id);
    case _ =>
      forall f | f in s.procs && s.procs[f].Forking? && f != id
        ensures Harmless(s, t, id, f)
      {
        OtherHarmless(s, id, f);
      }
      StaysItself(s, id);
      ProcessInv(s, t, id);
  }

  lemma {:induction false} StaysItself(s: State, id: Id)
    requires id in s.procs
    ensures s.procs[id].Turn? ==> id in TurnStep(s, id, s.procs[id]).procs && TurnStep(s, id, s.procs[id]).procs[id].Turn?
    ensures s.procs[id].Write? ==> id in WriteStep(s, id, s.procs[id]).procs && WriteStep(s, id, s.procs[id]).procs[id].Write?
    ensures s.procs[id].Repair? ==> id in RepairStep(s, id, s.procs[id]).procs && RepairStep(s, id, s.procs[id]).procs[id].Repair?
    ensures s.procs[id].Bare? ==> id in BareStep(s, id, s.procs[id]).procs && BareStep(s, id, s.procs[id]).procs[id].Bare?
  {
  }

  lemma {:induction false} GiveUpInv(s: State, id: Id)
    requires Inv(s) && id in s.procs
    ensures Inv(Act(s, id, GiveUp))
  {
    hide Moved, Secured, Harmless, Marks, Connections, Stop;
    assert FenceOf(s.procs[id]) <= s.fence;
    StopMoved(s, id);
    var t := Stop(s, id, s.procs[id]);
    forall f | f in s.procs && s.procs[f].Forking? && f != id
      ensures Harmless(s, t, id, f)
    {
      OtherHarmless(s, id, f);
    }
    if s.procs[id].Forking? { OverSecured(s, id); }
    StopStays(s, id);
    ProcessInv(s, t, id);
  }

  lemma {:induction false} StopStays(s: State, id: Id)
    requires id in s.procs
    ensures var t := Stop(s, id, s.procs[id]); id in t.procs && (t.procs[id].Forking? <==> s.procs[id].Forking?)
  {
  }

  /** A running turn that appends, or is asked to park, keeps the invariant. */
  lemma {:induction false} RunningInv(s: State, id: Id, a: Action)
    requires Inv(s) && id in s.procs && (a.Append? || a.Park?)
    ensures Inv(Act(s, id, a))
  {
    hide Marks, Connections;
    var t := Act(s, id, a);
    assert FenceOf(s.procs[id]) <= s.fence;
    if t != s {
      assert Moved(s, t, id);
      forall f | f in s.procs && s.procs[f].Forking? && f != id
        ensures Harmless(s, t, id, f)
      {
        assert Secured(s, f);
        RunningHarmless(s, id, a, f);
      }
      ProcessInv(s, t, id);
    }
  }

  lemma {:induction false} RunningHarmless(s: State, id: Id, a: Action, f: Id)
    requires Inv(s) && id in s.procs && s.procs[id].Turn? && s.procs[id].tpc.Running? && (a.Append? || a.Park?)
    requires f in s.procs && s.procs[f].Forking? && f != id
    ensures Harmless(s, Act(s, id, a), id, f)
  {
    assert Secured(s, f);
    assert CanWrite(s.procs[id]);
    if Stage(s.procs[f].fpc) >= 2 { assert s.mark == Some(f); }
  }

  lemma {:induction false} SpawnInv(s: State, id: Id, p: Proc)
    requires Inv(s) && id !in s.procs
    requires !HoldsMark(p) && !Connected(p) && !CanWrite(p) && FenceOf(p) == 0
    requires p.Forking? ==> Stage(p.fpc) == 0 && !p.failed
    ensures Inv(With(s, id, p))
  {
    var t := With(s, id, p);
    forall f | f in t.procs && t.procs[f].Forking?
      ensures Secured(t, f)
    {
      if f != id { assert Secured(s, f); }
    }
  }

  /** Every step, of any process, keeps the invariant. */
  lemma {:induction false} ActInv(s: State, id: Id, a: Action)
    requires Inv(s)
    ensures Inv(Act(s, id, a))
  {
    hide Inv, Stop, TurnStep, WriteStep, RepairStep, BareStep, ForkStep;
    if id in s.procs {
      match a
      case Advance => AdvanceInv(s, id);
      case GiveUp => GiveUpInv(s, id);
      case Append => RunningInv(s, id, a);
      case Park => RunningInv(s, id, a);
      case _ =>
    } else {
      match a
      case SpawnTurn(cursor) => SpawnInv(s, id, Turn(if cursor.Some? then Idle else Ready, cursor, 0, 0));
      case SpawnWrite(early) => SpawnInv(s, id, Write(Waiting, early, 0, 0));
      case SpawnRepair(head) => SpawnInv(s, id, Repair(Found, 0, head));
      case SpawnBare => SpawnInv(s, id, Bare(BareFound, 0, |s.log|));
      case SpawnFork(atSeq) => SpawnInv(s, id, Forking(Planned, atSeq, {}, 0, false));
      case _ =>
    }
  }

  // ---- runs ----

  datatype Choice = Choice(id: Id, action: Action)

  /** The session after these steps. */
  function After(s: State, run: seq<Choice>): State
  {
    if run == [] then s
    else
      var last := run[|run| - 1];
      Act(After(s, run[..|run| - 1]), last.id, last.action)
  }

  lemma {:induction false} AfterInv(s: State, run: seq<Choice>)
    requires Inv(s)
    ensures Inv(After(s, run))
  {
    hide Inv, Act;
    if run != [] {
      AfterInv(s, run[..|run| - 1]);
      ActInv(After(s, run[..|run| - 1]), run[|run| - 1].id, run[|run| - 1].action);
    }
  }

  /** How far a fork is; zero when there is no such fork, or it has not begun or is over. */
  function StageOf(s: State, f: Id): nat
  {
    if f in s.procs && s.procs[f].Forking? then Stage(s.procs[f].fpc) else 0
  }

  /** The step is the mint of a repair without a cursor. */
  predicate Mints(s: State, c: Choice)
  {
    c.action.Advance? && c.id in s.procs && s.procs[c.id].Bare? && s.procs[c.id].bpc.BareFound?
  }

  lemma {:induction false} BareMints(s: State, id: Id, a: Action)
    requires id in s.procs && s.procs[id].Bare?
    ensures var t := Act(s, id, a);
      && t.live == s.live
      && t.fence == s.fence + (if Mints(s, Choice(id, a)) then 1 else 0)
      && (t.log == s.log || (Intrudes(s, id) && t.log == s.log + [Written(id, s.procs[id].fence, false)]))
  {
  }

  /** One step of another process while a fork is past its first check after fencing: it opens no harness
  and writes nothing, unless it is a repair without a cursor; past the second fence only such a repair
  mints. */
  lemma {:induction false} OtherCheckpointStep(s: State, id: Id, a: Action, f: Id)
    requires Inv(s) && StageOf(s, f) >= 4 && id != f
    ensures var t := Act(s, id, a);
      && f in t.procs && t.procs[f] == s.procs[f] && t.live <= s.live
      && (t.log == s.log || (Intrudes(s, id) && t.log == s.log + [Written(id, s.procs[id].fence, false)]))
      && (StageOf(s, f) >= 6 ==> t.fence == s.fence + (if Mints(s, Choice(id, a)) then 1 else 0))
  {
    hide TurnStep, WriteStep, RepairStep, BareStep, ForkStep, Stop;
    if id in s.procs {
      if s.procs[id].Bare? {
        BareMints(s, id, a);
        OthersKeepFork(s, id, a, f);
      } else {
        match a
        case Advance =>
          if s.procs[id].Turn? { TurnHarmless(s, id, f); } else { OtherHarmless(s, id, f); }
        case GiveUp => OtherHarmless(s, id, f);
        case Append => if s.procs[id].Turn? && s.procs[id].tpc.Running? { RunningHarmless(s, id, a, f); }
        case Park => if s.procs[id].Turn? && s.procs[id].tpc.Running? { RunningHarmless(s, id, a, f); }
        case _ =>
      }
    }
  }

  /** The fork's own step writes nothing but its SUSPEND, under the fence it minted last. */
  lemma {:induction false} OwnCheckpointStep(s: State, a: Action, f: Id)
    requires Inv(s) && StageOf(s, f) >= 4
    ensures var t := Act(s, f, a);
      && f in t.procs && t.procs[f].Forking? && t.procs[f].atSeq == s.procs[f].atSeq && t.live == s.live
      && (t.log == s.log || (StageOf(s, f) == 8 && StageOf(t, f) == 9 && t.log == s.log + [Written(f, s.procs[f].fence, true)]))
      && (StageOf(t, f) < 4 ==> t.procs[f].fpc == ForkDone)
      && (StageOf(t, f) >= 4 ==> StageOf(s, f) <= StageOf(t, f) <= StageOf(s, f) + 1)
      && (StageOf(s, f) == 8 && StageOf(t, f) == 9 ==> s.procs[f].fence == s.fence)
      && (StageOf(s, f) >= 6 ==> t.fence == s.fence && t.procs[f].fence == s.procs[f].fence)
      && (StageOf(s, f) < 6 <= StageOf(t, f) ==> t.procs[f].fence == t.fence)
      && (t.procs[f].failed ==> StageOf(s, f) == 8 && a.Advance? && s.procs[f].fence < s.fence)
  {
    assert Secured(s, f);
    hide TurnStep, WriteStep, RepairStep, BareStep, Marks, Connections, Fences;
  }

  lemma {:induction false} OthersKeepFork(s: State, id: Id, a: Action, f: Id)
    requires f in s.procs && id != f
    ensures f in Act(s, id, a).procs && Act(s, id, a).procs[f] == s.procs[f]
  {
  }

  lemma {:induction false} KindsStay(s: State, id: Id, a: Action)
    ensures forall x | x in s.procs && s.procs[x].Bare? :: x in Act(s, id, a).procs && Act(s, id, a).procs[x].Bare?
  {
    hide TurnStep, WriteStep, RepairStep, ForkStep, Stop;
    if id in s.procs {
      StaysItself(s, id);
      ForkStays(s, id);
      OtherKindsStay(s, id, a);
    }
  }

  lemma {:induction false} ForkStays(s: State, id: Id)
    requires id in s.procs
    ensures s.procs[id].Bare? ==> id in Stop(s, id, s.procs[id]).procs && Stop(s, id, s.procs[id]).procs[id].Bare?
  {
  }

  lemma {:induction false} OtherKindsStay(s: State, id: Id, a: Action)
    requires id in s.procs
    ensures forall x | x in s.procs && x != id :: x in Act(s, id, a).procs && Act(s, id, a).procs[x] == s.procs[x]
  {
    forall x | x in s.procs && x != id
      ensures x in Act(s, id, a).procs && Act(s, id, a).procs[x] == s.procs[x]
    {
      OthersKeepFork(s, id, a, x);
    }
  }

  /** The record was appended by a repair without a cursor. */
  predicate ByRepair(s: State, w: Written)
  {
    !w.suspend && w.writer in s.procs && s.procs[w.writer].Bare?
  }

  /** Nothing but the fork's SUSPEND, or a repair without a cursor, was added. */
  ghost predicate OnlyAdds(t: State, n: nat, f: Id)
  {
    f in t.procs && forall k | n <= k < |t.log| :: t.log[k] == Written(f, FenceOf(t.procs[f]), true) || ByRepair(t, t.log[k])
  }

  lemma {:induction false} AddsOn(s: State, id: Id, a: Action, n: nat, f: Id)
    requires Inv(s) && StageOf(s, f) >= 4 && OnlyAdds(s, n, f) && StageOf(Act(s, id, a), f) >= 4
    requires StageOf(s, f) < 6 ==> forall k | n <= k < |s.log| :: ByRepair(s, s.log[k])
    ensures OnlyAdds(Act(s, id, a), n, f)
    ensures StageOf(Act(s, id, a), f) < 6 ==> forall k | n <= k < |Act(s, id, a).log| :: ByRepair(Act(s, id, a), Act(s, id, a).log[k])
  {
    KindsStay(s, id, a);
    if id == f { OwnCheckpointStep(s, a, f); } else { OtherCheckpointStep(s, id, a, f); }
    hide Act, Inv;
  }

  /** From the moment a stateful fork passes its first check after fencing until it lifts its mark, in
  every interleaving, repairs without a cursor included: no turn opens a harness, and the journal gains
  nothing but the fork's own SUSPEND and what such repairs append. */
  lemma {:induction false} OnlyRepairsIntrude(s: State, run: seq<Choice>, f: Id)
    requires Inv(s) && StageOf(s, f) >= 4
    ensures var t := After(s, run);
      && f in t.procs && t.procs[f].Forking? && t.procs[f].atSeq == s.procs[f].atSeq
      && (if StageOf(t, f) < 4 then t.procs[f].fpc == ForkDone
          else
            && StageOf(t, f) >= StageOf(s, f) && t.live <= s.live && s.log <= t.log && OnlyAdds(t, |s.log|, f)
            && (StageOf(t, f) < 6 ==> forall k | |s.log| <= k < |t.log| :: ByRepair(t, t.log[k])))
  {
    hide Act, Inv, OnlyAdds;
    if run == [] {
      assert OnlyAdds(s, |s.log|, f) by { NothingAdded(s, f); }
    } else {
      var init, last := run[..|run| - 1], run[|run| - 1];
      OnlyRepairsIntrude(s, init, f);
      AfterInv(s, init);
      var u := After(s, init);
      if StageOf(u, f) >= 4 {
        if StageOf(Act(u, last.id, last.action), f) >= 4 { AddsOn(u, last.id, last.action, |s.log|, f); }
        if last.id == f { OwnCheckpointStep(u, last.action, f); } else { OtherCheckpointStep(u, last.id, last.action, f); }
      } else {
        DoneStays(u, last.id, last.action, f);
      }
    }
  }

  lemma {:induction false} NothingAdded(s: State, f: Id)
    requires f in s.procs
    ensures OnlyAdds(s, |s.log|, f)
  {
  }

  lemma {:induction false} DoneStays(s: State, id: Id, a: Action, f: Id)
    requires f in s.procs && s.procs[f].Forking? && s.procs[f].fpc == ForkDone
    ensures f in Act(s, id, a).procs && Act(s, id, a).procs[f] == s.procs[f]
  {
    if id != f { OthersKeepFork(s, id, a, f); }
    hide TurnStep, WriteStep, RepairStep, BareStep;
  }

  // ---- the window of a checkpoint ----

  /** A repair without a cursor minted while the fork stood between its second fence and its SUSPEND. */
  predicate Overtaken(s: State, run: seq<Choice>, f: Id)
  {
    run != [] &&
    var init, last := run[..|run| - 1], run[|run| - 1];
    Overtaken(s, init, f) || (6 <= StageOf(After(s, init), f) <= 8 && Mints(After(s, init), last))
  }

  lemma {:induction false} StaleStep(s: State, c: Choice, f: Id)
    requires Inv(s) && f in s.procs && s.procs[f].Forking?
    ensures var t := Act(s, c.id, c.action);
      && f in t.procs && t.procs[f].Forking?
      && (s.procs[f].fpc != ForkDone && 6 <= StageOf(t, f) ==>
            if 6 <= StageOf(s, f) then t.fence - t.procs[f].fence == s.fence - s.procs[f].fence + (if Mints(s, c) then 1 else 0)
            else t.fence == t.procs[f].fence)
      && (s.procs[f].fpc == ForkDone ==> t.procs[f] == s.procs[f])
      && (!s.procs[f].failed && t.procs[f].failed ==> StageOf(s, f) == 8 && s.procs[f].fence < s.fence)
      && (StageOf(s, f) == 9 ==> StageOf(t, f) == 9 || (t.procs[f].fpc == ForkDone && !t.procs[f].failed))
      && (t.procs[f].fpc != ForkDone ==> StageOf(s, f) <= StageOf(t, f) <= StageOf(s, f) + 1)
  {
    if s.procs[f].fpc == ForkDone {
      DoneStays(s, c.id, c.action, f);
    } else if StageOf(s, f) >= 4 {
      assert !s.procs[f].failed by { assert Secured(s, f); }
      if c.id == f { OwnCheckpointStep(s, c.action, f); } else { OtherCheckpointStep(s, c.id, c.action, f); }
      hide Act, Inv;
    } else {
      EarlyForkStep(s, c, f);
      hide Act, Inv;
    }
  }

  lemma {:induction false} EarlyForkStep(s: State, c: Choice, f: Id)
    requires Inv(s) && f in s.procs && s.procs[f].Forking? && s.procs[f].fpc != ForkDone && StageOf(s, f) < 4
    ensures var t := Act(s, c.id, c.action);
      && f in t.procs && t.procs[f].Forking? && StageOf(t, f) < 6 && !t.procs[f].failed && !s.procs[f].failed
      && (t.procs[f].fpc != ForkDone ==> StageOf(s, f) <= StageOf(t, f) <= StageOf(s, f) + 1)
  {
    assert Secured(s, f);
    if c.id != f { OthersKeepFork(s, c.id, c.action, f); }
    hide TurnStep, WriteStep, RepairStep, BareStep, Marks, Connections, Fences;
  }

  lemma {:induction false} NewFork(s: State, c: Choice, f: Id)
    requires f !in s.procs
    ensures var t := Act(s, c.id, c.action); f in t.procs && t.procs[f].Forking? ==> StageOf(t, f) == 0 && !t.procs[f].failed
  {
    hide TurnStep, WriteStep, RepairStep, BareStep, ForkStep, Stop;
    if c.id in s.procs { OnlySpawnsAdd(s, c, f); }
  }

  lemma {:induction false} OnlySpawnsAdd(s: State, c: Choice, f: Id)
    requires c.id in s.procs && f !in s.procs
    ensures f !in Act(s, c.id, c.action).procs
  {
  }

  lemma {:induction false} OthersAreNoFork(s: State, c: Choice, f: Id)
    requires f in s.procs && !s.procs[f].Forking?
    ensures var t := Act(s, c.id, c.action); f in t.procs && !t.procs[f].Forking?
  {
    hide TurnStep, WriteStep, RepairStep, BareStep, ForkStep, Stop;
    if c.id != f { OthersKeepFork(s, c.id, c.action, f); } else {
      StaysItself(s, f);
      StopStays(s, f);
    }
  }

  /** A fork's fence is stale exactly when it was overtaken, and only a fork that was overtaken fails. */
  lemma {:induction false} StaleIffOvertaken(run: seq<Choice>, f: Id)
    ensures var t := After(START, run);
      f in t.procs && t.procs[f].Forking? ==>
        && (6 <= StageOf(t, f) <= 8 ==> (t.procs[f].fence < t.fence <==> Overtaken(START, run, f)))
        && (t.procs[f].fpc != ForkDone && (StageOf(t, f) < 6 || StageOf(t, f) == 9) ==> !Overtaken(START, run, f))
        && (t.procs[f].failed ==> Overtaken(START, run, f))
    ensures var t := After(START, run);
      !(f in t.procs && t.procs[f].Forking?) ==> !Overtaken(START, run, f)
  {
    hide Act, Inv, Mints;
    if run != [] {
      var init, c := run[..|run| - 1], run[|run| - 1];
      StaleIffOvertaken(init, f);
      StartInv();
      AfterInv(START, init);
      AfterInv(START, run);
      var u, t := After(START, init), After(START, run);
      if f !in u.procs {
        NewFork(u, c, f);
      } else if u.procs[f].Forking? {
        StaleStep(u, c, f);
        if StageOf(u, f) >= 6 { assert Secured(u, f) by { InvSecures(u, f); } }
        if StageOf(t, f) >= 6 { assert Secured(t, f) by { InvSecures(t, f); } }
        if StageOf(u, f) == 8 && StageOf(t, f) == 9 { SuspendIsNewest(u, c, f); }
      } else {
        OthersAreNoFork(u, c, f);
      }
    }
  }

  lemma {:induction false} SuspendIsNewest(s: State, c: Choice, f: Id)
    requires Inv(s) && StageOf(s, f) == 8 && StageOf(Act(s, c.id, c.action), f) == 9
    ensures s.procs[f].fence == s.fence && c.id == f && !Mints(s, c)
  {
    if c.id == f { OwnCheckpointStep(s, c.action, f); } else { OthersKeepFork(s, c.id, c.action, f); }
    hide Act, Inv;
  }

  lemma {:induction false} InvSecures(s: State, f: Id)
    requires Inv(s) && f in s.procs && s.procs[f].Forking?
    ensures Secured(s, f)
  {
  }

  /** A fork that has its snapshot commits its SUSPEND, directly after the fork point and under the newest
  fence, if and only if no repair without a cursor minted since the fork's second fence. Otherwise the
  SUSPEND fails and nothing is recorded. */
  lemma {:induction false} SuspendCommitsIff(run: seq<Choice>, f: Id)
    requires StageOf(After(START, run), f) == 8
    ensures var s := After(START, run);
      var t := Act(s, f, Advance);
      if Overtaken(START, run, f) then t.procs[f].fpc == ForkDone && t.procs[f].failed && t.log == s.log
      else StageOf(t, f) == 9 && |s.log| == s.procs[f].atSeq && t.log == s.log + [Written(f, s.fence, true)]
  {
    StaleIffOvertaken(run, f);
    StartInv();
    AfterInv(START, run);
    var s := After(START, run);
    InvSecures(s, f);
    hide After, Overtaken, Inv, TurnStep, WriteStep, RepairStep, BareStep;
  }

  /** In no run does a fork snapshot compute and then fail to record it, unless it was overtaken. */
  lemma {:induction false} OnlyOvertakenForksFail(run: seq<Choice>, f: Id)
    requires f in After(START, run).procs && After(START, run).procs[f].Forking? && After(START, run).procs[f].failed
    ensures Overtaken(START, run, f)
  {
    StaleIffOvertaken(run, f);
  }

  /** No repair without a cursor mints from the fork's second fence until it lifts its mark. */
  predicate Undisturbed(s: State, run: seq<Choice>, f: Id)
  {
    run == [] ||
    var init, last := run[..|run| - 1], run[|run| - 1];
    Undisturbed(s, init, f) && !(StageOf(After(s, init), f) >= 6 && Mints(After(s, init), last))
  }

  /** Past its second fence, the fork's is the newest. */
  predicate Newest(s: State, f: Id)
  {
    StageOf(s, f) >= 6 ==> s.procs[f].fence == s.fence
  }

  /** Checkpoint safety. Whatever else happens, repairs without a cursor before the window included, while
  none mints in the window: from the fork's second check until it lifts its mark the journal is what was
  checked, followed by nothing but the fork's own SUSPEND under the newest fence; no turn opens a harness;
  and a fork that ends has not failed. */
  lemma {:induction false} CheckpointIsSafe(s: State, run: seq<Choice>, f: Id)
    requires Inv(s) && StageOf(s, f) >= 4 && Newest(s, f) && Undisturbed(s, run, f)
    ensures var t := After(s, run);
      && f in t.procs && t.procs[f].Forking? && t.procs[f].atSeq == s.procs[f].atSeq
      && (if StageOf(t, f) < 4 then t.procs[f].fpc == ForkDone && !t.procs[f].failed
          else
            && StageOf(t, f) >= StageOf(s, f) && t.live <= s.live && s.log <= t.log && Newest(t, f)
            && |s.log| >= s.procs[f].atSeq
            && (StageOf(t, f) >= 7 ==>
                  t.log == s.log[..s.procs[f].atSeq] + (if StageOf(t, f) == 9 then [Written(f, t.fence, true)] else [])))
  {
    hide Act, Inv;
    InvSecures(s, f);
    OnlyRepairsIntrude(s, run, f);
    AfterInv(s, run);
    var t := After(s, run);
    InvSecures(t, f);
    if run != [] {
      var init, c := run[..|run| - 1], run[|run| - 1];
      CheckpointIsSafe(s, init, f);
      AfterInv(s, init);
      var u := After(s, init);
      InvSecures(u, f);
      StaleStep(u, c, f);
    }
    if StageOf(t, f) >= 7 {
      hide OnlyAdds;
      assert t.log[..s.procs[f].atSeq] == s.log[..s.procs[f].atSeq];
      assert |t.log| == s.procs[f].atSeq + (if StageOf(t, f) == 9 then 1 else 0);
    }
  }

  // ---- a repair that overtakes a fork ----

  /** A fork, 0, goes on to its snapshot; a recovery without a cursor, 1, then repairs its request. */
  const INTRUDING := [
    Choice(0, SpawnFork(0)), Choice(0, Advance), Choice(0, Advance), Choice(0, Advance), Choice(0, Advance), Choice(0, Advance),
    Choice(0, Advance), Choice(0, Advance), Choice(0, Advance), Choice(1, SpawnBare), Choice(1, Advance), Choice(0, Advance)]

  lemma {:induction false} AfterNext(s: State, run: seq<Choice>, n: nat)
    requires n < |run|
    ensures After(s, run[..n + 1]) == Act(After(s, run[..n]), run[n].id, run[n].action)
  {
    assert run[..n + 1][..n] == run[..n];
  }

  lemma {:induction false} Intrude(n: nat, s: State, t: State)
    requires n < |INTRUDING| && After(START, INTRUDING[..n]) == s
    requires Act(s, INTRUDING[n].id, INTRUDING[n].action) == t
    ensures After(START, INTRUDING[..n + 1]) == t
  {
    hide Act;
    AfterNext(START, INTRUDING, n);
  }

  lemma {:induction false} ForkBegins()
    ensures After(START, INTRUDING[..5]) ==
      START.(fence := 1, mark := Some(0), procs := map[0 := Forking(Checked1, 0, {}, 0, false)])
  {
    assert After(START, INTRUDING[..0]) == START;
    hide After;
    var s1 := START.(procs := map[0 := Forking(Planned, 0, {}, 0, false)]);
    var s2 := START.(procs := map[0 := Forking(Checked0, 0, {}, 0, false)]);
    var s3 := START.(mark := Some(0), procs := map[0 := Forking(Begun, 0, {}, 0, false)]);
    var s4 := s3.(fence := 1, procs := map[0 := Forking(FencedOnce, 0, {}, 0, false)]);
    Intrude(0, START, s1);
    Intrude(1, s1, s2);
    Intrude(2, s2, s3);
    Intrude(3, s3, s4);
    Intrude(4, s4, s4.(procs := map[0 := Forking(Checked1, 0, {}, 0, false)]));
  }

  lemma {:induction false} ForkSnapshots()
    ensures After(START, INTRUDING[..9]) ==
      START.(fence := 2, mark := Some(0), procs := map[0 := Forking(Snapshotted, 0, {}, 2, false)])
  {
    ForkBegins();
    hide After;
    var s5 := START.(fence := 1, mark := Some(0), procs := map[0 := Forking(Checked1, 0, {}, 0, false)]);
    var s6 := s5.(procs := map[0 := Forking(Waited, 0, {}, 0, false)]);
    var s7 := s5.(fence := 2, procs := map[0 := Forking(FencedTwice, 0, {}, 2, false)]);
    var s8 := s7.(procs := map[0 := Forking(Checked2, 0, {}, 2, false)]);
    Intrude(5, s5, s6);
    Intrude(6, s6, s7);
    Intrude(7, s7, s8);
    Intrude(8, s8, s7.(procs := map[0 := Forking(Snapshotted, 0, {}, 2, false)]));
  }

  /** The exception does arise: the parent's compute is snapshotted, and the journal does not say so. */
  lemma {:induction false} RepairBreaksFork()
    ensures After(START, INTRUDING) ==
      START.(fence := 3, procs := map[0 := Forking(ForkDone, 0, {}, 2, true), 1 := Bare(BareMinted, 3, 0)])
    ensures Overtaken(START, INTRUDING, 0)
  {
    ForkSnapshots();
    hide After;
    var ready := Forking(Snapshotted, 0, {}, 2, false);
    var s9 := START.(fence := 2, mark := Some(0), procs := map[0 := ready]);
    var s10 := s9.(procs := map[0 := ready, 1 := Bare(BareFound, 0, 0)]);
    var s11 := s9.(fence := 3, procs := map[0 := ready, 1 := Bare(BareMinted, 3, 0)]);
    Intrude(9, s9, s10);
    Intrude(10, s10, s11);
    Intrude(11, s11, START.(fence := 3, procs := map[0 := Forking(ForkDone, 0, {}, 2, true), 1 := Bare(BareMinted, 3, 0)]));
    assert INTRUDING[..12] == INTRUDING;
    OnlyOvertakenForksFail(INTRUDING, 0);
  }

  // ---- a checkpoint that goes through ----

  /** A fork, 0, at the start of the journal, while a turn, 1, has a harness open: the fork supersedes the
  turn, waits until it has minted, and commits its SUSPEND under a newer fence. */
  const OVERTAKING := [
    Choice(1, SpawnTurn(None)), Choice(1, Advance), Choice(0, SpawnFork(0)), Choice(0, Advance), Choice(0, Advance),
    Choice(0, Advance), Choice(0, Advance), Choice(1, Advance), Choice(0, Advance), Choice(1, Advance), Choice(0, Advance),
    Choice(1, Advance), Choice(0, Advance), Choice(0, Advance), Choice(0, Advance), Choice(0, Advance)]

  /** The session with that turn and that fork. */
  function Both(fence: nat, mark: Option<Id>, live: set<Id>, superseded: set<Id>, minted: set<Id>, turn: Proc, fork: Proc): State
  {
    State([], fence, mark, live, superseded, minted, map[1 := turn, 0 := fork])
  }

  lemma {:induction false} Step(n: nat, s: State, t: State)
    requires n < |OVERTAKING| && After(START, OVERTAKING[..n]) == s
    requires Act(s, OVERTAKING[n].id, OVERTAKING[n].action) == t
    ensures After(START, OVERTAKING[..n + 1]) == t
  {
    hide Act;
    AfterNext(START, OVERTAKING, n);
  }

  lemma {:induction false} TurnIsOpen()
    ensures After(START, OVERTAKING[..4]) ==
      Both(0, None, {1}, {}, {}, Turn(Opened, None, 0, 0), Forking(Checked0, 0, {}, 0, false))
  {
    assert After(START, OVERTAKING[..0]) == START;
    hide After;
    var connected := Turn(Opened, None, 0, 0);
    var s1 := START.(procs := map[1 := Turn(Ready, None, 0, 0)]);
    var s2 := START.(live := {1}, procs := map[1 := connected]);
    var s3 := Both(0, None, {1}, {}, {}, connected, Forking(Planned, 0, {}, 0, false));
    Step(0, START, s1);
    Step(1, s1, s2);
    Step(2, s2, s3);
    Step(3, s3, Both(0, None, {1}, {}, {}, connected, Forking(Checked0, 0, {}, 0, false)));
  }

  lemma {:induction false} TurnIsSuperseded()
    ensures After(START, OVERTAKING[..7]) ==
      Both(1, Some(0), {1}, {1}, {}, Turn(Opened, None, 0, 0), Forking(Checked1, 0, {1}, 0, false))
  {
    TurnIsOpen();
    hide After;
    var connected := Turn(Opened, None, 0, 0);
    var s5 := Both(0, Some(0), {1}, {1}, {}, connected, Forking(Begun, 0, {1}, 0, false));
    var s6 := Both(1, Some(0), {1}, {1}, {}, connected, Forking(FencedOnce, 0, {1}, 0, false));
    Step(4, Both(0, None, {1}, {}, {}, connected, Forking(Checked0, 0, {}, 0, false)), s5);
    Step(5, s5, s6);
    Step(6, s6, Both(1, Some(0), {1}, {1}, {}, connected, Forking(Checked1, 0, {1}, 0, false)));
  }

  lemma {:induction false} ForkIsBlocked()
    ensures After(START, OVERTAKING[..9]) ==
      Both(2, Some(0), {1}, {1}, {}, Turn(Fenced, None, 2, 0), Forking(Checked1, 0, {1}, 0, false))
  {
    TurnIsSuperseded();
    hide After;
    var waits := Forking(Checked1, 0, {1}, 0, false);
    var s8 := Both(2, Some(0), {1}, {1}, {}, Turn(Fenced, None, 2, 0), waits);
    Step(7, Both(1, Some(0), {1}, {1}, {}, Turn(Opened, None, 0, 0), waits), s8);
    Step(8, s8, s8);
  }

  lemma {:induction false} ForkWaitsForTurn()
    ensures After(START, OVERTAKING[..12]) ==
      Both(2, Some(0), {}, {1}, {1}, Turn(TurnDone, None, 2, 0), Forking(Waited, 0, {1}, 0, false))
  {
    ForkIsBlocked();
    hide After;
    var waits, waited := Forking(Checked1, 0, {1}, 0, false), Forking(Waited, 0, {1}, 0, false);
    var s10 := Both(2, Some(0), {1}, {1}, {1}, Turn(Settled, None, 2, 0), waits);
    var s11 := Both(2, Some(0), {1}, {1}, {1}, Turn(Settled, None, 2, 0), waited);
    Step(9, Both(2, Some(0), {1}, {1}, {}, Turn(Fenced, None, 2, 0), waits), s10);
    Step(10, s10, s11);
    Step(11, s11, Both(2, Some(0), {}, {1}, {1}, Turn(TurnDone, None, 2, 0), waited));
  }

  /** The situation the results above speak of does arise, with a superseded turn in it. */
  lemma {:induction false} CheckpointIsReached()
    ensures After(START, OVERTAKING) ==
      State([Written(0, 3, true)], 3, Some(0), {}, {1}, {1}, map[1 := Turn(TurnDone, None, 2, 0), 0 := Forking(Suspended, 0, {1}, 3, false)])
  {
    ForkWaitsForTurn();
    hide After;
    var over := Turn(TurnDone, None, 2, 0);
    Step(12, Both(2, Some(0), {}, {1}, {1}, over, Forking(Waited, 0, {1}, 0, false)),
         Both(3, Some(0), {}, {1}, {1}, over, Forking(FencedTwice, 0, {1}, 3, false)));
    Step(13, Both(3, Some(0), {}, {1}, {1}, over, Forking(FencedTwice, 0, {1}, 3, false)),
         Both(3, Some(0), {}, {1}, {1}, over, Forking(Checked2, 0, {1}, 3, false)));
    Step(14, Both(3, Some(0), {}, {1}, {1}, over, Forking(Checked2, 0, {1}, 3, false)),
         Both(3, Some(0), {}, {1}, {1}, over, Forking(Snapshotted, 0, {1}, 3, false)));
    Step(15, Both(3, Some(0), {}, {1}, {1}, over, Forking(Snapshotted, 0, {1}, 3, false)),
         State([Written(0, 3, true)], 3, Some(0), {}, {1}, {1}, map[1 := over, 0 := Forking(Suspended, 0, {1}, 3, false)]));
    assert OVERTAKING[..16] == OVERTAKING;
  }
}
