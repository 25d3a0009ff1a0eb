/** The open harness connections and checkpoint marks of all sessions (sessionSet and liveHarness in
placement/placement.go).

These are the atomic steps that module Checkpoint interleaves, on the mutable tables they work on. */
module SessionSet {
  import opened Api

  /** One open harness connection and its signals. */
  class LiveHarness {
    var superseded: bool
    var minted: bool
    var ended: bool

    constructor ()
      ensures !superseded && !minted && !ended
    {
      superseded, minted, ended := false, false, false;
    }

    /** Cancels the turn and closes the connection; the owner and a checkpoint may both call it. */
    method End()
      modifies this
      ensures ended && superseded == old(superseded) && minted == old(minted)
    {
      ended := true;
    }
  }

  class Sessions {
    var live: map<string, set<LiveHarness>>
    var checkpoints: set<string>

    /** No session is listed without a connection, and no connection under two sessions. */
    ghost predicate Valid()
      reads this
    {
      && (forall uid | uid in live :: live[uid] != {})
      && (forall u, v | u in live && v in live && u != v :: live[u] !! live[v])
    }

    function Open(uid: string): set<LiveHarness>
      reads this
    {
      if uid in live then live[uid] else {}
    }

    constructor ()
      ensures Valid() && live == map[] && checkpoints == {}
    {
      live, checkpoints := map[], {};
    }

    /** Registers a new connection, unless the session is being checkpointed; then it is ended unused. */
    method OpenHarness(uid: string) returns (l: LiveHarness?)
      requires Valid()
      modifies this`live
      ensures Valid()
      ensures l == null <==> uid in checkpoints
      ensures l == null ==> live == old(live)
      ensures l != null ==> fresh(l) && !l.superseded && !l.minted && !l.ended
      ensures l != null ==> live == old(live)[uid := old(Open(uid)) + {l}]
    {
      var h := new LiveHarness();
      if uid in checkpoints {
        h.End();
        return null;
      }
      live := live[uid := Open(uid) + {h}];
      return h;
    }

    /** Deregisters a connection, signals that its turn will mint no more, and ends it. */
    method ReleaseHarness(uid: string, l: LiveHarness)
      requires Valid() && forall u | u != uid :: l !in Open(u)
      modifies this`live, l
      ensures Valid()
      ensures l.minted && l.ended && l.superseded == old(l.superseded)
      ensures Open(uid) == old(Open(uid)) - {l}
      ensures forall u | u != uid :: Open(u) == old(Open(u))
      ensures forall u :: l !in Open(u)
    {
      var rest := Open(uid) - {l};
      if rest == {} {
        live := live - {uid};
      } else {
        live := live[uid := rest];
      }
      l.minted := true;
      l.End();
    }

    /** Takes the session's mark if nobody holds it. */
    method MarkCheckpoint(uid: string) returns (taken: bool)
      modifies this`checkpoints
      ensures taken <==> uid !in old(checkpoints)
      ensures checkpoints == old(checkpoints) + {uid}
    {
      taken := uid !in checkpoints;
      if taken {
        checkpoints := checkpoints + {uid};
      }
    }

    /** Lifts the mark of the session, so that its connections can be opened again. */
    method EndCheckpoint(uid: string)
      modifies this`checkpoints
      ensures checkpoints == old(checkpoints) - {uid}
    {
      checkpoints := checkpoints - {uid};
    }

    /** Takes the mark and, in the same step, supersedes every open connection of the session: a turn
    either is among them, or opens no connection while the mark is held. */
    method BeginCheckpoint(uid: string) returns (r: Option<set<LiveHarness>>)
      requires Valid()
      modifies this`checkpoints, Open(uid)
      ensures Valid() && live == old(live)
      ensures r.Some? <==> uid !in old(checkpoints)
      ensures checkpoints == old(checkpoints) + {uid}
      ensures r.None? ==> forall l | l in old(Open(uid)) :: l.superseded == old(l.superseded)
      ensures r.Some? ==> r.value == Open(uid) && forall l | l in r.value :: l.superseded
      ensures forall l | l in old(Open(uid)) :: l.minted == old(l.minted) && l.ended == old(l.ended)
    {
      var taken := MarkCheckpoint(uid);
      if !taken {
        return None;
      }
      var open := Open(uid);
      var rest := open;
      while rest != {}
        invariant rest <= open == Open(uid) && live == old(live) && checkpoints == old(checkpoints) + {uid}
        invariant forall l | l in open - rest :: l.superseded
        invariant forall l | l in open :: l.minted == old(l.minted) && l.ended == old(l.ended)
        decreases |rest|
      {
        var l :| l in rest;
        l.superseded := true;
        rest := rest - {l};
      }
      return Some(open);
    }

    /** Ends the connections a checkpoint collected. */
    method EndHarnesses(open: set<LiveHarness>)
      modifies open
      ensures forall l | l in open :: l.ended && l.superseded == old(l.superseded) && l.minted == old(l.minted)
    {
      var rest := open;
      while rest != {}
        invariant rest <= open
        invariant forall l | l in open - rest :: l.ended
        invariant forall l | l in open :: l.superseded == old(l.superseded) && l.minted == old(l.minted)
        decreases |rest|
      {
        var l :| l in rest;
        l.End();
        rest := rest - {l};
      }
    }

    /** Whether any connection is open or any checkpoint in progress. */
    method Busy() returns (b: bool)
      requires Valid()
      ensures b <==> checkpoints != {} || exists uid :: Open(uid) != {}
    {
      b := |live| > 0 || |checkpoints| > 0;
      if uid :| uid in live { assert Open(uid) != {}; }
    }
  }
}
