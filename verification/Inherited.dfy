/** Tool intents a fork inherits (the counting loop of Resume in controller/resume.go).

A call recorded before the fork belongs to the parent. Recovery must not run it in the child, so it
refuses when one of them was left without its result. */
module Inherited {
  import opened Api

  predicate OwnCall(e: Event, id: string)
  {
    e.executionId == id && e.kind.KToolCall?
  }

  /** A record of the execution after which a result no longer answers an earlier call directly. */
  predicate Separates(e: Event, id: string)
  {
    e.executionId == id &&
    (e.kind.KToolCall? || e.kind.KToolResult? || e.kind.KModelCall? || e.kind.KOutput? || e.kind.KUsage?)
  }

  /** Record j is the result of call k, and nothing between them separates the two. */
  predicate Answers(events: seq<Event>, id: string, k: nat, j: nat)
  {
    && k < j < |events|
    && OwnCall(events[k], id) && events[k].body.BToolCall?
    && events[j].executionId == id && events[j].kind.KToolResult? && events[j].body.BResult?
    && events[j].body.result.id == events[k].body.toolCall.id
    && forall m | k < m < j :: !Separates(events[m], id)
  }

  predicate Answered(events: seq<Event>, id: string, k: nat)
  {
    exists j | 0 <= j < |events| :: Answers(events, id, k, j)
  }

  /** The index of the last fork marker; zero when there is none, or when nothing precedes it. */
  function LastFork(events: seq<Event>): nat
  {
    if events == [] then 0
    else if IsFork(events[|events| - 1]) then |events| - 1
    else LastFork(events[..|events| - 1])
  }

  /** The calls of the execution among the first n records that no result answers directly. */
  ghost function Unanswered(events: seq<Event>, id: string, n: nat): set<nat>
  {
    set k: nat | 0 <= k < n && k < |events| && OwnCall(events[k], id) && !Answered(events, id, k)
  }

  /** The call a result read next would answer. */
  ghost predicate Outstanding(events: seq<Event>, id: string, p: nat)
  {
    p < |events| && OwnCall(events[p], id) && events[p].body.BToolCall? && forall m | p < m < |events| :: !Separates(events[m], id)
  }

  lemma {:induction false} AnsweredNext(events: seq<Event>, e: Event, id: string, k: nat)
    requires k < |events|
    ensures Answered(events + [e], id, k) <==>
      Answered(events, id, k) ||
      (Outstanding(events, id, k) && e.executionId == id && e.kind.KToolResult? && e.body.BResult? &&
       e.body.result.id == events[k].body.toolCall.id)
  {
    var longer := events + [e];
    if Answered(events, id, k) {
      var j :| 0 <= j < |events| && Answers(events, id, k, j);
      assert Answers(longer, id, k, j);
    }
    if Outstanding(events, id, k) && e.executionId == id && e.kind.KToolResult? && e.body.BResult? &&
       e.body.result.id == events[k].body.toolCall.id {
      assert Answers(longer, id, k, |events|);
    }
    if Answered(longer, id, k) {
      var j :| 0 <= j < |longer| && Answers(longer, id, k, j);
      if j < |events| {
        assert forall m | k < m < j :: events[m] == longer[m];
        assert Answers(events, id, k, j);
      } else {
        assert forall m | k < m < |events| :: events[m] == longer[m];
        assert Outstanding(events, id, k);
      }
    }
  }

  /** At most one call is outstanding, and it is unanswered. */
  lemma {:induction false} OutstandingIsOne(events: seq<Event>, id: string, p: nat, q: nat)
    requires Outstanding(events, id, p)
    ensures Outstanding(events, id, q) ==> q == p
    ensures !Answered(events, id, p)
  {
    if q < p { assert Separates(events[p], id); }
    if p < q < |events| { assert Outstanding(events, id, q) ==> Separates(events[q], id); }
  }

  /** What one more record does to the calls left unanswered. */
  lemma {:induction false} UnansweredNext(events: seq<Event>, e: Event, id: string, n: nat, p: Option<nat>)
    requires n <= |events|
    requires if p.Some? then Outstanding(events, id, p.value) else forall k: nat :: !Outstanding(events, id, k)
    ensures var answers := p.Some? && e.executionId == id && e.kind.KToolResult? && e.body.BResult? &&
                           e.body.result.id == events[p.value].body.toolCall.id;
      && Unanswered(events + [e], id, n) == Unanswered(events, id, n) - (if answers then {p.value} else {})
      && (answers && p.value < n ==> p.value in Unanswered(events, id, n))
      && Unanswered(events + [e], id, |events| + 1) ==
         (Unanswered(events, id, |events|) - (if answers then {p.value} else {})) + (if OwnCall(e, id) then {|events|} else {})
      && (answers ==> p.value in Unanswered(events, id, |events|))
  {
    forall k: nat | k < |events|
      ensures Answered(events + [e], id, k) <==>
        Answered(events, id, k) ||
        (p == Some(k) && e.executionId == id && e.kind.KToolResult? && e.body.BResult? &&
         e.body.result.id == events[k].body.toolCall.id)
    {
      AnsweredNext(events, e, id, k);
      if p.Some? { OutstandingIsOne(events, id, p.value, k); }
    }
    if p.Some? { OutstandingIsOne(events, id, p.value, p.value); }
  }

  /** The call outstanding after one more record. */
  lemma {:induction false} OutstandingNext(events: seq<Event>, e: Event, id: string, p: Option<nat>)
    requires if p.Some? then Outstanding(events, id, p.value) else forall k: nat :: !Outstanding(events, id, k)
    ensures
      if OwnCall(e, id) && e.body.BToolCall? then Outstanding(events + [e], id, |events|)
      else if Separates(e, id) || p.None? then forall k: nat :: !Outstanding(events + [e], id, k)
      else Outstanding(events + [e], id, p.value)
  {
    var longer := events + [e];
    forall k: nat | Outstanding(longer, id, k) && k < |events|
      ensures !Separates(e, id) && Outstanding(events, id, k)
    {
      assert !Separates(longer[|events|], id);
      assert forall m | k < m < |events| :: events[m] == longer[m];
    }
  }

  lemma {:induction false} LastForkNext(events: seq<Event>, e: Event)
    ensures LastFork(events + [e]) == (if IsFork(e) then |events| else LastFork(events))
    ensures LastFork(events) <= |events|
  {
    assert (events + [e])[..|events|] == events;
    LastForkWithin(events);
  }

  lemma {:induction false} LastForkWithin(events: seq<Event>)
    ensures LastFork(events) <= |events|
  {
    if events != [] { LastForkWithin(events[..|events| - 1]); }
  }

  /** The counters of the pass after these records. */
  datatype Counters = Counters(unresolved: int, inherited: int, preceding: Option<ToolCall>, precedingInherited: bool)

  /** What the counters mean; p is the index of the call a result read next would answer. */
  ghost predicate Means(events: seq<Event>, id: string, t: Counters, p: Option<nat>)
  {
    && t.unresolved == |Unanswered(events, id, |events|)|
    && t.inherited == |Unanswered(events, id, LastFork(events))|
    && (t.preceding.Some? <==> p.Some?)
    && (if p.Some? then Outstanding(events, id, p.value) else forall k: nat :: !Outstanding(events, id, k))
    && (p.Some? ==> p.value < |events| && events[p.value].body.BToolCall? && t.preceding == Some(events[p.value].body.toolCall) &&
                    t.precedingInherited == (p.value < LastFork(events)))
  }

  lemma {:induction false} ForkMeans(events: seq<Event>, e: Event, id: string, t: Counters, p: Option<nat>)
    requires Means(events, id, t, p) && IsFork(e)
    ensures Means(events + [e], id, t.(inherited := t.unresolved, precedingInherited := t.preceding.Some?), p)
  {
    hide Unanswered, Outstanding, LastFork;
    LastForkNext(events, e);
    UnansweredNext(events, e, id, |events|, p);
    OutstandingNext(events, e, id, p);
  }

  lemma {:induction false} CallMeans(events: seq<Event>, e: Event, id: string, t: Counters, p: Option<nat>)
    requires Means(events, id, t, p) && OwnCall(e, id)
    ensures Means(events + [e], id,
                  t.(unresolved := t.unresolved + 1, preceding := if e.body.BToolCall? then Some(e.body.toolCall) else None,
                     precedingInherited := false),
                  if e.body.BToolCall? then Some(|events|) else None)
  {
    hide Unanswered, Outstanding, LastFork;
    LastForkNext(events, e);
    UnansweredNext(events, e, id, LastFork(events), p);
    OutstandingNext(events, e, id, p);
    FreshCall(events, id, |events|);
  }

  lemma {:induction false} ResultMeans(events: seq<Event>, e: Event, id: string, t: Counters, p: Option<nat>)
    requires Means(events, id, t, p) && e.executionId == id && e.kind.KToolResult?
    ensures var answers := t.preceding.Some? && e.body.BResult? && e.body.result.id == t.preceding.value.id;
      Means(events + [e], id,
            Counters(t.unresolved - (if answers then 1 else 0), t.inherited - (if answers && t.precedingInherited then 1 else 0),
                  None, t.precedingInherited),
            None)
  {
    hide Unanswered, Outstanding, LastFork;
    LastForkNext(events, e);
    UnansweredNext(events, e, id, LastFork(events), p);
    OutstandingNext(events, e, id, p);
    if p.Some? { OutOfRange(events, id, LastFork(events), p.value); }
  }

  lemma {:induction false} OtherMeans(events: seq<Event>, e: Event, id: string, t: Counters, p: Option<nat>)
    requires Means(events, id, t, p) && !IsFork(e)
    requires e.executionId == id ==> !e.kind.KToolCall? && !e.kind.KToolResult?
    ensures
      if Separates(e, id) then Means(events + [e], id, t.(preceding := None), None) else Means(events + [e], id, t, p)
  {
    hide Unanswered, Outstanding, LastFork;
    LastForkNext(events, e);
    UnansweredNext(events, e, id, LastFork(events), p);
    OutstandingNext(events, e, id, p);
  }

  /** Counts, in one pass, the calls of an execution that precede the last fork marker and are never
  answered directly by their own results. */
  method CountInherited(events: seq<Event>, id: string) returns (inherited: int)
    ensures inherited == |Unanswered(events, id, LastFork(events))|
    ensures inherited > 0 <==> exists k: nat :: k < LastFork(events) && k < |events| && OwnCall(events[k], id) && !Answered(events, id, k)
  {
    hide Means, Unanswered, LastFork;
    var unresolved := 0;
    inherited := 0;
    var preceding: Option<ToolCall> := None;
    var precedingInherited := false;
    ghost var p: Option<nat> := None;
    NothingMeans(id);
    assert events[..0] == [];
    for i := 0 to |events|
      invariant Means(events[..i], id, Counters(unresolved, inherited, preceding, precedingInherited), p)
    {
      var e := events[i];
      ghost var t := Counters(unresolved, inherited, preceding, precedingInherited);
      assert events[..i + 1] == events[..i] + [e];
      if IsFork(e) {
        ForkMeans(events[..i], e, id, t, p);
        inherited := unresolved;
        precedingInherited := preceding.Some?;
      } else if e.executionId == id && e.kind.KToolCall? {
        CallMeans(events[..i], e, id, t, p);
        unresolved := unresolved + 1;
        preceding := if e.body.BToolCall? then Some(e.body.toolCall) else None;
        precedingInherited := false;
        p := if e.body.BToolCall? then Some(i) else None;
      } else if e.executionId == id && e.kind.KToolResult? {
        ResultMeans(events[..i], e, id, t, p);
        if preceding.Some? && e.body.BResult? && e.body.result.id == preceding.value.id {
          unresolved := unresolved - 1;
          if precedingInherited {
            inherited := inherited - 1;
          }
        }
        preceding, p := None, None;
      } else {
        OtherMeans(events[..i], e, id, t, p);
        if e.executionId == id && (e.kind.KModelCall? || e.kind.KOutput? || e.kind.KUsage?) {
          preceding, p := None, None;
        }
      }
    }
    assert events[..|events|] == events;
    InheritedMeans(events, id, Counters(unresolved, inherited, preceding, precedingInherited), p);
    SomeUnanswered(events, id, LastFork(events));
  }

  lemma {:induction false} NothingMeans(id: string)
    ensures Means([], id, Counters(0, 0, None, false), None)
  {
    Nothing(id);
  }

  lemma {:induction false} InheritedMeans(events: seq<Event>, id: string, t: Counters, p: Option<nat>)
    requires Means(events, id, t, p)
    ensures t.inherited == |Unanswered(events, id, LastFork(events))|
  {
  }

  lemma {:induction false} Nothing(id: string)
    ensures Unanswered([], id, 0) == {} && LastFork([]) == 0
    ensures forall k: nat :: !Outstanding([], id, k)
  {
  }

  lemma {:induction false} FreshCall(events: seq<Event>, id: string, i: nat)
    requires i == |events|
    ensures i !in Unanswered(events, id, i)
  {
  }

  lemma {:induction false} OutOfRange(events: seq<Event>, id: string, n: nat, p: nat)
    ensures p in Unanswered(events, id, n) ==> p < n
  {
  }

  lemma {:induction false} SomeUnanswered(events: seq<Event>, id: string, n: nat)
    ensures |Unanswered(events, id, n)| > 0 <==> exists k: nat :: k < n && k < |events| && OwnCall(events[k], id) && !Answered(events, id, k)
  {
    var u := Unanswered(events, id, n);
    if |u| > 0 { var k :| k in u; }
    if k: nat :| k < n && k < |events| && OwnCall(events[k], id) && !Answered(events, id, k) { assert k in u; }
  }

  /** When recovery is not refused, the trailing call it would run was recorded after the last fork. */
  lemma {:induction false} TrailingCallIsOwned(events: seq<Event>, id: string, k: nat)
    requires Unanswered(events, id, LastFork(events)) == {}
    requires k < |events| && OwnCall(events[k], id) && forall m | k < m < |events| :: !Separates(events[m], id)
    ensures k >= LastFork(events)
  {
    assert k !in Unanswered(events, id, LastFork(events));
  }
}
