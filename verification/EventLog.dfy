/** The append-only, fenced, hash-chained event log (package eventlog) and the fork of one log into
another (controller.Fork).

The content hash is a parameter: a function of the previous hash, the sequence number and the
event, which fails when the event cannot be canonicalised. What it covers of an event is its wire
form; Canonical and CollisionFree say so where a result depends on it. */
module EventLog {
  import opened Api
  import opened Codec

  type Hasher = (string, int, Event) -> Option<string>

  datatype Record = Record(num: int, prevHash: string, hash: string, fence: int, event: Event)

  datatype LogError = Conflict | Fenced | Deleted | Reserved | TransportOnly | Encoding | NotFound

  function HeadOf(rs: seq<Record>): int
  {
    if rs == [] then 0 else rs[|rs| - 1].num
  }

  function LastHash(rs: seq<Record>): string
  {
    if rs == [] then "" else rs[|rs| - 1].hash
  }

  /** What appending does to a log whose newest fence is current. */
  function Appended(h: Hasher, rs: seq<Record>, current: int, expected: int, fence: int, event: Event)
    : (r: Result<Record, LogError>)
  {
    if expected != HeadOf(rs) then Err(Conflict)
    else if fence < current then Err(Fenced)
    else
      var num := HeadOf(rs) + 1;
      match h(LastHash(rs), num, event)
      case None => Err(Encoding)
      case Some(hash) => Ok(Record(num, LastHash(rs), hash, fence, event))
  }

  /** A record links to the log before it and carries the hash of its own content. */
  ghost predicate Linked(h: Hasher, rs: seq<Record>, r: Record)
  {
    r.prevHash == LastHash(rs) && h(r.prevHash, r.num, r.event) == Some(r.hash)
  }

  ghost predicate Chained(h: Hasher, rs: seq<Record>)
  {
    rs == [] || (Chained(h, rs[..|rs| - 1]) && Linked(h, rs[..|rs| - 1], rs[|rs| - 1]))
  }

  ghost predicate Numbered(rs: seq<Record>)
  {
    forall i | 0 <= i < |rs| :: rs[i].num == i + 1
  }

  function Entries(rs: seq<Record>): (es: seq<Entry>)
    ensures |es| == |rs|
  {
    seq(|rs|, i requires 0 <= i < |rs| => Entry(rs[i].num, rs[i].event))
  }

  /** The in-memory log. */
  class Log {
    const hasher: Hasher
    var records: seq<Record>
    var fence: int

    constructor (hasher: Hasher)
      ensures records == [] && fence == 0 && this.hasher == hasher
    {
      this.hasher := hasher;
      records := [];
      fence := 0;
    }

    constructor From(hasher: Hasher, prefix: seq<Record>)
      ensures records == prefix && fence == 0 && this.hasher == hasher
    {
      this.hasher := hasher;
      records := prefix;
      fence := 0;
    }

    function Head(): int
      reads this`records
    {
      HeadOf(records)
    }

    method NewFence() returns (token: int)
      modifies this`fence
      ensures fence == token == old(fence) + 1
    {
      fence := fence + 1;
      token := fence;
    }

    /** Commits the event as the next record iff expected is the head, the fence is not stale, and the event
    can be hashed; a refusal changes nothing. */
    method Append(expected: int, fence: int, event: Event) returns (r: Result<Record, LogError>)
      modifies this`records
      ensures r == Appended(hasher, old(records), this.fence, expected, fence, event)
      ensures r == Err(Conflict) <==> expected != old(Head())
      ensures r == Err(Fenced) <==> expected == old(Head()) && fence < this.fence
      ensures r.Ok? <==> expected == old(Head()) && fence >= this.fence && hasher(LastHash(old(records)), expected + 1, event).Some?
      ensures r.Ok? ==>
        && r.value.num == expected + 1 && r.value.fence == fence && r.value.event == event
        && r.value.prevHash == LastHash(old(records)) && Some(r.value.hash) == hasher(r.value.prevHash, r.value.num, event)
      ensures r.Err? ==> r.error in {Conflict, Fenced, Encoding}
      ensures records == if r.Ok? then old(records) + [r.value] else old(records)
    {
      if expected != Head() {
        return Err(Conflict);
      }
      if fence < this.fence {
        return Err(Fenced);
      }
      var prev := "";
      if |records| > 0 {
        prev := records[|records| - 1].hash;
      }
      var num := Head() + 1;
      match hasher(prev, num, event) {
        case None =>
          return Err(Encoding);
        case Some(hash) =>
          var record := Record(num, prev, hash, fence, event);
          records := records + [record];
          return Ok(record);
      }
    }

    /** The records from one sequence number on, in order. */
    method Read(from: int) returns (out: seq<Record>)
      ensures out == From'(records, from)
      ensures Numbered(records) ==>
        out == if from <= 1 then records else if from <= |records| then records[from - 1..] else []
    {
      hide Numbered;
      out := [];
      for i := 0 to |records|
        invariant out == From'(records[..i], from)
      {
        assert records[..i + 1][..i] == records[..i];
        if records[i].num >= from {
          out := out + [records[i]];
        }
      }
      assert records[..|records|] == records;
      if Numbered(records) { FromIsRest(records, from); }
    }

    /** Walks the chain; true iff no link is broken and no content hash differs. */
    method Verify() returns (intact: bool)
      ensures intact <==> Chained(hasher, records)
    {
      intact := VerifyRecords(hasher, records);
    }
  }

  method VerifyRecords(h: Hasher, records: seq<Record>) returns (intact: bool)
    ensures intact <==> Chained(h, records)
  {
    var prev := "";
    for i := 0 to |records|
      invariant prev == LastHash(records[..i])
      invariant Chained(h, records[..i])
    {
      var r := records[i];
      if r.prevHash != prev || h(prev, r.num, r.event) != Some(r.hash) {
        if Chained(h, records) { ChainedPrefix(h, records, i); }
        return false;
      }
      prev := r.hash;
      ChainedSnoc(h, records[..i], r);
      assert records[..i + 1] == records[..i] + [r];
    }
    assert records[..|records|] == records;
    return true;
  }

  function From'(rs: seq<Record>, from: int): seq<Record>
  {
    if rs == [] then []
    else
      var last := rs[|rs| - 1];
      From'(rs[..|rs| - 1], from) + if last.num >= from then [last] else []
  }

  /** Of a numbered log these are the records from that position to the last. */
  lemma {:induction false} FromIsRest(rs: seq<Record>, from: int)
    requires Numbered(rs)
    ensures From'(rs, from) == if from <= 1 then rs else if from <= |rs| then rs[from - 1..] else []
  {
    if rs != [] {
      var init := rs[..|rs| - 1];
      FromIsRest(init, from);
      assert rs == init + [rs[|rs| - 1]];
      if 1 < from <= |init| { assert rs[from - 1..] == init[from - 1..] + [rs[|rs| - 1]]; }
    }
  }

  lemma {:induction false} ChainedSnoc(h: Hasher, rs: seq<Record>, r: Record)
    ensures Chained(h, rs + [r]) <==> Chained(h, rs) && Linked(h, rs, r)
  {
    assert (rs + [r])[..|rs|] == rs;
  }

  lemma {:induction false} ChainedPrefix(h: Hasher, rs: seq<Record>, n: nat)
    requires Chained(h, rs) && n <= |rs|
    ensures Chained(h, rs[..n])
    ensures n < |rs| ==> Linked(h, rs[..n], rs[n])
  {
    if n < |rs| {
      var init := rs[..|rs| - 1];
      assert init[..n] == rs[..n];
      if n < |init| { assert init[n] == rs[n]; }
      ChainedPrefix(h, init, n);
    } else {
      assert rs[..n] == rs;
    }
  }

  /** An append keeps the chain and the numbering. */
  lemma {:induction false} AppendKeeps(h: Hasher, rs: seq<Record>, current: int, expected: int, fence: int, event: Event)
    requires Chained(h, rs) && Numbered(rs)
    requires Appended(h, rs, current, expected, fence, event).Ok?
    ensures var r := Appended(h, rs, current, expected, fence, event).value;
      && Chained(h, rs + [r])
      && Numbered(rs + [r])
      && r.num == expected + 1 == |rs| + 1
      && fence >= current && r.fence == fence && r.event == event
  {
    ChainedSnoc(h, rs, Appended(h, rs, current, expected, fence, event).value);
  }

  // ---- writers that interleave ----

  /** What writers ask of a log. */
  datatype Request = TakeFence | Write(expected: int, fence: int, event: Event)

  /** What a request does to a log with these records and this newest fence. */
  function Requested(h: Hasher, rs: seq<Record>, current: int, req: Request): (seq<Record>, int)
  {
    match req
    case TakeFence => (rs, current + 1)
    case Write(expected, fence, event) =>
      var r := Appended(h, rs, current, expected, fence, event);
      (if r.Ok? then rs + [r.value] else rs, current)
  }

  function LogAfter(h: Hasher, run: seq<Request>): (seq<Record>, int)
  {
    if run == [] then ([], 0)
    else
      var (rs, current) := LogAfter(h, run[..|run| - 1]);
      Requested(h, rs, current, run[|run| - 1])
  }

  /** A writer only uses fences that were minted before. */
  predicate UsesMintedFences(h: Hasher, run: seq<Request>)
  {
    run == [] ||
    (UsesMintedFences(h, run[..|run| - 1]) &&
     (run[|run| - 1].Write? ==> run[|run| - 1].fence <= LogAfter(h, run[..|run| - 1]).1))
  }

  /** Numbered from one and chained; fences never go back, and none is newer than the log's. */
  ghost predicate Orderly(h: Hasher, rs: seq<Record>, current: int)
  {
    && Chained(h, rs) && Numbered(rs)
    && (forall i, j | 0 <= i < j < |rs| :: rs[i].fence <= rs[j].fence)
    && (forall i | 0 <= i < |rs| :: rs[i].fence <= current)
  }

  /** A request by a writer that holds a minted fence leaves the log as it was, mints the next fence, or adds
  one record: the writer's event, at the head the writer named, under the fence that is the newest. */
  lemma {:induction false} RequestKeeps(h: Hasher, was: seq<Record>, before: int, req: Request)
    requires Orderly(h, was, before) && (req.Write? ==> req.fence <= before)
    ensures var (rs, current) := Requested(h, was, before, req);
      && Orderly(h, rs, current)
      && match req
         case TakeFence => rs == was && current == before + 1
         case Write(expected, fence, event) =>
           && current == before
           && if expected == |was| && fence == before && h(LastHash(was), |was| + 1, event).Some? then
                |rs| == |was| + 1 && rs[..|was|] == was && rs[|was|].fence == before && rs[|was|].event == event
              else rs == was
  {
    assert HeadOf(was) == |was|;
    hide Chained, LastHash, Numbered;
    if req.Write? && Appended(h, was, before, req.expected, req.fence, req.event).Ok? {
      AppendKeeps(h, was, before, req.expected, req.fence, req.event);
    }
  }

  /** The fence excludes older writers. In any interleaving of writers that use fences they minted, the log
  stays in order, and an append commits iff its writer named the head and holds the newest fence, and its
  event can be hashed. */
  lemma {:induction false} FencesExclude(h: Hasher, run: seq<Request>)
    requires UsesMintedFences(h, run)
    ensures var (rs, current) := LogAfter(h, run); Orderly(h, rs, current)
    ensures forall req: Request | req.Write? && req.fence <= LogAfter(h, run).1 ::
      var (was, before) := LogAfter(h, run);
      LogAfter(h, run + [req]).0 != was <==>
        req.expected == |was| && req.fence == before && h(LastHash(was), |was| + 1, req.event).Some?
  {
    hide Orderly, Requested;
    var (was, before) := LogAfter(h, run);
    if run != [] {
      var init := run[..|run| - 1];
      FencesExclude(h, init);
      RequestKeeps(h, LogAfter(h, init).0, LogAfter(h, init).1, run[|run| - 1]);
    } else {
      EmptyOrderly(h);
    }
    forall req: Request | req.Write? && req.fence <= before
      ensures LogAfter(h, run + [req]).0 != was <==>
        req.expected == |was| && req.fence == before && h(LastHash(was), |was| + 1, req.event).Some?
    {
      assert (run + [req])[..|run|] == run;
      RequestKeeps(h, was, before, req);
    }
  }

  lemma {:induction false} EmptyOrderly(h: Hasher)
    ensures Orderly(h, [], 0)
  {
  }

  // ---- the head hash fixes the history ----

  ghost predicate SameWire(e: Event, f: Event)
  {
    EncodeEvent(e) == EncodeEvent(f)
  }

  /** Events with the same wire form have the same hash. */
  ghost predicate Canonical(h: Hasher)
  {
    forall p, n, e, f | SameWire(e, f) :: h(p, n, e) == h(p, n, f)
  }

  /** What a content hash is computed from. */
  datatype Covered = Covered(prevHash: string, num: int, event: Event)

  function Digest(h: Hasher, c: Covered): Option<string>
  {
    h(c.prevHash, c.num, c.event)
  }

  function Covers(r: Record): Covered
  {
    Covered(r.prevHash, r.num, r.event)
  }

  /** No two contents share a hash, and the empty hash marks the start of a chain only. */
  ghost predicate CollisionFree(h: Hasher)
  {
    && (forall c :: Digest(h, c) != Some(""))
    && (forall c, d | Digest(h, c).Some? && Digest(h, c) == Digest(h, d) ::
          c.prevHash == d.prevHash && c.num == d.num && SameWire(c.event, d.event))
  }

  /** Records that agree on everything a hash covers; only the writer's fence is not covered. */
  ghost predicate SameContent(a: Record, b: Record)
  {
    a.num == b.num && a.prevHash == b.prevHash && a.hash == b.hash && SameWire(a.event, b.event)
  }

  lemma {:induction false} OnlyEmptyEndsEmpty(h: Hasher, rs: seq<Record>)
    requires CollisionFree(h) && Chained(h, rs)
    ensures LastHash(rs) == "" <==> rs == []
  {
    if rs != [] {
      var r := rs[|rs| - 1];
      assert Digest(h, Covers(r)) == Some(r.hash);
    }
  }

  /** Two logs that both verify and end in the same hash hold the same history. */
  lemma {:induction false} HeadFixesHistory(h: Hasher, a: seq<Record>, b: seq<Record>)
    requires CollisionFree(h) && Chained(h, a) && Chained(h, b)
    requires LastHash(a) == LastHash(b)
    ensures |a| == |b| && forall i | 0 <= i < |a| :: SameContent(a[i], b[i])
  {
    OnlyEmptyEndsEmpty(h, a);
    OnlyEmptyEndsEmpty(h, b);
    if a != [] {
      var ra, rb := a[|a| - 1], b[|b| - 1];
      var ia, ib := a[..|a| - 1], b[..|b| - 1];
      assert a == ia + [ra] && b == ib + [rb];
      ChainedSnoc(h, ia, ra);
      ChainedSnoc(h, ib, rb);
      assert Digest(h, Covers(ra)) == Digest(h, Covers(rb));
      HeadFixesHistory(h, ia, ib);
    }
  }

  // ---- forking ----

  function Decimal(n: int): string
    decreases if n < 0 then 1 - n else n
  {
    if n < 0 then "-" + Decimal(-n)
    else if n < 10 then ["0123456789"[n]]
    else Decimal(n / 10) + ["0123456789"[n % 10]]
  }

  function ForkEvent(atSeq: int): Event
  {
    Event("", KLifecycle, BLifecycle(Lifecycle(Fork, "parent@" + Decimal(atSeq), None)), NO_IDENTITY)
  }

  /** The records of a log up to and including one sequence number. */
  function Upto(rs: seq<Record>, atSeq: int): seq<Record>
  {
    if rs == [] || rs[0].num > atSeq then [] else [rs[0]] + Upto(rs[1..], atSeq)
  }

  lemma {:induction false} UptoStops(rs: seq<Record>, atSeq: int)
    ensures Upto(rs, atSeq) <= rs
    ensures forall i | 0 <= i < |Upto(rs, atSeq)| :: rs[i].num <= atSeq
    ensures |Upto(rs, atSeq)| < |rs| ==> rs[|Upto(rs, atSeq)|].num > atSeq
  {
    if rs == [] || rs[0].num > atSeq {
    } else {
      UptoStops(rs[1..], atSeq);
      assert rs == [rs[0]] + rs[1..];
      forall i | 0 <= i < |Upto(rs, atSeq)|
        ensures rs[i].num <= atSeq
      {
        if i > 0 { assert rs[i] == rs[1..][i - 1]; }
      }
    }
  }

  /** The same records as another writer would have committed them. */
  function Refenced(rs: seq<Record>, fence: int): (out: seq<Record>)
    ensures |out| == |rs|
  {
    seq(|rs|, i requires 0 <= i < |rs| => rs[i].(fence := fence))
  }

  lemma {:induction false} RefencedEnds(rs: seq<Record>, fence: int)
    ensures HeadOf(Refenced(rs, fence)) == HeadOf(rs) && LastHash(Refenced(rs, fence)) == LastHash(rs)
  {
  }

  lemma {:induction false} RefencedSnoc(rs: seq<Record>, i: nat, fence: int)
    requires i < |rs|
    ensures Refenced(rs[..i], fence) + [rs[i].(fence := fence)] == Refenced(rs[..i + 1], fence)
  {
  }

  /** Appending a parent's next event to a copy of what precedes it reproduces the parent's record. */
  lemma {:induction false} CopyStep(h: Hasher, rs: seq<Record>, i: nat, fence: int)
    requires i < |rs| && Chained(h, rs) && Numbered(rs)
    ensures Appended(h, Refenced(rs[..i], fence), fence, i, fence, rs[i].event) == Ok(rs[i].(fence := fence))
    ensures Refenced(rs[..i], fence) + [rs[i].(fence := fence)] == Refenced(rs[..i + 1], fence)
  {
    hide Chained, Refenced;
    ChainedPrefix(h, rs, i);
    RefencedEnds(rs[..i], fence);
    RefencedSnoc(rs, i, fence);
    assert HeadOf(rs[..i]) == i;
  }

  lemma {:induction false} RefencedKeeps(h: Hasher, rs: seq<Record>, fence: int)
    requires Chained(h, rs)
    ensures Chained(h, Refenced(rs, fence))
    ensures HeadOf(Refenced(rs, fence)) == HeadOf(rs) && LastHash(Refenced(rs, fence)) == LastHash(rs)
    ensures Numbered(rs) ==> Numbered(Refenced(rs, fence))
  {
    if rs != [] {
      var n := |rs| - 1;
      RefencedKeeps(h, rs[..n], fence);
      assert Refenced(rs, fence)[..n] == Refenced(rs[..n], fence);
    }
  }

  lemma {:induction false} UptoIs(rs: seq<Record>, atSeq: int, n: nat)
    requires n <= |rs|
    requires forall i | 0 <= i < n :: rs[i].num <= atSeq
    requires n < |rs| ==> rs[n].num > atSeq
    ensures Upto(rs, atSeq) == rs[..n]
  {
    UptoStops(rs, atSeq);
  }

  /** Copies the parent's records up to atSeq into the empty log child under one fence. */
  method CopyPrefix(parent: Log, child: Log, atSeq: int, fence: int) returns (last: nat)
    requires parent != child && parent.hasher == child.hasher
    requires Numbered(parent.records) && Chained(parent.hasher, parent.records)
    requires child.records == [] && child.fence == fence
    modifies child`records
    ensures last <= |parent.records|
    ensures forall i | 0 <= i < last :: parent.records[i].num <= atSeq
    ensures last < |parent.records| ==> parent.records[last].num > atSeq
    ensures child.records == Refenced(parent.records[..last], fence)
  {
    hide Chained, Refenced, Appended;
    var rs := parent.Read(1);
    last := 0;
    assert rs[..0] == [];
    while last < |rs| && rs[last].num <= atSeq
      invariant last <= |rs|
      invariant forall i | 0 <= i < last :: rs[i].num <= atSeq
      invariant child.records == Refenced(rs[..last], fence)
    {
      CopyStep(child.hasher, rs, last, fence);
      var a := child.Append(last, fence, rs[last].event);
      assert a == Ok(rs[last].(fence := fence));
      last := last + 1;
    }
  }

  /** Branches parent at atSeq into the empty log child. The child repeats the parent's prefix record
  by record, hashes included; on success its next record is the fork marker, linked to the parent's
  hash at the fork point. Only a marker that cannot be canonicalised makes it fail. */
  method ForkLog(parent: Log, child: Log, atSeq: int) returns (r: Result<(), LogError>)
    requires parent != child && parent.hasher == child.hasher
    requires Numbered(parent.records) && Chained(parent.hasher, parent.records)
    requires child.records == []
    modifies child
    ensures child.fence == old(child.fence) + 1
    ensures var copy := Refenced(Upto(parent.records, atSeq), child.fence);
      match r
      case Err(e) => e == Encoding && child.records == copy
      case Ok(_) =>
        && |child.records| == |copy| + 1
        && child.records[..|copy|] == copy
        && child.records[|copy|].event == ForkEvent(atSeq)
        && child.records[|copy|].prevHash == LastHash(Upto(parent.records, atSeq))
    ensures Numbered(child.records) && Chained(child.hasher, child.records)
  {
    hide Chained, Refenced;
    var fence := child.NewFence();
    var last := CopyPrefix(parent, child, atSeq, fence);
    UptoIs(parent.records, atSeq, last);
    ghost var prefix := Upto(parent.records, atSeq);
    ChainedPrefix(child.hasher, parent.records, last);
    RefencedKeeps(child.hasher, prefix, fence);
    ghost var copy := child.records;
    assert HeadOf(prefix) == last;
    var a := child.Append(last, fence, ForkEvent(atSeq));
    if a.Err? {
      return Err(a.error);
    }
    AppendKeeps(child.hasher, copy, fence, last, fence, ForkEvent(atSeq));
    return Ok(());
  }
}
