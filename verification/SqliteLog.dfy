/** One session of the SQLite store (sqlitelog/sqlitelog.go, sqlitelog/deletion.go).

Events are stored in their wire form and read back decoded. Each method is one transaction: it checks,
writes the event row, the session row and the approval projection together, or changes nothing. */
module SqliteLog {
  import opened Api
  import opened Codec
  import opened EventLog
  import opened Projection

  datatype EventRow = EventRow(num: int, prevHash: string, hash: string, fence: int, blob: WireEvent)

  datatype Deletion = Active | Pending(at: int)

  /** A record as a reader gets it. */
  function Loaded(row: EventRow): Record
  {
    Record(row.num, row.prevHash, row.hash, row.fence, DecodeEvent(row.blob))
  }

  function LoadedAll(rows: seq<EventRow>): (rs: seq<Record>)
    ensures |rs| == |rows|
  {
    seq(|rows|, i requires 0 <= i < |rows| => Loaded(rows[i]))
  }

  predicate IsDelete(e: Event)
  {
    e.kind.KLifecycle? && e.body.BLifecycle? && e.body.lifecycle.kind.Delete?
  }

  const DELETE := Event("", KLifecycle, BLifecycle(Lifecycle(Delete, "", None)), NO_IDENTITY)

  function RowOf(r: Record): EventRow
  {
    EventRow(r.num, r.prevHash, r.hash, r.fence, EncodeEvent(r.event))
  }

  /** Why an append is refused, if it is. */
  function Refusal(rows: seq<EventRow>, known: bool, fence: int, deletion: Deletion, expected: int, given: int, ev: Event): Option<LogError>
  {
    if ev.kind.KParked? then Some(TransportOnly)
    else if known && deletion.Pending? then Some(LogError.Deleted)
    else if IsDelete(ev) then Some(Reserved)
    else if expected != HeadOf(LoadedAll(rows)) then Some(Conflict)
    else if given < (if known then fence else 0) then Some(Fenced)
    else None
  }

  lemma {:induction false} NormalIsSame(e: Event)
    ensures SameWire(e, DecodeEvent(EncodeEvent(e)))
    ensures IsDelete(DecodeEvent(EncodeEvent(e))) <==> IsDelete(e)
  {
    EventNormal(e);
  }

  lemma {:induction false} LoadedSnoc(rows: seq<EventRow>, row: EventRow)
    ensures LoadedAll(rows + [row]) == LoadedAll(rows) + [Loaded(row)]
  {
  }

  /** The journal is numbered from one and its chain verifies. */
  ghost predicate Sound(h: Hasher, rows: seq<EventRow>)
  {
    EventLog.Numbered(LoadedAll(rows)) && Chained(h, LoadedAll(rows))
  }

  /** Record fences never decrease and none is newer than the session's. */
  ghost predicate FencesOrdered(rows: seq<EventRow>, fence: int)
  {
    && (forall i, j | 0 <= i < j < |rows| :: rows[i].fence <= rows[j].fence)
    && (forall i | 0 <= i < |rows| :: rows[i].fence <= fence)
  }

  /** A pending deletion is recorded by the last record, and no other record is a deletion. */
  ghost predicate DeletionRecorded(rows: seq<EventRow>, known: bool, deletion: Deletion)
  {
    && (forall i | 0 <= i < |rows| && IsDelete(Loaded(rows[i]).event) :: i == |rows| - 1 && deletion.Pending?)
    && (deletion.Pending? ==> known && rows != [] && IsDelete(Loaded(rows[|rows| - 1]).event) && deletion.at == |rows|)
  }

  lemma {:induction false} SoundHead(h: Hasher, rows: seq<EventRow>)
    requires Sound(h, rows)
    ensures HeadOf(LoadedAll(rows)) == |rows| == if rows == [] then 0 else rows[|rows| - 1].num
    ensures LastHash(LoadedAll(rows)) == if rows == [] then "" else rows[|rows| - 1].hash
  {
  }

  lemma {:induction false} StillActive(rows: seq<EventRow>, known: bool, deletion: Deletion, r: Record)
    requires DeletionRecorded(rows, known, deletion) && !(known && deletion.Pending?) && !IsDelete(r.event)
    ensures DeletionRecorded(rows + [RowOf(r)], true, deletion)
  {
    hide EncodeEvent, DecodeEvent;
    NormalIsSame(r.event);
  }

  /** A committed row continues the chain as it will be read back. */
  lemma {:induction false} RowSound(h: Hasher, rows: seq<EventRow>, fence: int, ev: Event)
    requires Sound(h, rows) && Canonical(h) && h(LastHash(LoadedAll(rows)), |rows| + 1, ev).Some?
    ensures var r := Record(|rows| + 1, LastHash(LoadedAll(rows)), h(LastHash(LoadedAll(rows)), |rows| + 1, ev).value, fence, ev);
      Sound(h, rows + [RowOf(r)])
  {
    var rs := LoadedAll(rows);
    var r := Record(|rows| + 1, LastHash(rs), h(LastHash(rs), |rows| + 1, ev).value, fence, ev);
    NormalIsSame(ev);
    LoadedSnoc(rows, RowOf(r));
    ChainedSnoc(h, rs, Loaded(RowOf(r)));
  }

  class Store {
    const hasher: Hasher
    var rows: seq<EventRow>
    var known: bool
    var fence: int
    var deletion: Deletion
    const reporting: Reporting

    ghost function Value(): Session
      reads this
    {
      Session(rows, known, fence, deletion)
    }

    /** What is read back. */
    ghost function View(): seq<Record>
      reads this
    {
      LoadedAll(rows)
    }

    ghost predicate Valid()
      reads this, reporting
    {
      && Sound(hasher, rows)
      && DeletionRecorded(rows, known, deletion)
      && (!known ==> rows == [])
      && reporting.Value().Mirrors(Entries(View()))
    }

    constructor (hasher: Hasher)
      ensures Valid() && rows == [] && !known && this.hasher == hasher && fresh(reporting)
    {
      this.hasher := hasher;
      rows, known, fence, deletion := [], false, 0, Active;
      var r := new Reporting();
      reporting := r;
      new;
      assert Entries(View()) == [];
    }

    /** The next fence; the first one of a new session is one. A deleted session mints none. */
    method NewFence() returns (r: Result<int, LogError>)
      requires Valid()
      modifies this
      ensures Valid() && rows == old(rows) && deletion == old(deletion)
      ensures r == if old(deletion).Pending? then Err(LogError.Deleted) else Ok(if old(known) then old(fence) + 1 else 1)
      ensures Value() == Next(hasher, old(Value()), Mint) && (r.Ok? ==> known && fence == r.value)
    {
      if known && deletion.Pending? {
        return Err(LogError.Deleted);
      }
      fence := if known then fence + 1 else 1;
      known := true;
      return Ok(fence);
    }

    /** Commits the event as the next record, or changes nothing. */
    method Append(expected: int, given: int, ev: Event) returns (r: Result<Record, LogError>)
      requires Valid() && Canonical(hasher)
      modifies this, reporting
      ensures Valid()
      ensures r == match old(Refusal(rows, known, fence, deletion, expected, given, ev))
        case Some(e) => Err(e)
        case None => Appended(hasher, old(View()), given, expected, given, ev)
      ensures r == Err(TransportOnly) <==> ev.kind == KParked
      ensures r == Err(LogError.Deleted) <==> ev.kind != KParked && old(known && deletion.Pending?)
      ensures var admitted := ev.kind != KParked && !old(known && deletion.Pending?) && !IsDelete(ev);
        && (r == Err(Reserved) <==> ev.kind != KParked && !old(known && deletion.Pending?) && IsDelete(ev))
        && (r == Err(Conflict) <==> admitted && expected != |old(rows)|)
        && (r == Err(Fenced) <==> admitted && expected == |old(rows)| && given < if old(known) then old(fence) else 0)
        && (r == Err(Encoding) <==> admitted && expected == |old(rows)| && given >= (if old(known) then old(fence) else 0) &&
                                    hasher(LastHash(old(View())), expected + 1, ev).None?)
      ensures r.Err? ==> r.error in {TransportOnly, LogError.Deleted, Reserved, Conflict, Fenced, Encoding}
      ensures r.Ok? ==>
        && r.value.num == |old(rows)| + 1 && r.value.fence == given && r.value.event == ev
        && r.value.prevHash == LastHash(old(View())) && Some(r.value.hash) == hasher(r.value.prevHash, r.value.num, ev)
      ensures Value() == Next(hasher, old(Value()), Put(expected, given, ev))
      ensures rows == if r.Ok? then old(rows) + [RowOf(r.value)] else old(rows)
    {
      hide Sound, DeletionRecorded, Columns.Mirrors, EncodeEvent, DecodeEvent;
      if ev.kind.KParked? {
        return Err(TransportOnly);
      }
      if known && deletion.Pending? {
        return Err(LogError.Deleted);
      }
      if IsDelete(ev) {
        return Err(Reserved);
      }
      SoundHead(hasher, rows);
      var head := if rows == [] then 0 else rows[|rows| - 1].num;
      if expected != head {
        return Err(Conflict);
      }
      if given < (if known then fence else 0) {
        return Err(Fenced);
      }
      var prev := if rows == [] then "" else rows[|rows| - 1].hash;
      match hasher(prev, head + 1, ev) {
        case None =>
          return Err(Encoding);
        case Some(hash) =>
          var record := Record(head + 1, prev, hash, given, ev);
          StillActive(rows, known, deletion, record);
          Write(record);
          if !known {
            fence := 0;
            known := true;
          }
          return Ok(record);
      }
    }

    /** Writes the row of a record and takes its event into the projection. */
    method Write(record: Record)
      requires Sound(hasher, rows) && Canonical(hasher) && reporting.Value().Mirrors(Entries(View()))
      requires record.num == HeadOf(View()) + 1 && record.prevHash == LastHash(View())
      requires hasher(record.prevHash, record.num, record.event) == Some(record.hash)
      modifies this`rows, reporting
      ensures rows == old(rows) + [RowOf(record)]
      ensures Sound(hasher, rows) && reporting.Value().Mirrors(Entries(View()))
    {
      hide Columns.Mirrors, EncodeEvent, DecodeEvent, Chained;
      ghost var es := Entries(View());
      assert HeadOf(View()) == |rows|;
      RowSound(hasher, rows, record.fence, record.event);
      LoadedSnoc(rows, RowOf(record));
      rows := rows + [RowOf(record)];
      reporting.Project(record.num, DecodeEvent(EncodeEvent(record.event)), es);
      assert Entries(View()) == es + [Entry(record.num, DecodeEvent(EncodeEvent(record.event)))];
    }

    /** Records permanent deletion, once. */
    method DeleteSession() returns (r: Result<int, LogError>)
      requires Valid() && Canonical(hasher)
      modifies this, reporting
      ensures Valid()
      ensures r == if !old(known) then Err(NotFound)
                   else if old(deletion).Pending? then Ok(old(deletion).at)
                   else if hasher(LastHash(old(View())), |old(rows)| + 1, DELETE).None? then Err(Encoding)
                   else Ok(|old(rows)| + 1)
      ensures Value() == Next(hasher, old(Value()), Drop)
    {
      hide Sound, Columns.Mirrors, EncodeEvent, DecodeEvent;
      if !known {
        return Err(NotFound);
      }
      if deletion.Pending? {
        return Ok(deletion.at);
      }
      SoundHead(hasher, rows);
      var head := if rows == [] then 0 else rows[|rows| - 1].num;
      var prev := if rows == [] then "" else rows[|rows| - 1].hash;
      match hasher(prev, head + 1, DELETE) {
        case None =>
          return Err(Encoding);
        case Some(hash) =>
          var record := Record(head + 1, prev, hash, fence + 1, DELETE);
          NormalIsSame(DELETE);
          Write(record);
          fence := fence + 1;
          deletion := Pending(record.num);
          return Ok(record.num);
      }
    }

    /** The records from one sequence number on, decoded, in order. */
    method Read(from: int) returns (out: seq<Record>)
      ensures out == EventLog.From'(View(), from)
      ensures EventLog.Numbered(View()) ==>
        out == if from <= 1 then View() else if from <= |rows| then View()[from - 1..] else []
    {
      hide EventLog.Numbered;
      out := [];
      assert LoadedAll(rows[..0]) == [];
      for i := 0 to |rows|
        invariant out == EventLog.From'(LoadedAll(rows[..i]), from)
      {
        LoadedSnoc(rows[..i], rows[i]);
        assert rows[..i + 1] == rows[..i] + [rows[i]];
        assert (LoadedAll(rows[..i]) + [Loaded(rows[i])])[..i] == LoadedAll(rows[..i]);
        if rows[i].num >= from {
          out := out + [Loaded(rows[i])];
        }
      }
      assert rows[..|rows|] == rows;
      if EventLog.Numbered(View()) { FromIsRest(View(), from); }
    }

    /** Walks the chain of what is read back. A store that only ever committed passes. */
    method Verify() returns (intact: bool)
      requires EventLog.Numbered(View())
      ensures intact <==> Chained(hasher, View())
      ensures Valid() ==> intact
    {
      var records := Read(1);
      intact := VerifyRecords(hasher, records);
    }
  }

  // ---- any interleaving of writers ----

  /** The stored state of one session. */
  datatype Session = Session(rows: seq<EventRow>, known: bool, fence: int, deletion: Deletion)

  const NEW := Session([], false, 0, Active)

  /** One transaction of some writer. */
  datatype Transaction = Mint | Put(expected: int, given: int, event: Event) | Drop

  function Next(h: Hasher, s: Session, t: Transaction): Session
  {
    match t
    case Mint =>
      if s.known && s.deletion.Pending? then s
      else s.(known := true, fence := if s.known then s.fence + 1 else 1)
    case Put(expected, given, ev) =>
      if Refusal(s.rows, s.known, s.fence, s.deletion, expected, given, ev).Some? then s
      else
        (match Appended(h, LoadedAll(s.rows), given, expected, given, ev)
         case Err(_) => s
         case Ok(r) => s.(rows := s.rows + [RowOf(r)], known := true, fence := if s.known then s.fence else 0))
    case Drop =>
      if !s.known || s.deletion.Pending? then s
      else
        var rs := LoadedAll(s.rows);
        match h(LastHash(rs), HeadOf(rs) + 1, DELETE)
        case None => s
        case Some(hash) =>
          s.(rows := s.rows + [RowOf(Record(HeadOf(rs) + 1, LastHash(rs), hash, s.fence + 1, DELETE))],
             fence := s.fence + 1, deletion := Pending(HeadOf(rs) + 1))
  }

  /** A writer only uses fences the session has minted. */
  predicate UsesMinted(s: Session, t: Transaction)
  {
    t.Put? ==> t.given <= s.fence
  }

  ghost predicate Orderly(h: Hasher, s: Session)
  {
    && Sound(h, s.rows)
    && FencesOrdered(s.rows, s.fence)
    && DeletionRecorded(s.rows, s.known, s.deletion)
    && (!s.known ==> s.rows == [] && s.fence == 0)
    && s.fence >= 0
  }

  /** Once deletion is pending, nothing changes: no record and no fence is added, and deleting again does
  nothing. */
  lemma {:induction false} PendingIsFinal(h: Hasher, s: Session, t: Transaction)
    requires Orderly(h, s) && s.deletion.Pending?
    ensures Next(h, s, t) == s
    ensures |s.rows| == s.deletion.at && IsDelete(Loaded(s.rows[|s.rows| - 1]).event)
    ensures forall i | 0 <= i < |s.rows| - 1 :: !IsDelete(Loaded(s.rows[i]).event)
  {
  }

  /** One transaction keeps the order. A record it adds extends exactly the head its writer named and
  carries the newest fence. */
  lemma {:induction false} NextOrderly(h: Hasher, s: Session, t: Transaction)
    requires Canonical(h) && Orderly(h, s) && UsesMinted(s, t)
    ensures var s' := Next(h, s, t);
      && Orderly(h, s')
      && s.rows <= s'.rows && |s'.rows| <= |s.rows| + 1 && s'.fence >= s.fence
      && (s'.rows != s.rows ==> s'.rows[|s.rows|].fence == s'.fence)
      && (s'.rows != s.rows && t.Put? ==> t.expected == |s.rows| && s'.rows[|s.rows|].num == t.expected + 1)
  {
    hide Sound, EncodeEvent, DecodeEvent;
    SoundHead(h, s.rows);
    var rs := LoadedAll(s.rows);
    match t
    case Mint =>
    case Put(expected, given, ev) =>
      if Next(h, s, t) != s {
        RowSound(h, s.rows, given, ev);
        StillActive(s.rows, s.known, s.deletion, Record(|s.rows| + 1, LastHash(rs), "", given, ev));
        NormalIsSame(ev);
      }
    case Drop =>
      if Next(h, s, t) != s {
        RowSound(h, s.rows, s.fence + 1, DELETE);
        NormalIsSame(DELETE);
      }
  }

  function SessionAfter(h: Hasher, run: seq<Transaction>): Session
  {
    if run == [] then NEW else Next(h, SessionAfter(h, run[..|run| - 1]), run[|run| - 1])
  }

  predicate AllMinted(h: Hasher, run: seq<Transaction>)
  {
    run == [] || (AllMinted(h, run[..|run| - 1]) && UsesMinted(SessionAfter(h, run[..|run| - 1]), run[|run| - 1]))
  }

  /** What a session was after the first n transactions of a run it still is, or has only grown from; after
  a deletion nothing changes it. */
  lemma {:induction false} RunKeeps(h: Hasher, run: seq<Transaction>, n: nat)
    requires Canonical(h) && AllMinted(h, run) && n <= |run|
    ensures var was, s := SessionAfter(h, run[..n]), SessionAfter(h, run);
      && Orderly(h, was) && Orderly(h, s)
      && was.rows <= s.rows && was.fence <= s.fence
      && (was.deletion.Pending? ==> s == was)
  {
    hide Orderly, Next, UsesMinted;
    if n == |run| {
      assert run[..n] == run;
      if run != [] {
        var init := run[..|run| - 1];
        RunKeeps(h, init, |init|);
        assert init[..|init|] == init;
        NextOrderly(h, SessionAfter(h, init), run[|run| - 1]);
      } else {
        NewOrderly(h);
      }
    } else {
      var init := run[..|run| - 1];
      assert init[..n] == run[..n];
      RunKeeps(h, init, n);
      NextOrderly(h, SessionAfter(h, init), run[|run| - 1]);
      if SessionAfter(h, init).deletion.Pending? { PendingIsFinal(h, SessionAfter(h, init), run[|run| - 1]); }
    }
  }

  lemma {:induction false} NewOrderly(h: Hasher)
    ensures Orderly(h, NEW)
  {
  }

  /** In any interleaving of writers that use minted fences: records are numbered from one, the chain
  verifies as it is read back, record fences never decrease and none is newer than the session's; records
  are only ever added, and once a deletion is recorded it is the last record and no later transaction
  changes the session. */
  lemma {:induction false} RunOrderly(h: Hasher, run: seq<Transaction>)
    requires Canonical(h) && AllMinted(h, run)
    ensures Orderly(h, SessionAfter(h, run))
    ensures forall n | 0 <= n <= |run| ::
      && SessionAfter(h, run[..n]).rows <= SessionAfter(h, run).rows
      && (SessionAfter(h, run[..n]).deletion.Pending? ==> SessionAfter(h, run) == SessionAfter(h, run[..n]))
  {
    hide Orderly, SessionAfter, AllMinted;
    RunKeeps(h, run, |run|);
    forall n | 0 <= n <= |run|
      ensures SessionAfter(h, run[..n]).rows <= SessionAfter(h, run).rows
      ensures SessionAfter(h, run[..n]).deletion.Pending? ==> SessionAfter(h, run) == SessionAfter(h, run[..n])
    {
      RunKeeps(h, run, n);
    }
  }
}
