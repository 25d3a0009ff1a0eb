/** Admission to a session (placement/session_guard.go).

An operation excludes other operations, a deletion excludes everything, and reads exclude deletions
only. Entries are mutable and shared with the releases handed out for them; they leave the map with
their last hold. The ghost set of outstanding holds is the specification. */
module SessionGuard {
  import opened Api

  datatype HoldKind = Operating | Reading | Deleting

  /** What an entry says. */
  datatype Counted = Counted(operation: bool, readers: int, deleting: bool)

  function Taken(c: Counted, kind: HoldKind): Counted
  {
    match kind
    case Operating => c.(operation := true)
    case Reading => c.(readers := c.readers + 1)
    case Deleting => c.(deleting := true)
  }

  function Given(c: Counted, kind: HoldKind): Counted
  {
    match kind
    case Operating => c.(operation := false)
    case Reading => c.(readers := c.readers - 1)
    case Deleting => c.(deleting := false)
  }

  const NOTHING := Counted(false, 0, false)

  class Entry {
    var operation: bool
    var readers: int
    var deleting: bool

    constructor ()
      ensures Value() == NOTHING
    {
      operation, readers, deleting := false, 0, false;
    }

    function Value(): Counted
      reads this
    {
      Counted(operation, readers, deleting)
    }

    method Take(kind: HoldKind)
      modifies this
      ensures Value() == Taken(old(Value()), kind)
    {
      match kind {
        case Operating => operation := true;
        case Reading => readers := readers + 1;
        case Deleting => deleting := true;
      }
    }

    method Give(kind: HoldKind)
      modifies this
      ensures Value() == Given(old(Value()), kind)
    {
      match kind {
        case Operating => operation := false;
        case Reading => readers := readers - 1;
        case Deleting => deleting := false;
      }
    }
  }

  /** One admission: what its release will undo, and on which entry. */
  class Hold {
    const uid: string
    const kind: HoldKind
    const entry: Entry

    constructor (uid: string, kind: HoldKind, entry: Entry)
      ensures this.uid == uid && this.kind == kind && this.entry == entry
    {
      this.uid, this.kind, this.entry := uid, kind, entry;
    }
  }

  /** The outstanding holds of one kind on one session. */
  ghost function HoldsOf(holds: set<Hold>, uid: string, kind: HoldKind): set<Hold>
  {
    set h | h in holds && h.uid == uid && h.kind == kind
  }

  ghost predicate Held(holds: set<Hold>, uid: string)
  {
    exists h :: h in holds && h.uid == uid
  }

  lemma {:induction false} HoldsAdd(holds: set<Hold>, h: Hold, uid: string, kind: HoldKind)
    requires h !in holds
    ensures HoldsOf(holds + {h}, uid, kind) ==
      if h.uid == uid && h.kind == kind then HoldsOf(holds, uid, kind) + {h} else HoldsOf(holds, uid, kind)
    ensures h !in HoldsOf(holds, uid, kind)
  {
  }

  lemma {:induction false} HoldsRemove(holds: set<Hold>, h: Hold, uid: string, kind: HoldKind)
    requires h in holds
    ensures HoldsOf(holds - {h}, uid, kind) == HoldsOf(holds, uid, kind) - {h}
    ensures h in HoldsOf(holds, uid, kind) <==> h.uid == uid && h.kind == kind
  {
  }

  /** Nothing is outstanding on a session iff no hold of any kind is. */
  lemma {:induction false} HeldByKind(holds: set<Hold>, uid: string)
    ensures Held(holds, uid) <==>
      HoldsOf(holds, uid, Operating) != {} || HoldsOf(holds, uid, Reading) != {} || HoldsOf(holds, uid, Deleting) != {}
  {
    if Held(holds, uid) {
      var h :| h in holds && h.uid == uid;
      assert h in HoldsOf(holds, uid, h.kind);
    }
  }

  /** What is outstanding decides what is admitted. */
  lemma {:induction false} AdmitsByKind(holds: set<Hold>, uid: string, kind: HoldKind)
    ensures Admits(holds, uid, kind) <==>
      && HoldsOf(holds, uid, Deleting) == {}
      && (kind == Operating ==> HoldsOf(holds, uid, Operating) == {})
      && (kind == Deleting ==> HoldsOf(holds, uid, Operating) == {} && HoldsOf(holds, uid, Reading) == {})
  {
    HeldByKind(holds, uid);
    forall h | h in holds && h.uid == uid
      ensures h in HoldsOf(holds, uid, h.kind)
    {
    }
  }

  /** A session that admits this kind of hold, given what is outstanding. */
  ghost predicate Admits(holds: set<Hold>, uid: string, kind: HoldKind)
  {
    match kind
    case Operating => forall h | h in holds && h.uid == uid :: h.kind == Reading
    case Reading => forall h | h in holds && h.uid == uid :: h.kind != Deleting
    case Deleting => !Held(holds, uid)
  }

  /** The table says exactly what is outstanding, and nothing outstanding excludes anything else. */
  ghost predicate Agree(table: map<string, Counted>, holds: set<Hold>)
  {
    && (forall uid :: uid in table <==> Held(holds, uid))
    && (forall uid | uid in table :: Counts(table[uid], holds, uid))
    && (forall g, h | g in holds && h in holds && g != h && g.uid == h.uid ::
          g.kind != Deleting && h.kind != Deleting && !(g.kind == Operating && h.kind == Operating))
  }

  ghost predicate Counts(c: Counted, holds: set<Hold>, uid: string)
  {
    && c.operation == (HoldsOf(holds, uid, Operating) != {})
    && c.deleting == (HoldsOf(holds, uid, Deleting) != {})
    && c.readers == |HoldsOf(holds, uid, Reading)|
  }

  lemma {:induction false} StillExclusive(holds: set<Hold>, n: Hold)
    requires n !in holds && Admits(holds, n.uid, n.kind)
    requires forall g, h | g in holds && h in holds && g != h && g.uid == h.uid ::
      g.kind != Deleting && h.kind != Deleting && !(g.kind == Operating && h.kind == Operating)
    ensures forall g, h | g in holds + {n} && h in holds + {n} && g != h && g.uid == h.uid ::
      g.kind != Deleting && h.kind != Deleting && !(g.kind == Operating && h.kind == Operating)
  {
    forall h | h in holds && h.uid == n.uid
      ensures n.kind != Deleting && h.kind != Deleting && !(n.kind == Operating && h.kind == Operating)
    {
      assert Held(holds, n.uid);
    }
  }

  lemma {:induction false} AgreeAdd(table: map<string, Counted>, holds: set<Hold>, h: Hold)
    requires Agree(table, holds) && h !in holds && Admits(holds, h.uid, h.kind)
    ensures Agree(table[h.uid := Taken(if h.uid in table then table[h.uid] else NOTHING, h.kind)], holds + {h})
  {
    hide HoldsOf, Held;
    var after, all := table[h.uid := Taken(if h.uid in table then table[h.uid] else NOTHING, h.kind)], holds + {h};
    StillExclusive(holds, h);
    forall u
      ensures u in after <==> Held(all, u)
      ensures u in after ==> Counts(after[u], all, u)
    {
      HoldsAdd(holds, h, u, Operating);
      HoldsAdd(holds, h, u, Reading);
      HoldsAdd(holds, h, u, Deleting);
      HeldByKind(holds, u);
      HeldByKind(all, u);
    }
  }

  lemma {:induction false} AgreeRemove(table: map<string, Counted>, holds: set<Hold>, h: Hold)
    requires Agree(table, holds) && h in holds
    ensures h.uid in table
    ensures var c := Given(table[h.uid], h.kind);
      Agree(if c == NOTHING then table - {h.uid} else table[h.uid := c], holds - {h})
  {
    hide HoldsOf, Held, Counts, Given;
    HoldsRemove(holds, h, h.uid, h.kind);
    HeldByKind(holds, h.uid);
    var c, all := Given(table[h.uid], h.kind), holds - {h};
    var after := if c == NOTHING then table - {h.uid} else table[h.uid := c];
    Alone(holds, h);
    GivenThere(table[h.uid], holds, h);
    forall u
      ensures u in after <==> Held(all, u)
      ensures u in after ==> Counts(after[u], all, u)
    {
      if u != h.uid { SameElsewhere(table, holds, h, u); }
    }
  }

  /** A hold that ends leaves the other sessions alone. */
  lemma {:induction false} SameElsewhere(table: map<string, Counted>, holds: set<Hold>, h: Hold, uid: string)
    requires h in holds && h.uid != uid
    ensures Held(holds - {h}, uid) <==> Held(holds, uid)
    ensures uid in table ==> (Counts(table[uid], holds - {h}, uid) <==> Counts(table[uid], holds, uid))
  {
    hide HoldsOf;
    HoldsRemove(holds, h, uid, Operating);
    HoldsRemove(holds, h, uid, Reading);
    HoldsRemove(holds, h, uid, Deleting);
  }

  /** The counters go down with the hold, and are all clear iff it was the last one on its session. */
  lemma {:induction false} GivenThere(c: Counted, holds: set<Hold>, h: Hold)
    requires Counts(c, holds, h.uid) && h in holds
    requires h.kind != Reading ==> HoldsOf(holds, h.uid, h.kind) == {h}
    ensures Counts(Given(c, h.kind), holds - {h}, h.uid)
    ensures Given(c, h.kind) == NOTHING <==> !Held(holds - {h}, h.uid)
  {
    hide HoldsOf, Held;
    HoldsRemove(holds, h, h.uid, Operating);
    HoldsRemove(holds, h, h.uid, Reading);
    HoldsRemove(holds, h, h.uid, Deleting);
    HeldByKind(holds - {h}, h.uid);
  }

  /** An operation is the only one on its session, and a deletion is alone there. */
  lemma {:induction false} Alone(holds: set<Hold>, h: Hold)
    requires h in holds
    requires forall g, k | g in holds && k in holds && g != k && g.uid == k.uid ::
      g.kind != Deleting && k.kind != Deleting && !(g.kind == Operating && k.kind == Operating)
    ensures h.kind != Reading ==> HoldsOf(holds, h.uid, h.kind) == {h}
  {
  }

  /** A table refuses exactly what the outstanding holds do not admit. */
  lemma {:induction false} TableAdmits(table: map<string, Counted>, holds: set<Hold>, uid: string, kind: HoldKind)
    requires Agree(table, holds)
    ensures var c := if uid in table then table[uid] else NOTHING;
      Admits(holds, uid, kind) <==>
      !(c.deleting || (kind == Operating && c.operation) || (kind == Deleting && (c.operation || c.readers > 0)))
  {
    hide HoldsOf, Held, Admits;
    AdmitsByKind(holds, uid, kind);
    HeldByKind(holds, uid);
  }

  class Guard {
    var entries: map<string, Entry>
    ghost var holds: set<Hold>

    ghost function Table(): map<string, Counted>
      reads this`entries, entries.Values
    {
      map uid | uid in entries :: entries[uid].Value()
    }

    /** No two sessions share an entry, and a hold's entry is still its session's. */
    ghost predicate Linked()
      reads this
    {
      && (forall u, v | u in entries && v in entries && u != v :: entries[u] != entries[v])
      && (forall h | h in holds :: h.uid in entries && h.entry == entries[h.uid])
    }

    ghost predicate Valid()
      reads this, entries.Values
    {
      Linked() && Agree(Table(), holds)
    }

    constructor ()
      ensures Valid() && holds == {} && entries == map[]
    {
      entries, holds := map[], {};
    }

    /** The entry of a session, made when there is none. */
    method EntryFor(uid: string) returns (entry: Entry)
      requires Linked()
      modifies this`entries
      ensures Linked() && uid in entries && entry == entries[uid]
      ensures uid in old(entries) ==> entries == old(entries)
      ensures uid !in old(entries) ==> fresh(entry) && entries == old(entries)[uid := entry] && entry.Value() == NOTHING
    {
      if uid !in entries {
        entry := new Entry();
        entries := entries[uid := entry];
      }
      entry := entries[uid];
    }

    /** Admits a hold unless one outstanding excludes it. A refusal leaves everything as it was. */
    method Acquire(uid: string, kind: HoldKind) returns (h: Hold?)
      requires Valid()
      modifies this, entries.Values
      ensures Valid()
      ensures h != null <==> old(Admits(holds, uid, kind))
      ensures h == null ==> holds == old(holds) && entries == old(entries)
      ensures h != null ==> fresh(h) && h.uid == uid && h.kind == kind && holds == old(holds) + {h}
    {
      hide Agree, Admits, Taken;
      ghost var table := Table();
      TableAdmits(table, holds, uid, kind);
      var entry := EntryFor(uid);
      assert Table() == table[uid := entry.Value()];
      if entry.deleting || (kind == Operating && entry.operation) ||
         (kind == Deleting && (entry.operation || entry.readers > 0)) {
        return null;
      }
      h := Admit(uid, kind, entry, table);
    }

    /** Records a hold that is admitted. */
    method Admit(uid: string, kind: HoldKind, entry: Entry, ghost table: map<string, Counted>) returns (h: Hold)
      requires Linked() && uid in entries && entry == entries[uid]
      requires Table() == table[uid := entry.Value()] && entry.Value() == (if uid in table then table[uid] else NOTHING)
      requires Agree(table, holds) && Admits(holds, uid, kind)
      modifies this`holds, entry
      ensures Valid()
      ensures fresh(h) && h.uid == uid && h.kind == kind && holds == old(holds) + {h}
    {
      hide Agree, Admits, Taken;
      entry.Take(kind);
      h := new Hold(uid, kind, entry);
      AgreeAdd(table, holds, h);
      assert Table() == table[uid := Taken(if uid in table then table[uid] else NOTHING, kind)];
      holds := holds + {h};
    }

    /** Gives a hold back, once. Its entry is still the session's, and leaves with its last hold. */
    method Release(h: Hold)
      requires Valid() && h in holds
      modifies this, entries.Values
      ensures Valid() && holds == old(holds) - {h}
      ensures h.uid in old(entries) && h.entry == old(entries[h.uid])
    {
      hide Agree, Given;
      ghost var table := Table();
      AgreeRemove(table, holds, h);
      var entry := h.entry;
      entry.Give(h.kind);
      ghost var c := Given(table[h.uid], h.kind);
      assert Table() == table[h.uid := c];
      if !entry.operation && entry.readers == 0 && !entry.deleting {
        entries := entries - {h.uid};
        assert Table() == table - {h.uid};
        NoneLeft(Table(), holds - {h}, h.uid);
      }
      holds := holds - {h};
    }

    method Busy() returns (b: bool)
      requires Valid()
      ensures b <==> holds != {}
    {
      EmptyTable(Table(), holds);
      assert Table().Keys == entries.Keys;
      b := |entries| > 0;
    }
  }

  lemma {:induction false} EmptyTable(table: map<string, Counted>, holds: set<Hold>)
    requires Agree(table, holds)
    ensures table.Keys == {} <==> holds == {}
  {
    if h :| h in holds { assert Held(holds, h.uid); }
    if u :| u in table { assert Held(holds, u); }
  }

  lemma {:induction false} NoneLeft(table: map<string, Counted>, holds: set<Hold>, uid: string)
    requires Agree(table, holds) && uid !in table
    ensures forall h | h in holds :: h.uid != uid
  {
    assert !Held(holds, uid);
  }
}
