/**
 * The record store behind `DatabaseStorage`: the `principles` and `tactics`
 * tables, the read projections that join them, and the inserts and deletes.
 *
 * `Db` is the abstract content of the database; the functions on it say what
 * each operation observably does, and class `Store` performs the same
 * operations by updating its tables in place.
 */
module Storage {
  import opened Wrappers
  import opened Schema
  import opened Ordering

  /** Both tables, in table order, and the next unused identifier. */
  datatype Db = Db(principles: seq<Principle>, tactics: seq<Tactic>, nextId: Id)

  /** An insert the database refuses: a tactic whose principle does not exist. */
  datatype StoreError = ForeignKeyViolation

  function PrincipleOrder(p: Principle): int { p.order }
  function TacticOrder(t: Tactic): int { t.order }

  function PrincipleIds(ps: seq<Principle>): set<Id> { set p | p in ps :: p.id }
  function TacticIds(ts: seq<Tactic>): set<Id> { set t | t in ts :: t.id }

  /** The primary key of `principles`: no two rows share an id. */
  ghost predicate UniquePrincipleIds(ps: seq<Principle>) {
    ps == [] || (ps[0].id !in PrincipleIds(ps[1..]) && UniquePrincipleIds(ps[1..]))
  }

  /** The primary key of `tactics`. */
  ghost predicate UniqueTacticIds(ts: seq<Tactic>) {
    ts == [] || (ts[0].id !in TacticIds(ts[1..]) && UniqueTacticIds(ts[1..]))
  }

  /** The tables' constraints, and that `nextId` is fresh. */
  ghost predicate Consistent(db: Db) {
    && UniquePrincipleIds(db.principles)
    && UniqueTacticIds(db.tactics)
    && (forall id :: id in PrincipleIds(db.principles) ==> id < db.nextId)
    && (forall id :: id in TacticIds(db.tactics) ==> id < db.nextId)
    // the foreign key: every tactic belongs to an existing principle
    && (forall t :: t in db.tactics ==> t.principleId in PrincipleIds(db.principles))
  }

  // ---------------------------------------------------------------------------
  // Row filters (the WHERE clauses)
  // ---------------------------------------------------------------------------

  /** `WHERE principle_id = pid`, in table order. */
  function TacticsOf(ts: seq<Tactic>, pid: Id): (r: seq<Tactic>)
    ensures |r| <= |ts|
  {
    if ts == [] then []
    else (if ts[0].principleId == pid then [ts[0]] else []) + TacticsOf(ts[1..], pid)
  }

  /** `TacticsOf` keeps exactly the rows that reference `pid`. */
  lemma {:induction false} TacticsOfMembers(ts: seq<Tactic>, pid: Id)
    ensures forall t :: t in TacticsOf(ts, pid) <==> t in ts && t.principleId == pid
    decreases |ts|
  {
    if ts != [] {
      TacticsOfMembers(ts[1..], pid);
      assert ts == [ts[0]] + ts[1..];
    }
  }

  /** `WHERE principle_id <> pid`: the rows a cascade on `pid` leaves behind. */
  function TacticsNotOf(ts: seq<Tactic>, pid: Id): (r: seq<Tactic>)
    ensures forall t :: t in r <==> t in ts && t.principleId != pid
  {
    if ts == [] then []
    else (if ts[0].principleId != pid then [ts[0]] else []) + TacticsNotOf(ts[1..], pid)
  }

  /** `WHERE id <> id`: the tactic rows a delete by id leaves behind. */
  function TacticsExcept(ts: seq<Tactic>, id: Id): (r: seq<Tactic>)
    ensures forall t :: t in r <==> t in ts && t.id != id
  {
    if ts == [] then []
    else (if ts[0].id != id then [ts[0]] else []) + TacticsExcept(ts[1..], id)
  }

  /** `WHERE id <> id` on `principles`. */
  function PrinciplesExcept(ps: seq<Principle>, id: Id): (r: seq<Principle>)
    ensures forall p :: p in r <==> p in ps && p.id != id
  {
    if ps == [] then []
    else (if ps[0].id != id then [ps[0]] else []) + PrinciplesExcept(ps[1..], id)
  }

  /** A cascade on `pid` and the rows it removes split the table between them. */
  lemma {:induction false} CascadeSplitsTable(ts: seq<Tactic>, pid: Id)
    ensures |TacticsOf(ts, pid)| + |TacticsNotOf(ts, pid)| == |ts|
  {
    if ts != [] {
      CascadeSplitsTable(ts[1..], pid);
    }
  }

  /** A cascade on a principle no tactic references removes nothing. */
  lemma {:induction false} CascadeOnUnreferenced(ts: seq<Tactic>, pid: Id)
    requires forall t :: t in ts ==> t.principleId != pid
    ensures TacticsNotOf(ts, pid) == ts
  {
    if ts != [] {
      assert ts[0] in ts;
      CascadeOnUnreferenced(ts[1..], pid);
      assert ts == [ts[0]] + ts[1..];
    }
  }

  lemma {:induction false} CascadeKeepsKey(ts: seq<Tactic>, pid: Id)
    requires UniqueTacticIds(ts)
    ensures UniqueTacticIds(TacticsNotOf(ts, pid))
  {
    if ts != [] {
      CascadeKeepsKey(ts[1..], pid);
      var rest := TacticsNotOf(ts[1..], pid);
      assert TacticIds(rest) <= TacticIds(ts[1..]);
      assert rest == TacticsNotOf(ts, pid) || TacticsNotOf(ts, pid) == [ts[0]] + rest;
      if TacticsNotOf(ts, pid) != rest {
        assert TacticsNotOf(ts, pid)[1..] == rest;
      }
    }
  }

  /** Deleting a tactic by id keeps the primary key. */
  lemma {:induction false} DeleteTacticKeepsKey(ts: seq<Tactic>, id: Id)
    requires UniqueTacticIds(ts)
    ensures UniqueTacticIds(TacticsExcept(ts, id))
  {
    if ts != [] {
      DeleteTacticKeepsKey(ts[1..], id);
      var rest := TacticsExcept(ts[1..], id);
      assert TacticIds(rest) <= TacticIds(ts[1..]);
      if ts[0].id != id {
        assert TacticsExcept(ts, id) == [ts[0]] + rest;
        assert TacticsExcept(ts, id)[1..] == rest;
        assert ts[0].id !in TacticIds(rest);
      } else {
        assert TacticsExcept(ts, id) == rest;
      }
    }
  }

  /** Deleting an absent tactic id changes nothing. */
  lemma {:induction false} DeleteAbsentTactic(ts: seq<Tactic>, id: Id)
    requires id !in TacticIds(ts)
    ensures TacticsExcept(ts, id) == ts
  {
    if ts != [] {
      assert ts[0] in ts;
      assert TacticIds(ts[1..]) <= TacticIds(ts);
      DeleteAbsentTactic(ts[1..], id);
      assert ts == [ts[0]] + ts[1..];
    }
  }

  /** Deleting a present tactic id removes exactly one row. */
  lemma {:induction false} DeletePresentTactic(ts: seq<Tactic>, id: Id)
    requires UniqueTacticIds(ts) && id in TacticIds(ts)
    ensures |TacticsExcept(ts, id)| == |ts| - 1
  {
    if ts[0].id == id {
      DeleteAbsentTactic(ts[1..], id);
    } else {
      assert ts == [ts[0]] + ts[1..];
      var t :| t in ts && t.id == id;
      assert t in ts[1..];
      DeletePresentTactic(ts[1..], id);
    }
  }

  /** Deleting a principle row by id keeps the primary key. */
  lemma {:induction false} DeletePrincipleKeepsKey(ps: seq<Principle>, id: Id)
    requires UniquePrincipleIds(ps)
    ensures UniquePrincipleIds(PrinciplesExcept(ps, id))
  {
    if ps != [] {
      DeletePrincipleKeepsKey(ps[1..], id);
      var rest := PrinciplesExcept(ps[1..], id);
      assert PrincipleIds(rest) <= PrincipleIds(ps[1..]);
      if ps[0].id != id {
        assert PrinciplesExcept(ps, id) == [ps[0]] + rest;
        assert PrinciplesExcept(ps, id)[1..] == rest;
        assert ps[0].id !in PrincipleIds(rest);
      } else {
        assert PrinciplesExcept(ps, id) == rest;
      }
    }
  }

  /** Deleting an absent principle id changes nothing. */
  lemma {:induction false} DeleteAbsentPrinciple(ps: seq<Principle>, id: Id)
    requires id !in PrincipleIds(ps)
    ensures PrinciplesExcept(ps, id) == ps
  {
    if ps != [] {
      assert ps[0] in ps;
      assert PrincipleIds(ps[1..]) <= PrincipleIds(ps);
      DeleteAbsentPrinciple(ps[1..], id);
      assert ps == [ps[0]] + ps[1..];
    }
  }

  /** Deleting a present principle id removes exactly one row. */
  lemma {:induction false} DeletePresentPrinciple(ps: seq<Principle>, id: Id)
    requires UniquePrincipleIds(ps) && id in PrincipleIds(ps)
    ensures |PrinciplesExcept(ps, id)| == |ps| - 1
  {
    if ps[0].id == id {
      DeleteAbsentPrinciple(ps[1..], id);
    } else {
      assert ps == [ps[0]] + ps[1..];
      var p :| p in ps && p.id == id;
      assert p in ps[1..];
      DeletePresentPrinciple(ps[1..], id);
    }
  }

  // ---------------------------------------------------------------------------
  // Reads: getPrinciples and getPrinciple
  // ---------------------------------------------------------------------------

  /** `allPrinciples.map(p => ({ ...p, tactics: allTactics.filter(t => t.principleId === p.id) }))`. */
  function Group(ps: seq<Principle>, ts: seq<Tactic>): (r: seq<PrincipleWithTactics>)
    ensures |r| == |ps|
    ensures forall i :: 0 <= i < |ps| ==> r[i] == WithTactics(ps[i], TacticsOf(ts, ps[i].id))
  {
    if ps == [] then []
    else [WithTactics(ps[0], TacticsOf(ts, ps[0].id))] + Group(ps[1..], ts)
  }

  /** Both tables read ordered by `order`, each principle carrying its own tactics. */
  function GetPrinciples(db: Db): seq<PrincipleWithTactics> {
    Group(SortBy(db.principles, PrincipleOrder), SortBy(db.tactics, TacticOrder))
  }

  /** The principle rows of a listing, in listing order. */
  function Bases(view: seq<PrincipleWithTactics>): seq<Principle>
  {
    seq(|view|, i requires 0 <= i < |view| => view[i].Base())
  }

  /** Stripping the tactics from a grouped listing gives back its principles, in order. */
  lemma BasesOfGroup(ps: seq<Principle>, ts: seq<Tactic>)
    ensures Bases(Group(ps, ts)) == ps
  {
    forall i | 0 <= i < |ps| ensures Bases(Group(ps, ts))[i] == ps[i] {
      assert Group(ps, ts)[i] == WithTactics(ps[i], TacticsOf(ts, ps[i].id));
    }
  }

  /** The first row with this id (`const [principle] = ... where(eq(principles.id, id))`). */
  function FindPrinciple(ps: seq<Principle>, id: Id): (r: Option<Principle>)
    ensures r.None? <==> id !in PrincipleIds(ps)
    ensures r.Some? ==> r.value in ps && r.value.id == id
  {
    if ps == [] then None
    else if ps[0].id == id then Some(ps[0])
    else
      assert PrincipleIds(ps) == {ps[0].id} + PrincipleIds(ps[1..]) by {
        assert ps == [ps[0]] + ps[1..];
      }
      FindPrinciple(ps[1..], id)
  }

  /** One principle with its tactics ordered by `order`, or nothing. */
  function GetPrinciple(db: Db, id: Id): (r: Option<PrincipleWithTactics>)
    ensures r.None? <==> id !in PrincipleIds(db.principles)
    ensures r.Some? ==>
      && r.value.id == id
      && r.value.Base() in db.principles
      && multiset(r.value.tactics) == multiset(TacticsOf(db.tactics, id))
      && SortedBy(r.value.tactics, TacticOrder)
  {
    match FindPrinciple(db.principles, id)
    case None => None
    case Some(p) => Some(WithTactics(p, SortBy(TacticsOf(db.tactics, id), TacticOrder)))
  }

  /** How many times `t` occurs among the rows `WHERE principle_id = pid`. */
  lemma {:induction false} TacticsOfCount(ts: seq<Tactic>, pid: Id, t: Tactic)
    ensures multiset(TacticsOf(ts, pid))[t] == if t.principleId == pid then multiset(ts)[t] else 0
  {
    if ts != [] {
      TacticsOfCount(ts[1..], pid, t);
      assert ts == [ts[0]] + ts[1..];
    }
  }

  /** Filtering a reordering of the rows yields a reordering of the filtered rows. */
  lemma TacticsOfPermutation(a: seq<Tactic>, b: seq<Tactic>, pid: Id)
    requires multiset(a) == multiset(b)
    ensures multiset(TacticsOf(a, pid)) == multiset(TacticsOf(b, pid))
  {
    forall t ensures multiset(TacticsOf(a, pid))[t] == multiset(TacticsOf(b, pid))[t] {
      TacticsOfCount(a, pid, t);
      TacticsOfCount(b, pid, t);
    }
  }

  /** Filtering rows that are in `order` keeps them in `order`. */
  lemma {:induction false} TacticsOfSorted(ts: seq<Tactic>, pid: Id)
    requires SortedBy(ts, TacticOrder)
    ensures SortedBy(TacticsOf(ts, pid), TacticOrder)
  {
    if ts != [] {
      assert SortedBy(ts[1..], TacticOrder);
      TacticsOfSorted(ts[1..], pid);
      var rest := TacticsOf(ts[1..], pid);
      TacticsOfMembers(ts[1..], pid);
      forall k | 0 <= k < |rest| ensures ts[0].order <= rest[k].order {
        assert rest[k] in ts[1..];
      }
    }
  }

  /** The principle rows of getPrinciples are the stored rows sorted by `order`. */
  lemma ListedPrinciples(db: Db)
    ensures Bases(GetPrinciples(db)) == SortBy(db.principles, PrincipleOrder)
  {
    BasesOfGroup(SortBy(db.principles, PrincipleOrder), SortBy(db.tactics, TacticOrder));
  }

  /** The tactics getPrinciples attaches to its `i`-th principle. */
  lemma ListedTactics(db: Db, i: nat)
    requires i < |GetPrinciples(db)|
    ensures multiset(GetPrinciples(db)[i].tactics) == multiset(TacticsOf(db.tactics, GetPrinciples(db)[i].id))
    ensures SortedBy(GetPrinciples(db)[i].tactics, TacticOrder)
  {
    var ps := SortBy(db.principles, PrincipleOrder);
    var ts := SortBy(db.tactics, TacticOrder);
    var v := GetPrinciples(db)[i];
    assert v.tactics == TacticsOf(ts, ps[i].id) && v.id == ps[i].id;
    TacticsOfPermutation(ts, db.tactics, v.id);
    TacticsOfSorted(ts, v.id);
  }

  /**
   * getPrinciples lists every stored principle exactly once, in non-decreasing
   * `order`, and gives each exactly the stored tactics that reference it, in
   * non-decreasing `order`; a principle without tactics gets an empty list.
   */
  lemma GetPrinciplesExact(db: Db)
    ensures |GetPrinciples(db)| == |db.principles|
    ensures multiset(Bases(GetPrinciples(db))) == multiset(db.principles)
    ensures SortedBy(Bases(GetPrinciples(db)), PrincipleOrder)
    ensures forall i :: 0 <= i < |GetPrinciples(db)| ==>
      && multiset(GetPrinciples(db)[i].tactics) == multiset(TacticsOf(db.tactics, GetPrinciples(db)[i].id))
      && SortedBy(GetPrinciples(db)[i].tactics, TacticOrder)
      && (TacticsOf(db.tactics, GetPrinciples(db)[i].id) == [] ==> GetPrinciples(db)[i].tactics == [])
  {
    ListedPrinciples(db);
    var sorted := SortBy(db.principles, PrincipleOrder);
    assert Bases(GetPrinciples(db)) == sorted;
    assert |sorted| == |multiset(sorted)| == |multiset(db.principles)| == |db.principles|;
    forall i | 0 <= i < |GetPrinciples(db)|
      ensures multiset(GetPrinciples(db)[i].tactics) == multiset(TacticsOf(db.tactics, GetPrinciples(db)[i].id))
      ensures SortedBy(GetPrinciples(db)[i].tactics, TacticOrder)
      ensures TacticsOf(db.tactics, GetPrinciples(db)[i].id) == [] ==> GetPrinciples(db)[i].tactics == []
    {
      ListedTactics(db, i);
      if TacticsOf(db.tactics, GetPrinciples(db)[i].id) == [] {
        assert |multiset(GetPrinciples(db)[i].tactics)| == 0;
      }
    }
  }

  /** Every principle getPrinciples lists is found by getPrinciple, with the same tactics up to ties. */
  lemma ListedIsFound(db: Db, i: nat)
    requires Consistent(db)
    requires i < |GetPrinciples(db)|
    ensures GetPrinciple(db, GetPrinciples(db)[i].id).Some?
    ensures GetPrinciple(db, GetPrinciples(db)[i].id).value.Base() == GetPrinciples(db)[i].Base()
    ensures multiset(GetPrinciple(db, GetPrinciples(db)[i].id).value.tactics) == multiset(GetPrinciples(db)[i].tactics)
  {
    var v := GetPrinciples(db)[i];
    ListedPrinciples(db);
    assert Bases(GetPrinciples(db))[i] == v.Base();
    assert v.Base() in multiset(SortBy(db.principles, PrincipleOrder));
    assert v.Base() in db.principles;
    var found := FindPrinciple(db.principles, v.id).value;
    UniqueIdsDetermineRow(db.principles, found, v.Base());
    ListedTactics(db, i);
  }

  /** Every principle getPrinciple finds is listed by getPrinciples. */
  lemma FoundIsListed(db: Db, id: Id)
    requires GetPrinciple(db, id).Some?
    ensures exists i :: 0 <= i < |GetPrinciples(db)| && GetPrinciples(db)[i].id == id
  {
    ListedPrinciples(db);
    var sorted := SortBy(db.principles, PrincipleOrder);
    var p := GetPrinciple(db, id).value.Base();
    assert p in multiset(sorted);
    var i :| 0 <= i < |sorted| && sorted[i] == p;
    assert Bases(GetPrinciples(db))[i] == p;
  }

  /** Under the primary key, a principle row is determined by its id. */
  lemma {:induction false} UniqueIdsDetermineRow(ps: seq<Principle>, p: Principle, q: Principle)
    requires UniquePrincipleIds(ps)
    requires p in ps && q in ps && p.id == q.id
    ensures p == q
  {
    assert ps == [ps[0]] + ps[1..];
    if p != ps[0] && q != ps[0] {
      UniqueIdsDetermineRow(ps[1..], p, q);
    }
  }

  // ---------------------------------------------------------------------------
  // Writes: createPrinciple, createTactic, deletePrinciple, deleteTactic
  // ---------------------------------------------------------------------------

  /** `insert(principles).values(ins).returning()`: one row with the next fresh id. */
  function AddPrinciple(db: Db, ins: InsertPrinciple): Db {
    Db(db.principles + [NewPrinciple(db.nextId, ins)], db.tactics, db.nextId + 1)
  }

  /** `insert(tactics).values(ins).returning()`: refused by the foreign key when the principle does not exist. */
  function AddTactic(db: Db, ins: InsertTactic): Result<Db, StoreError> {
    if ins.principleId in PrincipleIds(db.principles) then
      Ok(Db(db.principles, db.tactics + [NewTactic(db.nextId, ins)], db.nextId + 1))
    else
      Err(ForeignKeyViolation)
  }

  /** The two deletes of deletePrinciple, taken as one step: its tactics, then the principle. */
  function RemovePrinciple(db: Db, id: Id): Db {
    Db(PrinciplesExcept(db.principles, id), TacticsNotOf(db.tactics, id), db.nextId)
  }

  /** `delete(tactics).where(eq(tactics.id, id))`. */
  function RemoveTactic(db: Db, id: Id): Db {
    Db(db.principles, TacticsExcept(db.tactics, id), db.nextId)
  }

  lemma {:induction false} AppendFreshPrinciple(ps: seq<Principle>, p: Principle)
    requires UniquePrincipleIds(ps) && p.id !in PrincipleIds(ps)
    ensures UniquePrincipleIds(ps + [p])
    ensures PrincipleIds(ps + [p]) == PrincipleIds(ps) + {p.id}
  {
    if ps != [] {
      assert ps == [ps[0]] + ps[1..];
      assert PrincipleIds(ps) == {ps[0].id} + PrincipleIds(ps[1..]);
      AppendFreshPrinciple(ps[1..], p);
      assert (ps + [p])[1..] == ps[1..] + [p];
    }
  }

  lemma {:induction false} AppendFreshTactic(ts: seq<Tactic>, t: Tactic)
    requires UniqueTacticIds(ts) && t.id !in TacticIds(ts)
    ensures UniqueTacticIds(ts + [t])
    ensures TacticIds(ts + [t]) == TacticIds(ts) + {t.id}
  {
    if ts != [] {
      assert ts == [ts[0]] + ts[1..];
      assert TacticIds(ts) == {ts[0].id} + TacticIds(ts[1..]);
      AppendFreshTactic(ts[1..], t);
      assert (ts + [t])[1..] == ts[1..] + [t];
    }
  }

  /** A principle no tactic references is fetched back with no tactics. */
  lemma FetchUnreferenced(db: Db, p: Principle)
    requires UniquePrincipleIds(db.principles) && p in db.principles
    requires forall t :: t in db.tactics ==> t.principleId != p.id
    ensures GetPrinciple(db, p.id) == Some(WithTactics(p, []))
  {
    CascadeOnUnreferenced(db.tactics, p.id);
    CascadeSplitsTable(db.tactics, p.id);
    assert TacticsOf(db.tactics, p.id) == [];
    var found := FindPrinciple(db.principles, p.id).value;
    UniqueIdsDetermineRow(db.principles, found, p);
  }

  /** The new principle's id is fresh, so the store stays consistent. */
  lemma AddPrincipleConsistent(db: Db, ins: InsertPrinciple)
    requires Consistent(db)
    ensures var p := NewPrinciple(db.nextId, ins);
      && p.id !in PrincipleIds(db.principles) && p.id !in TacticIds(db.tactics)
      && Consistent(AddPrinciple(db, ins))
  {
    AppendFreshPrinciple(db.principles, NewPrinciple(db.nextId, ins));
  }

  /**
   * createPrinciple adds exactly one principle, with an id no row has, keeps the
   * store consistent and changes nothing else; fetched back, it has no tactics.
   */
  lemma CreatePrincipleEffect(db: Db, ins: InsertPrinciple)
    requires Consistent(db)
    ensures var r := AddPrinciple(db, ins); var p := NewPrinciple(db.nextId, ins);
      && Consistent(r)
      && p.id !in PrincipleIds(db.principles) && p.id !in TacticIds(db.tactics)
      && r.principles == db.principles + [p]
      && r.tactics == db.tactics
      && GetPrinciple(r, p.id) == Some(WithTactics(p, []))
  {
    var r := AddPrinciple(db, ins);
    var p := NewPrinciple(db.nextId, ins);
    AddPrincipleConsistent(db, ins);
    assert forall t :: t in r.tactics ==> t.principleId != p.id;
    assert p in r.principles;
    FetchUnreferenced(r, p);
  }

  /**
   * createTactic is refused exactly when its principle does not exist; otherwise
   * it adds exactly one tactic with a fresh id, keeps the store consistent, and
   * the new tactic is among its principle's tactics.
   */
  lemma CreateTacticEffect(db: Db, ins: InsertTactic)
    requires Consistent(db)
    ensures AddTactic(db, ins).Err? <==> ins.principleId !in PrincipleIds(db.principles)
    ensures AddTactic(db, ins).Ok? ==>
      var r := AddTactic(db, ins).value; var t := NewTactic(db.nextId, ins);
      && Consistent(r)
      && t.id !in TacticIds(db.tactics) && t.id !in PrincipleIds(db.principles)
      && r.principles == db.principles
      && r.tactics == db.tactics + [t]
      && GetPrinciple(r, ins.principleId).Some?
      && t in GetPrinciple(r, ins.principleId).value.tactics
  {
    if AddTactic(db, ins).Ok? {
      var r := AddTactic(db, ins).value;
      var t := NewTactic(db.nextId, ins);
      AppendFreshTactic(db.tactics, t);
      TacticsOfMembers(r.tactics, ins.principleId);
      assert t in TacticsOf(r.tactics, ins.principleId);
      assert t in multiset(GetPrinciple(r, ins.principleId).value.tactics);
    }
  }

  /**
   * After deletePrinciple(id) no principle has that id and no tactic references
   * it, every other row is still there, and the store stays consistent; an id
   * that does not exist leaves the store as it was.
   */
  lemma DeletePrincipleEffect(db: Db, id: Id)
    requires Consistent(db)
    ensures var r := RemovePrinciple(db, id);
      && Consistent(r)
      && id !in PrincipleIds(r.principles)
      && GetPrinciple(r, id) == None
      && (forall t :: t in r.tactics ==> t.principleId != id)
      && (forall p :: p in r.principles <==> p in db.principles && p.id != id)
      && (forall t :: t in r.tactics <==> t in db.tactics && t.principleId != id)
      && (id !in PrincipleIds(db.principles) ==> r == db)
  {
    var r := RemovePrinciple(db, id);
    DeletePrincipleKeepsKey(db.principles, id);
    CascadeKeepsKey(db.tactics, id);
    assert PrincipleIds(r.principles) <= PrincipleIds(db.principles);
    assert TacticIds(r.tactics) <= TacticIds(db.tactics);
    forall t | t in r.tactics ensures t.principleId in PrincipleIds(r.principles) {
      var p :| p in db.principles && p.id == t.principleId;
      assert p in r.principles;
    }
    if id !in PrincipleIds(db.principles) {
      DeleteAbsentPrinciple(db.principles, id);
      CascadeOnUnreferenced(db.tactics, id);
    }
  }

  /**
   * deleteTactic(id) removes only the tactic with that id: every principle and
   * every other tactic stays, the store stays consistent, and an id that does
   * not exist leaves the store as it was.
   */
  lemma DeleteTacticEffect(db: Db, id: Id)
    requires Consistent(db)
    ensures var r := RemoveTactic(db, id);
      && Consistent(r)
      && r.principles == db.principles
      && id !in TacticIds(r.tactics)
      && (forall t :: t in r.tactics <==> t in db.tactics && t.id != id)
      && (id in TacticIds(db.tactics) ==> |r.tactics| == |db.tactics| - 1)
      && (id !in TacticIds(db.tactics) ==> r == db)
  {
    DeleteTacticKeepsKey(db.tactics, id);
    assert TacticIds(RemoveTactic(db, id).tactics) <= TacticIds(db.tactics);
    if id in TacticIds(db.tactics) {
      DeletePresentTactic(db.tactics, id);
    } else {
      DeleteAbsentTactic(db.tactics, id);
    }
  }

  // ---------------------------------------------------------------------------
  // Multi-row inserts (used by seeding)
  // ---------------------------------------------------------------------------

  /** The rows a multi-row insert materialises, with consecutive fresh ids from `start`. */
  function NewPrinciples(start: Id, rows: seq<InsertPrinciple>): (r: seq<Principle>)
    ensures |r| == |rows|
    decreases |rows|
  {
    if rows == [] then [] else [NewPrinciple(start, rows[0])] + NewPrinciples(start + 1, rows[1..])
  }

  /** The `i`-th created principle gets id `start + i` and the `i`-th row's values. */
  lemma {:induction false} NewPrinciplesAt(start: Id, rows: seq<InsertPrinciple>)
    ensures forall i :: 0 <= i < |rows| ==> NewPrinciples(start, rows)[i] == NewPrinciple(start + i, rows[i])
    decreases |rows|
  {
    if rows != [] {
      NewPrinciplesAt(start + 1, rows[1..]);
    }
  }

  function NewTactics(start: Id, rows: seq<InsertTactic>): (r: seq<Tactic>)
    ensures |r| == |rows|
    decreases |rows|
  {
    if rows == [] then [] else [NewTactic(start, rows[0])] + NewTactics(start + 1, rows[1..])
  }

  /** The `i`-th created tactic is row `i` with the `i`-th fresh id. */
  lemma {:induction false} NewTacticsAt(start: Id, rows: seq<InsertTactic>)
    ensures forall i :: 0 <= i < |rows| ==> NewTactics(start, rows)[i] == NewTactic(start + i, rows[i])
    decreases |rows|
  {
    if rows != [] {
      NewTacticsAt(start + 1, rows[1..]);
    }
  }

  /** `insert(principles).values(rows).returning()`. */
  function AddPrinciples(db: Db, rows: seq<InsertPrinciple>): Db {
    Db(db.principles + NewPrinciples(db.nextId, rows), db.tactics, db.nextId + |rows|)
  }

  /** Every row of a tactic insert names an existing principle. */
  predicate ParentsExist(ps: seq<Principle>, rows: seq<InsertTactic>) {
    forall i :: 0 <= i < |rows| ==> rows[i].principleId in PrincipleIds(ps)
  }

  /** `insert(tactics).values(rows)`: one statement, refused as a whole when any row's principle is missing. */
  function AddTactics(db: Db, rows: seq<InsertTactic>): Result<Db, StoreError> {
    if ParentsExist(db.principles, rows) then
      Ok(Db(db.principles, db.tactics + NewTactics(db.nextId, rows), db.nextId + |rows|))
    else
      Err(ForeignKeyViolation)
  }

  /** A multi-row principle insert is the same as inserting its first row and then the rest. */
  lemma AddPrinciplesSplit(db: Db, rows: seq<InsertPrinciple>)
    requires rows != []
    ensures AddPrinciples(db, rows) == AddPrinciples(AddPrinciple(db, rows[0]), rows[1..])
  {
    var first := NewPrinciple(db.nextId, rows[0]);
    var rest := NewPrinciples(db.nextId + 1, rows[1..]);
    var mid := AddPrinciple(db, rows[0]);
    calc {
      AddPrinciples(db, rows);
      Db(db.principles + ([first] + rest), db.tactics, db.nextId + |rows|);
      Db((db.principles + [first]) + rest, db.tactics, (db.nextId + 1) + |rows[1..]|);
      AddPrinciples(mid, rows[1..]);
    }
  }

  /** A multi-row principle insert keeps the store consistent. */
  lemma {:induction false} AddPrinciplesConsistent(db: Db, rows: seq<InsertPrinciple>)
    requires Consistent(db)
    ensures Consistent(AddPrinciples(db, rows))
    decreases |rows|
  {
    if rows == [] {
      assert AddPrinciples(db, rows) == db;
    } else {
      CreatePrincipleEffect(db, rows[0]);
      AddPrinciplesSplit(db, rows);
      AddPrinciplesConsistent(AddPrinciple(db, rows[0]), rows[1..]);
    }
  }

  /** An accepted multi-row tactic insert is the same as inserting its first row and then the rest. */
  lemma AddTacticsSplit(db: Db, rows: seq<InsertTactic>)
    requires rows != [] && ParentsExist(db.principles, rows)
    ensures AddTactic(db, rows[0]).Ok?
    ensures AddTactics(db, rows) == AddTactics(AddTactic(db, rows[0]).value, rows[1..])
  {
    assert rows[0].principleId in PrincipleIds(db.principles);
    var next := AddTactic(db, rows[0]).value;
    assert ParentsExist(next.principles, rows[1..]) by {
      forall i | 0 <= i < |rows[1..]| ensures rows[1..][i].principleId in PrincipleIds(next.principles) {
        assert rows[1..][i] == rows[i + 1];
      }
    }
    var first := NewTactic(db.nextId, rows[0]);
    var rest := NewTactics(db.nextId + 1, rows[1..]);
    assert NewTactics(db.nextId, rows) == [first] + rest;
    assert db.tactics + ([first] + rest) == (db.tactics + [first]) + rest;
    assert AddTactics(next, rows[1..]) == Ok(Db(db.principles, (db.tactics + [first]) + rest, db.nextId + |rows|));
  }

  /** An accepted multi-row tactic insert keeps the store consistent. */
  lemma {:induction false} AddTacticsConsistent(db: Db, rows: seq<InsertTactic>)
    requires Consistent(db)
    ensures AddTactics(db, rows).Ok? ==> Consistent(AddTactics(db, rows).value)
    decreases |rows|
  {
    if rows == [] {
      assert db.tactics + NewTactics(db.nextId, rows) == db.tactics;
    } else if ParentsExist(db.principles, rows) {
      AddTacticsSplit(db, rows);
      CreateTacticEffect(db, rows[0]);
      AddTacticsConsistent(AddTactic(db, rows[0]).value, rows[1..]);
    }
  }

  // ---------------------------------------------------------------------------
  // The store object
  // ---------------------------------------------------------------------------

  /** DatabaseStorage over the two tables it reads and writes. */
  class Store {
    var principles: seq<Principle>
    var tactics: seq<Tactic>
    var nextId: Id

    function State(): Db
      reads this
    {
      Db(principles, tactics, nextId)
    }

    ghost predicate Valid()
      reads this
    {
      Consistent(State())
    }

    /** An empty database. */
    constructor ()
      ensures Valid() && State() == Db([], [], 0)
    {
      principles, tactics, nextId := [], [], 0;
    }

    method CreatePrinciple(ins: InsertPrinciple) returns (created: Principle)
      requires Valid()
      modifies this
      ensures Valid()
      ensures created == NewPrinciple(old(nextId), ins)
      ensures created.id !in PrincipleIds(old(principles))
      ensures principles == old(principles) + [created] && tactics == old(tactics)
      ensures State() == AddPrinciple(old(State()), ins)
    {
      AddPrincipleConsistent(State(), ins);
      created := NewPrinciple(nextId, ins);
      principles := principles + [created];
      nextId := nextId + 1;
    }

    method CreateTactic(ins: InsertTactic) returns (r: Result<Tactic, StoreError>)
      requires Valid()
      modifies this
      ensures Valid()
      ensures r.Err? <==> ins.principleId !in PrincipleIds(old(principles))
      ensures r.Err? ==> State() == old(State())
      ensures r.Ok? ==> r.value == NewTactic(old(nextId), ins) && tactics == old(tactics) + [r.value]
      ensures principles == old(principles)
      ensures State() == match AddTactic(old(State()), ins) case Ok(d) => d case Err(_) => old(State())
    {
      CreateTacticEffect(State(), ins);
      if ins.principleId in PrincipleIds(principles) {
        var t := NewTactic(nextId, ins);
        tactics := tactics + [t];
        nextId := nextId + 1;
        r := Ok(t);
      } else {
        r := Err(ForeignKeyViolation);
      }
    }

    method DeletePrinciple(id: Id)
      requires Valid()
      modifies this
      ensures Valid()
      ensures id !in PrincipleIds(principles) && forall t :: t in tactics ==> t.principleId != id
      ensures State() == RemovePrinciple(old(State()), id)
    {
      DeletePrincipleEffect(State(), id);
      tactics := TacticsNotOf(tactics, id);
      principles := PrinciplesExcept(principles, id);
    }

    method DeleteTactic(id: Id)
      requires Valid()
      modifies this
      ensures Valid()
      ensures principles == old(principles) && id !in TacticIds(tactics)
      ensures State() == RemoveTactic(old(State()), id)
    {
      DeleteTacticEffect(State(), id);
      tactics := TacticsExcept(tactics, id);
    }

    method InsertPrinciples(rows: seq<InsertPrinciple>) returns (created: seq<Principle>)
      requires Valid()
      modifies this
      ensures Valid()
      ensures created == NewPrinciples(old(nextId), rows)
      ensures State() == AddPrinciples(old(State()), rows)
    {
      AddPrinciplesConsistent(State(), rows);
      created := NewPrinciples(nextId, rows);
      principles := principles + created;
      nextId := nextId + |rows|;
    }

    method InsertTactics(rows: seq<InsertTactic>) returns (r: Result<seq<Tactic>, StoreError>)
      requires Valid()
      modifies this
      ensures Valid()
      ensures r.Ok? <==> AddTactics(old(State()), rows).Ok?
      ensures State() == match AddTactics(old(State()), rows) case Ok(d) => d case Err(_) => old(State())
    {
      AddTacticsConsistent(State(), rows);
      if ParentsExist(principles, rows) {
        var created := NewTactics(nextId, rows);
        tactics := tactics + created;
        nextId := nextId + |rows|;
        r := Ok(created);
      } else {
        r := Err(ForeignKeyViolation);
      }
    }
  }
}
