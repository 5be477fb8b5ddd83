/**
 * What seedDatabase guarantees: it runs only on an empty store, creates the
 * example principles and tactics with the intended ownership, keeps the store
 * consistent, and running it twice is the same as running it once.
 */
module SeedProperties {
  import opened Wrappers
  import opened Schema
  import opened Storage
  import opened SeedData
  import opened Seed
  import Ordering

  /** How many example tactics belong to the `k`-th example principle. */
  function OwnedBy(templates: seq<SeedTactic>, k: SeedIndex): nat {
    if templates == [] then 0
    else (if templates[0].owner == k then 1 else 0) + OwnedBy(templates[1..], k)
  }

  /** How many insert rows reference principle `pid`. */
  function RowsReferencing(rows: seq<InsertTactic>, pid: Id): nat {
    if rows == [] then 0
    else (if rows[0].principleId == pid then 1 else 0) + RowsReferencing(rows[1..], pid)
  }

  lemma {:induction false} InsertedRowsOf(start: Id, rows: seq<InsertTactic>, pid: Id)
    ensures |TacticsOf(NewTactics(start, rows), pid)| == RowsReferencing(rows, pid)
    decreases |rows|
  {
    if rows != [] {
      InsertedRowsOf(start + 1, rows[1..], pid);
      assert NewTactics(start, rows)[1..] == NewTactics(start + 1, rows[1..]);
    }
  }

  lemma {:induction false} SeedRowsOf(created: seq<Principle>, templates: seq<SeedTactic>, k: SeedIndex)
    requires |created| == 5
    requires forall a, b :: 0 <= a < b < 5 ==> created[a].id != created[b].id
    ensures RowsReferencing(SeedTacticRows(created, templates), created[k].id) == OwnedBy(templates, k)
  {
    if templates != [] {
      SeedRowsOf(created, templates[1..], k);
      assert SeedTacticRows(created, templates)[1..] == SeedTacticRows(created, templates[1..]);
    }
  }

  lemma {:induction false} OwnedBySuffix(s: seq<SeedTactic>, i: nat, k: SeedIndex)
    requires i < |s|
    ensures OwnedBy(s[i..], k) == (if s[i].owner == k then 1 else 0) + OwnedBy(s[i + 1..], k)
  {
    assert s[i..][1..] == s[i + 1..];
  }

  /** Counting a run of three rows one at a time. */
  lemma OwnedByThree(s: seq<SeedTactic>, i: nat, k: SeedIndex)
    requires i + 3 <= |s|
    ensures OwnedBy(s[i..], k)
         == (if s[i].owner == k then 1 else 0) + (if s[i + 1].owner == k then 1 else 0)
          + (if s[i + 2].owner == k then 1 else 0) + OwnedBy(s[i + 3..], k)
  {
    OwnedBySuffix(s, i, k);
    OwnedBySuffix(s, i + 1, k);
    OwnedBySuffix(s, i + 2, k);
  }

  /** The first four example tactics belong to principles 0, 0, 0 and 1. */
  lemma SeedOwnershipFirst(k: SeedIndex)
    ensures OwnedBy(SeedTactics, k) == [3, 1, 0, 0, 0][k] + OwnedBy(SeedTactics[4..], k)
  {
    var s := SeedTactics;
    assert s[0..] == s;
    OwnedBySuffix(s, 0, k);
    OwnedByThree(s, 1, k);
  }

  /** The next three belong to principles 1, 1 and 2. */
  lemma SeedOwnershipSecond(k: SeedIndex)
    ensures OwnedBy(SeedTactics[4..], k) == [0, 2, 1, 0, 0][k] + OwnedBy(SeedTactics[7..], k)
  {
    OwnedByThree(SeedTactics, 4, k);
  }

  /** The next three belong to principles 2, 2 and 3. */
  lemma SeedOwnershipThird(k: SeedIndex)
    ensures OwnedBy(SeedTactics[7..], k) == [0, 0, 2, 1, 0][k] + OwnedBy(SeedTactics[10..], k)
  {
    OwnedByThree(SeedTactics, 7, k);
  }

  /** The last three belong to principles 3, 4 and 4. */
  lemma SeedOwnershipLast(k: SeedIndex)
    ensures OwnedBy(SeedTactics[10..], k) == [0, 0, 0, 1, 2][k]
  {
    OwnedByThree(SeedTactics, 10, k);
    assert SeedTactics[13..] == [];
  }

  /** The example set gives its five principles 3, 3, 3, 2 and 2 tactics. */
  lemma SeedOwnership(k: SeedIndex)
    ensures OwnedBy(SeedTactics, k) == [3, 3, 3, 2, 2][k]
  {
    SeedOwnershipFirst(k);
    SeedOwnershipSecond(k);
    SeedOwnershipThird(k);
    SeedOwnershipLast(k);
  }

  /** Seeding a store that already holds principles changes nothing. */
  lemma SeedSkipsNonEmptyStore(db: Db)
    requires |db.principles| > 0
    ensures Seeded(db) == db
  {
  }

  /** A consistent store without principles has no tactics either. */
  lemma NoPrinciplesNoTactics(db: Db)
    requires Consistent(db) && db.principles == []
    ensures db.tactics == []
  {
  }

  /** Every generated tactic row references one of the created principles. */
  lemma SeedRowsHaveParents(created: seq<Principle>, templates: seq<SeedTactic>)
    requires |created| == 5
    ensures ParentsExist(created, SeedTacticRows(created, templates))
  {
    var rows := SeedTacticRows(created, templates);
    forall i | 0 <= i < |rows| ensures rows[i].principleId in PrincipleIds(created) {
      assert created[templates[i].owner] in created;
    }
  }

  /** Seeding an empty store creates the principles and then one tactic per template, with consecutive ids. */
  lemma SeedRows(db: Db, ps: seq<InsertPrinciple>, templates: seq<SeedTactic>)
    requires db.principles == [] && db.tactics == [] && |ps| == 5
    ensures SeedWith(db, ps, templates).tactics
         == NewTactics(db.nextId + 5, SeedTacticRows(NewPrinciples(db.nextId, ps), templates))
    ensures SeedWith(db, ps, templates).nextId == db.nextId + 5 + |templates|
  {
    var created := NewPrinciples(db.nextId, ps);
    var rows := SeedTacticRows(created, templates);
    var withPrinciples := AddPrinciples(db, ps);
    assert withPrinciples == Db(created, [], db.nextId + 5);
    SeedRowsHaveParents(created, templates);
    assert [] + NewTactics(db.nextId + 5, rows) == NewTactics(db.nextId + 5, rows);
  }

  /** Seeding an empty store keeps it consistent. */
  lemma SeedWithConsistent(db: Db, ps: seq<InsertPrinciple>, templates: seq<SeedTactic>)
    requires Consistent(db) && db.principles == [] && |ps| == 5
    ensures Consistent(SeedWith(db, ps, templates))
  {
    var withPrinciples := AddPrinciples(db, ps);
    AddPrinciplesConsistent(db, ps);
    AddTacticsConsistent(withPrinciples, SeedTacticRows(NewPrinciples(db.nextId, ps), templates));
  }

  /** The principles of one multi-row insert have distinct ids. */
  lemma CreatedIdsDistinct(start: Id, ps: seq<InsertPrinciple>)
    ensures forall a, b :: 0 <= a < b < |ps| ==> NewPrinciples(start, ps)[a].id != NewPrinciples(start, ps)[b].id
  {
    NewPrinciplesAt(start, ps);
  }

  /** The `k`-th of the created principles owns exactly the tactic rows its templates name. */
  lemma CreatedOwnership(start: Id, ps: seq<InsertPrinciple>, templates: seq<SeedTactic>, k: SeedIndex)
    requires |ps| == 5
    ensures |TacticsOf(NewTactics(start + 5, SeedTacticRows(NewPrinciples(start, ps), templates)), NewPrinciples(start, ps)[k].id)|
         == OwnedBy(templates, k)
  {
    var created := NewPrinciples(start, ps);
    CreatedIdsDistinct(start, ps);
    InsertedRowsOf(start + 5, SeedTacticRows(created, templates), created[k].id);
    SeedRowsOf(created, templates, k);
  }

  /**
   * After seeding an empty store, the `k`-th created principle (the `k`-th row
   * of the principles table, by `SeedWith`'s contract) owns exactly the tactics
   * its templates name.
   */
  lemma SeedWithOwnership(db: Db, ps: seq<InsertPrinciple>, templates: seq<SeedTactic>, k: SeedIndex)
    requires db.principles == [] && db.tactics == [] && |ps| == 5
    ensures |TacticsOf(SeedWith(db, ps, templates).tactics, NewPrinciples(db.nextId, ps)[k].id)|
         == OwnedBy(templates, k)
  {
    CreatedOwnership(db.nextId, ps, templates, k);
    SeedRows(db, ps, templates);
  }

  /**
   * Seeding an empty store leaves it consistent with exactly the five example
   * principles and thirteen tactics, every tactic referencing one of those
   * principles, which own 3, 3, 3, 2 and 2 of them.
   */
  lemma SeedEmptyStore(db: Db)
    requires Consistent(db) && db.principles == []
    ensures var r := Seeded(db);
      && Consistent(r)
      && r.principles == NewPrinciples(db.nextId, SeedPrinciples)
      && |r.principles| == 5 && |r.tactics| == 13
      && (forall k: SeedIndex :: |TacticsOf(r.tactics, r.principles[k].id)| == [3, 3, 3, 2, 2][k])
  {
    NoPrinciplesNoTactics(db);
    SeedRows(db, SeedPrinciples, SeedTactics);
    SeedWithConsistent(db, SeedPrinciples, SeedTactics);
    forall k: SeedIndex ensures |TacticsOf(Seeded(db).tactics, NewPrinciples(db.nextId, SeedPrinciples)[k].id)| == [3, 3, 3, 2, 2][k] {
      SeedWithOwnership(db, SeedPrinciples, SeedTactics, k);
      SeedOwnership(k);
    }
  }

  /** Seeding twice has the effect of seeding once, whatever the store held. */
  lemma SeedIdempotent(db: Db)
    ensures Seeded(Seeded(db)) == Seeded(db)
  {
    if db.principles == [] {
      assert |Seeded(db).principles| == |SeedPrinciples| == 5;
    }
  }

  /**
   * Seeding is two separate inserts. If the store fails after the first, an
   * empty store is left with the five principles and no tactics, and every
   * later seeding returns early: that state is final.
   */
  lemma InterruptedSeedIsFinal(db: Db)
    requires Consistent(db) && db.principles == []
    ensures var partial := AddPrinciples(db, SeedPrinciples);
      && |partial.principles| == 5
      && partial.tactics == []
      && Seeded(partial) == partial
  {
    NoPrinciplesNoTactics(db);
    var partial := AddPrinciples(db, SeedPrinciples);
    assert |partial.principles| == |NewPrinciples(db.nextId, SeedPrinciples)| == 5;
  }

  /** The example principles carry the orders 0 to 4, in their insertion order. */
  lemma SeedPrincipleOrders()
    ensures forall k :: 0 <= k < 5 ==> SeedPrinciples[k].order == Some(k)
  {
  }

  /** Principles created from rows whose orders ascend 0, 1, 2, ... have strictly increasing orders. */
  lemma CreatedInOrder(start: Id, ps: seq<InsertPrinciple>)
    requires forall k :: 0 <= k < |ps| ==> ps[k].order == Some(k)
    ensures forall k :: 0 <= k < |ps| ==> NewPrinciples(start, ps)[k].order == k
    ensures forall i, j :: 0 <= i < j < |ps| ==>
      PrincipleOrder(NewPrinciples(start, ps)[i]) < PrincipleOrder(NewPrinciples(start, ps)[j])
  {
    var created := NewPrinciples(start, ps);
    NewPrinciplesAt(start, ps);
    assert forall k :: 0 <= k < |ps| ==> created[k].order == k;
  }

  /** Principles created with ascending orders are listed in creation order. */
  lemma SeedWithListingOrder(db: Db, ps: seq<InsertPrinciple>, templates: seq<SeedTactic>)
    requires Consistent(db) && db.principles == [] && |ps| == 5
    requires forall k :: 0 <= k < 5 ==> ps[k].order == Some(k)
    ensures forall k :: 0 <= k < 5 ==> SeedWith(db, ps, templates).principles[k].order == k
    ensures Bases(GetPrinciples(SeedWith(db, ps, templates))) == SeedWith(db, ps, templates).principles
  {
    NoPrinciplesNoTactics(db);
    SeedRows(db, ps, templates);
    var created := NewPrinciples(db.nextId, ps);
    var r := SeedWith(db, ps, templates);
    assert r.principles == created;
    CreatedInOrder(db.nextId, ps);
    Ordering.SortSortedIsIdentity(created, PrincipleOrder);
    ListedPrinciples(r);
  }

  /** The seeded principles have orders 0 to 4, so getPrinciples lists them in seed order. */
  lemma SeedListingOrder(db: Db)
    requires Consistent(db) && db.principles == []
    ensures forall k :: 0 <= k < 5 ==> Seeded(db).principles[k].order == k
    ensures Bases(GetPrinciples(Seeded(db))) == Seeded(db).principles
  {
    SeedPrincipleOrders();
    SeedWithListingOrder(db, SeedPrinciples, SeedTactics);
  }

  /** After seeding, deleting the first principle leaves 4 principles and 10 tactics. */
  lemma SeedThenDeleteFirst(db: Db)
    requires Consistent(db) && db.principles == []
    ensures var r := Seeded(db); var after := RemovePrinciple(r, r.principles[0].id);
      && |after.principles| == 4
      && |after.tactics| == 10
  {
    SeedEmptyStore(db);
    var r := Seeded(db);
    var first := r.principles[0].id;
    assert r.principles[0] in r.principles;
    DeletePresentPrinciple(r.principles, first);
    CascadeSplitsTable(r.tactics, first);
  }
}
