/**
 * seedDatabase: when the principles table is empty, insert the fixed example
 * set of five principles and then thirteen tactics that reference them.
 */
module Seed {
  import opened Wrappers
  import opened Schema
  import opened Storage
  import opened SeedData

  /** The tactic rows, each referencing `createdPrinciples[owner].id`. */
  function SeedTacticRows(created: seq<Principle>, templates: seq<SeedTactic>): (rows: seq<InsertTactic>)
    requires |created| == 5
    ensures |rows| == |templates|
    ensures forall i :: 0 <= i < |templates| ==> rows[i].principleId == created[templates[i].owner].id
  {
    if templates == [] then []
    else
      var t := templates[0];
      [InsertTactic(created[t.owner].id, t.title, Some(t.description), Some(true), Some(t.order))]
      + SeedTacticRows(created, templates[1..])
  }

  /** The second insert of seeding: the tactic rows for the principles just created, or nothing if it is refused. */
  function InsertSeedTactics(withPrinciples: Db, created: seq<Principle>, templates: seq<SeedTactic>): (r: Db)
    requires |created| == 5
    ensures r.principles == withPrinciples.principles
  {
    match AddTactics(withPrinciples, SeedTacticRows(created, templates))
    case Ok(d) => d
    case Err(_) => withPrinciples
  }

  /** The store after seeding it with principles `ps` and tactic templates `templates`, when it was empty. */
  function SeedWith(db: Db, ps: seq<InsertPrinciple>, templates: seq<SeedTactic>): (r: Db)
    requires |ps| == 5
    ensures db.principles == [] ==> r.principles == NewPrinciples(db.nextId, ps)
    ensures db.principles != [] ==> r == db
  {
    if |db.principles| > 0 then db
    else InsertSeedTactics(AddPrinciples(db, ps), NewPrinciples(db.nextId, ps), templates)
  }

  /** The store after seedDatabase: untouched unless the principles table was empty. */
  function Seeded(db: Db): Db {
    SeedWith(db, SeedPrinciples, SeedTactics)
  }

  method SeedDatabase(store: Store)
    requires store.Valid()
    modifies store
    ensures store.Valid()
    ensures store.State() == Seeded(old(store.State()))
  {
    if |store.principles| > 0 {
      return;
    }
    var created := store.InsertPrinciples(SeedPrinciples);
    var inserted := store.InsertTactics(SeedTacticRows(created, SeedTactics));
  }
}
