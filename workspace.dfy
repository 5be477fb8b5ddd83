/**
 * The derived views of the workspace page: the category filter, the list of
 * categories offered as filter buttons, the tactic total, the colour lookup
 * of a principle's badge, and the two forms with the request bodies they send.
 * `data` is the page's copy of GET /api/principles, `None` until it arrives.
 */
module Workspace {
  import opened Wrappers
  import opened Schema
  import opened Storage
  import Ordering
  import Routes
  import Seed
  import SeedData
  import SeedProperties

  // ---------------------------------------------------------------------------
  // The category filter
  // ---------------------------------------------------------------------------

  /** The filter value that shows every principle. */
  const AllFilter: string := "all"

  /** Whether a principle is shown under `filter`. */
  predicate Shown(p: PrincipleWithTactics, filter: string) {
    filter == AllFilter || p.category == filter
  }

  /** `principles.filter(...)` with the chosen category, in listing order. */
  function FilterCategory(ps: seq<PrincipleWithTactics>, filter: string): (r: seq<PrincipleWithTactics>)
    ensures forall p :: p in r <==> p in ps && Shown(p, filter)
    ensures |r| <= |ps|
  {
    if ps == [] then []
    else (if Shown(ps[0], filter) then [ps[0]] else []) + FilterCategory(ps[1..], filter)
  }

  /** `filtered`: nothing before the data arrives. */
  function Filtered(data: Option<seq<PrincipleWithTactics>>, filter: string): (r: Option<seq<PrincipleWithTactics>>)
    ensures r.None? <==> data.None?
    ensures r.Some? ==> forall p :: p in r.value <==> p in data.value && Shown(p, filter)
  {
    match data
    case None => None
    case Some(ps) => Some(FilterCategory(ps, filter))
  }

  /** The filter "all" keeps every principle, in order. */
  lemma {:induction false} FilterAllKeepsEverything(ps: seq<PrincipleWithTactics>)
    ensures FilterCategory(ps, AllFilter) == ps
  {
    if ps != [] {
      FilterAllKeepsEverything(ps[1..]);
      assert ps == [ps[0]] + ps[1..];
    }
  }

  /**
   * The filter keeps the listing order: filtering a listing split in two is
   * filtering each part and joining them.
   */
  lemma {:induction false} FilterKeepsOrder(a: seq<PrincipleWithTactics>, b: seq<PrincipleWithTactics>, filter: string)
    ensures FilterCategory(a + b, filter) == FilterCategory(a, filter) + FilterCategory(b, filter)
  {
    if a == [] {
      assert a + b == b;
    } else {
      var ab := a + b;
      var head := if Shown(a[0], filter) then [a[0]] else [];
      var x := FilterCategory(a[1..], filter);
      var y := FilterCategory(b, filter);
      assert ab[0] == a[0] && ab[1..] == a[1..] + b;
      FilterKeepsOrder(a[1..], b, filter);
      calc {
        FilterCategory(ab, filter);
        head + FilterCategory(a[1..] + b, filter);
        head + (x + y);
        (head + x) + y;
      }
    }
  }

  /** A single principle is kept exactly when it is shown. */
  lemma FilterOne(p: PrincipleWithTactics, filter: string)
    ensures FilterCategory([p], filter) == if Shown(p, filter) then [p] else []
  {
    assert [p][1..] == [];
  }

  // ---------------------------------------------------------------------------
  // The categories offered as filter buttons
  // ---------------------------------------------------------------------------

  /** `principles.map(p => p.category)`. */
  function CategoryColumn(ps: seq<PrincipleWithTactics>): seq<string>
  {
    seq(|ps|, i requires 0 <= i < |ps| => ps[i].category)
  }

  predicate NoDuplicates(s: seq<string>) {
    forall i, j :: 0 <= i < j < |s| ==> s[i] != s[j]
  }

  /** Where `x` first occurs in `s`. */
  function FirstIndex(s: seq<string>, x: string): (i: nat)
    requires x in s
    ensures i < |s| && s[i] == x
    ensures forall k :: 0 <= k < i ==> s[k] != x
  {
    if s[0] == x then 0 else 1 + FirstIndex(s[1..], x)
  }

  /**
   * `Array.from(new Set(s))`: a Set iterates in insertion order, and adding a
   * value it already holds changes nothing, so each value appears once, where
   * it first occurs.
   */
  function Distinct(s: seq<string>): (r: seq<string>)
    ensures forall x :: x in r <==> x in s
    ensures NoDuplicates(r)
  {
    if s == [] then []
    else
      var init := Distinct(s[..|s| - 1]);
      assert forall x :: x in s <==> x in s[..|s| - 1] || x == s[|s| - 1] by {
        assert s == s[..|s| - 1] + [s[|s| - 1]];
      }
      if s[|s| - 1] in init then init else init + [s[|s| - 1]]
  }

  /** A value's first occurrence in a prefix is its first occurrence in the whole. */
  lemma FirstIndexPrefix(s: seq<string>, n: nat, x: string)
    requires n <= |s| && x in s[..n]
    ensures FirstIndex(s, x) == FirstIndex(s[..n], x)
  {
    var i := FirstIndex(s[..n], x);
    assert s[i] == x;
  }

  /** The categories are listed in the order of their first occurrence. */
  lemma {:induction false} DistinctFirstOccurrenceOrder(s: seq<string>)
    ensures forall i, j :: 0 <= i < j < |Distinct(s)| ==> FirstIndex(s, Distinct(s)[i]) < FirstIndex(s, Distinct(s)[j])
  {
    if s != [] {
      var n := |s| - 1;
      var prefix := s[..n];
      var init := Distinct(prefix);
      DistinctFirstOccurrenceOrder(prefix);
      forall x | x in init ensures FirstIndex(s, x) == FirstIndex(prefix, x) && FirstIndex(s, x) < n {
        FirstIndexPrefix(s, n, x);
      }
      if s[n] !in init {
        assert s[n] !in prefix;
        assert FirstIndex(s, s[n]) == n;
      }
    }
  }

  /** `categories`: empty before the data arrives. */
  function Categories(data: Option<seq<PrincipleWithTactics>>): (r: seq<string>)
    ensures NoDuplicates(r)
    ensures data.None? ==> r == []
    ensures data.Some? ==> forall c :: c in r <==> exists p :: p in data.value && p.category == c
  {
    match data
    case None => []
    case Some(ps) =>
      var column := CategoryColumn(ps);
      assert forall c :: c in column <==> exists p :: p in ps && p.category == c by {
        forall c | c in column ensures exists p :: p in ps && p.category == c {
          var i :| 0 <= i < |column| && column[i] == c;
          assert ps[i] in ps;
        }
        forall p | p in ps ensures p.category in column {
          var i :| 0 <= i < |ps| && ps[i] == p;
          assert column[i] == p.category;
        }
      }
      Distinct(column)
  }

  /** Every category button shows at least one principle. */
  lemma CategoryButtonsNonEmpty(ps: seq<PrincipleWithTactics>)
    ensures forall c :: c in Categories(Some(ps)) ==> |FilterCategory(ps, c)| > 0
  {
    forall c | c in Categories(Some(ps)) ensures |FilterCategory(ps, c)| > 0 {
      var p :| p in ps && p.category == c;
      assert p in FilterCategory(ps, c);
    }
  }

  // ---------------------------------------------------------------------------
  // The tactic total
  // ---------------------------------------------------------------------------

  /** `principles.reduce((sum, p) => sum + p.tactics.length, 0)`. */
  function SumTactics(ps: seq<PrincipleWithTactics>): nat {
    if ps == [] then 0 else |ps[0].tactics| + SumTactics(ps[1..])
  }

  /** `totalTactics`: 0 before the data arrives. */
  function TotalTactics(data: Option<seq<PrincipleWithTactics>>): (n: nat)
    ensures data.None? ==> n == 0
    ensures data.Some? && data.value == [] ==> n == 0
  {
    match data
    case None => 0
    case Some(ps) => SumTactics(ps)
  }

  /** How many tactics of `ts` the principles `ps` own between them. */
  function Owned(ps: seq<Principle>, ts: seq<Tactic>): nat {
    if ps == [] then 0 else |TacticsOf(ts, ps[0].id)| + Owned(ps[1..], ts)
  }

  lemma {:induction false} SumOfGroup(ps: seq<Principle>, ts: seq<Tactic>)
    ensures SumTactics(Group(ps, ts)) == Owned(ps, ts)
  {
    if ps != [] {
      SumOfGroup(ps[1..], ts);
      assert Group(ps, ts)[1..] == Group(ps[1..], ts);
    }
  }

  /** Taking out the `j`-th principle takes out exactly the tactics it owns. */
  lemma {:induction false} OwnedRemove(ps: seq<Principle>, j: nat, ts: seq<Tactic>)
    requires j < |ps|
    ensures Owned(ps, ts) == |TacticsOf(ts, ps[j].id)| + Owned(ps[..j] + ps[j + 1..], ts)
  {
    if j == 0 {
      assert ps[..0] + ps[1..] == ps[1..];
    } else {
      var tail := ps[1..];
      OwnedRemove(tail, j - 1, ts);
      assert ps[..j] + ps[j + 1..] == [ps[0]] + (tail[..j - 1] + tail[j..]);
    }
  }

  /** Matching the head of `a` with `b[j]` leaves two tails that are still permutations of each other. */
  lemma PermutedTails<T>(a: seq<T>, b: seq<T>, j: nat)
    requires multiset(a) == multiset(b) && a != [] && j < |b| && b[j] == a[0]
    ensures multiset(a[1..]) == multiset(b[..j] + b[j + 1..])
  {
    var rest := b[..j] + b[j + 1..];
    assert b == b[..j] + [b[j]] + b[j + 1..];
    assert multiset(b) == multiset(rest) + multiset{a[0]};
    assert a == [a[0]] + a[1..];
    assert multiset(a) == multiset(a[1..]) + multiset{a[0]};
    assert multiset(a[1..]) == multiset(a) - multiset{a[0]};
    assert multiset(rest) == multiset(b) - multiset{a[0]};
  }

  /** Reordering the principles does not change how many tactics they own. */
  lemma {:induction false} OwnedPermutedPrinciples(a: seq<Principle>, b: seq<Principle>, ts: seq<Tactic>)
    requires multiset(a) == multiset(b)
    ensures Owned(a, ts) == Owned(b, ts)
    decreases |a|
  {
    if a == [] {
      assert |b| == |multiset(b)| == 0;
    } else {
      assert a[0] in multiset(b);
      var j :| 0 <= j < |b| && b[j] == a[0];
      PermutedTails(a, b, j);
      OwnedPermutedPrinciples(a[1..], b[..j] + b[j + 1..], ts);
      OwnedRemove(b, j, ts);
    }
  }

  /** Reordering the tactics does not change how many each principle owns. */
  lemma {:induction false} OwnedPermutedTactics(ps: seq<Principle>, a: seq<Tactic>, b: seq<Tactic>)
    requires multiset(a) == multiset(b)
    ensures Owned(ps, a) == Owned(ps, b)
  {
    if ps != [] {
      OwnedPermutedTactics(ps[1..], a, b);
      TacticsOfPermutation(a, b, ps[0].id);
      assert |TacticsOf(a, ps[0].id)| == |multiset(TacticsOf(a, ps[0].id))|;
    }
  }

  /** Removing another principle's tactics does not change what `p` owns. */
  lemma {:induction false} OwnedAfterCascade(ts: seq<Tactic>, p: Id, q: Id)
    requires p != q
    ensures TacticsOf(TacticsNotOf(ts, q), p) == TacticsOf(ts, p)
  {
    if ts != [] {
      OwnedAfterCascade(ts[1..], p, q);
      var kept := TacticsNotOf(ts[1..], q);
      var head := if ts[0].principleId == p then [ts[0]] else [];
      assert TacticsOf(ts, p) == head + TacticsOf(ts[1..], p);
      if ts[0].principleId != q {
        var r := [ts[0]] + kept;
        assert TacticsNotOf(ts, q) == r;
        assert r[0] == ts[0] && r[1..] == kept;
        assert TacticsOf(r, p) == head + TacticsOf(kept, p);
      } else {
        assert TacticsNotOf(ts, q) == [] + kept == kept;
        assert head == [];
      }
    }
  }

  lemma {:induction false} OwnedIgnoresOthers(ps: seq<Principle>, ts: seq<Tactic>, q: Id)
    requires q !in PrincipleIds(ps)
    ensures Owned(ps, TacticsNotOf(ts, q)) == Owned(ps, ts)
  {
    if ps != [] {
      assert ps[0] in ps;
      OwnedAfterCascade(ts, ps[0].id, q);
      assert PrincipleIds(ps[1..]) <= PrincipleIds(ps) by {
        forall id | id in PrincipleIds(ps[1..]) ensures id in PrincipleIds(ps) {
          var p :| p in ps[1..] && p.id == id;
          assert p in ps;
        }
      }
      OwnedIgnoresOthers(ps[1..], ts, q);
    }
  }

  /** Principles with distinct ids that every tactic references own all the tactics between them. */
  lemma {:induction false} OwnedCountsAll(ps: seq<Principle>, ts: seq<Tactic>)
    requires UniquePrincipleIds(ps)
    requires forall t :: t in ts ==> t.principleId in PrincipleIds(ps)
    ensures Owned(ps, ts) == |ts|
    decreases |ps|
  {
    if ps != [] {
      var q := ps[0].id;
      var rest := TacticsNotOf(ts, q);
      forall t | t in rest ensures t.principleId in PrincipleIds(ps[1..]) {
        var p :| p in ps && p.id == t.principleId;
        assert p != ps[0];
        assert ps == [ps[0]] + ps[1..];
        assert p in ps[1..];
      }
      OwnedCountsAll(ps[1..], rest);
      OwnedIgnoresOthers(ps[1..], ts, q);
      CascadeSplitsTable(ts, q);
    }
  }

  /** For a consistent store, the tactic total of the listing is the size of the tactics table. */
  lemma TotalIsTableSize(db: Db)
    requires Consistent(db)
    ensures TotalTactics(Some(GetPrinciples(db))) == |db.tactics|
  {
    var ps := Ordering.SortBy(db.principles, PrincipleOrder);
    var ts := Ordering.SortBy(db.tactics, TacticOrder);
    SumOfGroup(ps, ts);
    OwnedPermutedTactics(ps, ts, db.tactics);
    OwnedPermutedPrinciples(Ordering.SortBy(db.principles, PrincipleOrder), db.principles, db.tactics);
    OwnedCountsAll(db.principles, db.tactics);
  }

  /** Right after the example set is seeded into an empty store the page shows 13 tactics. */
  lemma SeededTotal(db: Db)
    requires Consistent(db) && db.principles == []
    ensures TotalTactics(Some(GetPrinciples(Seed.Seeded(db)))) == 13
  {
    SeedProperties.SeedEmptyStore(db);
    TotalIsTableSize(Seed.Seeded(db));
  }

  // ---------------------------------------------------------------------------
  // The colour lookup
  // ---------------------------------------------------------------------------

  /** The values of the colour picker (`COLORS`). */
  const PaletteColors: seq<string> := ["orange", "blue", "green", "purple", "red", "teal"]

  const FallbackClass: string := "bg-primary/10 text-primary"

  /** The lookup table of `getColorBg`. */
  const ColorClasses: map<string, string> := map[
    "orange" := "bg-orange-500/10 text-orange-600 dark:text-orange-400",
    "blue" := "bg-blue-500/10 text-blue-600 dark:text-blue-400",
    "green" := "bg-green-500/10 text-green-600 dark:text-green-400",
    "purple" := "bg-purple-500/10 text-purple-600 dark:text-purple-400",
    "red" := "bg-red-500/10 text-red-600 dark:text-red-400",
    "teal" := "bg-teal-500/10 text-teal-600 dark:text-teal-400"
  ]

  /**
   * `getColorBg`: a picker colour gets its own entry of the table, never the
   * fallback class; any other string gets the fallback class.
   */
  function ColorBg(color: string): (cls: string)
    ensures color in PaletteColors <==> color in ColorClasses
    ensures color in PaletteColors ==> cls == ColorClasses[color] && cls != FallbackClass
    ensures color !in PaletteColors ==> cls == FallbackClass
  {
    if color in ColorClasses then ColorClasses[color] else FallbackClass
  }

  /** The fallback class is used exactly for strings outside the picker, and different picker colours get different classes. */
  lemma ColorBgSeparates()
    ensures forall c :: ColorBg(c) == FallbackClass <==> c !in PaletteColors
    ensures forall a, b :: a in PaletteColors && b in PaletteColors && a != b ==> ColorBg(a) != ColorBg(b)
  {
  }

  /** The example principles are given picker colours. */
  lemma SeedColorsInPalette()
    ensures forall k :: 0 <= k < 5 ==> SeedData.SeedPrinciples[k].color.Some? && SeedData.SeedPrinciples[k].color.value in PaletteColors
  {
  }

  /** Rows that all name a picker colour create principles that all have one. */
  lemma CreatedColorsInPalette(start: Id, rows: seq<InsertPrinciple>)
    requires forall k :: 0 <= k < |rows| ==> rows[k].color.Some? && rows[k].color.value in PaletteColors
    ensures forall p :: p in NewPrinciples(start, rows) ==> p.color in PaletteColors
  {
    var created := NewPrinciples(start, rows);
    NewPrinciplesAt(start, rows);
    forall p | p in created ensures p.color in PaletteColors {
      var k :| 0 <= k < |created| && created[k] == p;
      assert p == NewPrinciple(start + k, rows[k]);
    }
  }

  /** The column default and every seeded colour are picker colours, so none of them shows the fallback class. */
  lemma StoredColorsInPalette(db: Db)
    requires Consistent(db) && db.principles == []
    ensures DefaultColor in PaletteColors
    ensures forall p :: p in Seed.Seeded(db).principles ==> p.color in PaletteColors
  {
    SeedProperties.SeedEmptyStore(db);
    SeedColorsInPalette();
    CreatedColorsInPalette(db.nextId, SeedData.SeedPrinciples);
  }

  // ---------------------------------------------------------------------------
  // The forms and the bodies they send
  // ---------------------------------------------------------------------------

  /** The values of the inline new-tactic form (`tacticFormSchema`): a title and an optional description. */
  datatype TacticForm = TacticForm(title: string, description: Option<string>)

  /** `title: z.string().min(1)`; the description may be anything or absent. */
  predicate TacticFormAccepts(f: TacticForm) {
    |f.title| >= 1
  }

  /**
   * The body AddTacticInline posts for the principle it sits under: an empty
   * description is sent as absent, and the tactic is always effective with
   * order 0.
   */
  function TacticPayload(principleId: Id, f: TacticForm): (b: TacticBody)
    ensures ParseTactic(b).Ok?
    ensures var ins := ParseTactic(b).value;
      && ins.principleId == principleId && ins.title == f.title
      && ins.isEffective == Some(true) && ins.order == Some(0)
      && (ins.description.None? <==> f.description.None? || f.description == Some(""))
      && (ins.description.Some? ==> ins.description == f.description)
  {
    var description := if f.description.None? || f.description == Some("") then Missing else Given(f.description.value);
    TacticBody(Given(principleId), Given(f.title), description, Given(true), Given(0))
  }

  /**
   * Submitting the form under an existing principle creates (201) an effective
   * tactic with order 0 and the form's title, which the principle then lists.
   */
  lemma TacticFormCreates(db: Db, principleId: Id, f: TacticForm)
    requires Consistent(db) && principleId in PrincipleIds(db.principles) && TacticFormAccepts(f)
    ensures var (after, resp) := Routes.Serve(db, Routes.PostTactic(TacticPayload(principleId, f)), true);
      && resp.status == 201
      && var t := resp.payload.tactic;
      && t.principleId == principleId && t.title == f.title && |t.title| >= 1
      && t.isEffective && t.order == 0
      && (t.description.None? <==> f.description.None? || f.description == Some(""))
      && GetPrinciple(after, principleId).Some?
      && t in GetPrinciple(after, principleId).value.tactics
  {
    Routes.TacticCreated201(db, TacticPayload(principleId, f));
  }

  /** The values of the create-principle dialog (`principleFormSchema`). */
  datatype PrincipleForm = PrincipleForm(title: string, description: string, category: string, color: string, order: int)

  /** The dialog's initial values. */
  const BlankPrincipleForm: PrincipleForm := PrincipleForm("", "", "General", "orange", 0)

  /** Title of 1 to 200 characters, description of 1 to 1000. */
  predicate PrincipleFormAccepts(f: PrincipleForm) {
    1 <= |f.title| <= 200 && 1 <= |f.description| <= 1000
  }

  /** The dialog posts its values as they are. */
  function PrinciplePayload(f: PrincipleForm): (b: PrincipleBody)
    ensures ParsePrinciple(b) == Ok(InsertPrinciple(f.title, f.description, Some(f.category), Some(f.color), Some(f.order)))
  {
    PrincipleBody(Given(f.title), Given(f.description), Given(f.category), Given(f.color), Given(f.order))
  }

  /**
   * A principle created through the dialog carries the form's values, so its
   * title has 1 to 200 characters and its description 1 to 1000, and it is
   * listed with no tactics.
   */
  lemma PrincipleFormCreates(db: Db, f: PrincipleForm)
    requires Consistent(db) && PrincipleFormAccepts(f)
    ensures var (after, resp) := Routes.Serve(db, Routes.PostPrinciple(PrinciplePayload(f)), true);
      && resp.status == 201
      && var p := resp.payload.created;
      && p.title == f.title && p.description == f.description
      && p.category == f.category && p.color == f.color && p.order == f.order
      && 1 <= |p.title| <= 200 && 1 <= |p.description| <= 1000
      && GetPrinciple(after, p.id) == Some(WithTactics(p, []))
  {
    Routes.PrincipleCreated201(db, PrinciplePayload(f));
  }

  /**
   * The length limits live only in the dialog: its blank values are refused
   * there, yet the server creates a principle from the same body.
   */
  lemma LimitsAreClientSide(db: Db)
    ensures !PrincipleFormAccepts(BlankPrincipleForm)
    ensures Routes.Serve(db, Routes.PostPrinciple(PrinciplePayload(BlankPrincipleForm)), true).1.status == 201
  {
  }
}
