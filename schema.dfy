/**
 * The two tables, their rows, the insert shapes derived from them and the
 * validation the server applies to a request body before inserting it.
 */
module Schema {
  import opened Wrappers

  /** A store-generated row identifier (a UUID in the database, opaque here). */
  type Id = nat

  /** Column defaults of the `principles` and `tactics` tables. */
  const DefaultCategory: string := "general"
  const DefaultColor: string := "blue"
  const DefaultOrder: int := 0
  const DefaultIsEffective: bool := true

  /** A row of `principles`: every column is NOT NULL. */
  datatype Principle = Principle(
    id: Id,
    title: string,
    description: string,
    category: string,
    color: string,
    order: int)

  /** A row of `tactics`: `principleId` references `principles.id`; `description` is nullable. */
  datatype Tactic = Tactic(
    id: Id,
    principleId: Id,
    title: string,
    description: Option<string>,
    isEffective: bool,
    order: int)

  /** The insert shape of `principles`: no `id`; columns with a default may be left out. */
  datatype InsertPrinciple = InsertPrinciple(
    title: string,
    description: string,
    category: Option<string>,
    color: Option<string>,
    order: Option<int>)

  /** The insert shape of `tactics`: no `id`; `description` and the defaulted columns may be left out. */
  datatype InsertTactic = InsertTactic(
    principleId: Id,
    title: string,
    description: Option<string>,
    isEffective: Option<bool>,
    order: Option<int>)

  /** A principle's columns together with a list of tactics (the read-time join). */
  datatype PrincipleWithTactics = PrincipleWithTactics(
    id: Id,
    title: string,
    description: string,
    category: string,
    color: string,
    order: int,
    tactics: seq<Tactic>)
  {
    /** The principle row this view was built from. */
    function Base(): Principle {
      Principle(id, title, description, category, color, order)
    }
  }

  /** Spreads a principle's columns and attaches `ts` (`{ ...p, tactics: ts }`). */
  function WithTactics(p: Principle, ts: seq<Tactic>): (v: PrincipleWithTactics)
    ensures v.Base() == p && v.tactics == ts
  {
    PrincipleWithTactics(p.id, p.title, p.description, p.category, p.color, p.order, ts)
  }

  /** The row the database materialises for an insert: left-out columns take their defaults. */
  function NewPrinciple(id: Id, ins: InsertPrinciple): (p: Principle)
    ensures p.id == id && p.title == ins.title && p.description == ins.description
    ensures p.category == (if ins.category.Some? then ins.category.value else DefaultCategory)
    ensures p.color == (if ins.color.Some? then ins.color.value else DefaultColor)
    ensures p.order == (if ins.order.Some? then ins.order.value else DefaultOrder)
  {
    Principle(id, ins.title, ins.description,
              ins.category.GetOr(DefaultCategory), ins.color.GetOr(DefaultColor), ins.order.GetOr(DefaultOrder))
  }

  /** The tactic row the database materialises for an insert. */
  function NewTactic(id: Id, ins: InsertTactic): (t: Tactic)
    ensures t.id == id && t.principleId == ins.principleId && t.title == ins.title
    ensures t.description == ins.description
    ensures t.isEffective == (if ins.isEffective.Some? then ins.isEffective.value else DefaultIsEffective)
    ensures t.order == (if ins.order.Some? then ins.order.value else DefaultOrder)
  {
    Tactic(id, ins.principleId, ins.title, ins.description,
           ins.isEffective.GetOr(DefaultIsEffective), ins.order.GetOr(DefaultOrder))
  }

  // ---------------------------------------------------------------------------
  // Request bodies and the insert schemas
  // ---------------------------------------------------------------------------

  /** One property of a JSON request body, as the schema sees it. */
  datatype Field<T> = Missing | Null | Given(value: T) | WrongType

  datatype PrincipleBody = PrincipleBody(
    title: Field<string>,
    description: Field<string>,
    category: Field<string>,
    color: Field<string>,
    order: Field<int>)

  datatype TacticBody = TacticBody(
    principleId: Field<Id>,
    title: Field<string>,
    description: Field<string>,
    isEffective: Field<bool>,
    order: Field<int>)

  datatype IssueKind = Required | InvalidType

  /** One validation error: which property, and why. */
  datatype Issue = Issue(path: string, kind: IssueKind)

  /** A NOT NULL column without a default: the property must be present and of the right type. */
  function CheckRequired<T>(path: string, f: Field<T>): (issues: seq<Issue>)
    ensures issues == [] <==> f.Given?
  {
    match f
    case Given(_) => []
    case Missing => [Issue(path, Required)]
    case _ => [Issue(path, InvalidType)]
  }

  /** A NOT NULL column with a default: the property may be left out, but not be null. */
  function CheckDefaulted<T>(path: string, f: Field<T>): (issues: seq<Issue>)
    ensures issues == [] <==> f.Missing? || f.Given?
  {
    match f
    case Given(_) => []
    case Missing => []
    case _ => [Issue(path, InvalidType)]
  }

  /** A nullable column: the property may be left out or null. */
  function CheckNullable<T>(path: string, f: Field<T>): (issues: seq<Issue>)
    ensures issues == [] <==> !f.WrongType?
  {
    if f.WrongType? then [Issue(path, InvalidType)] else []
  }

  /** The value a valid property carries into the insert, if any. */
  function Present<T>(f: Field<T>): Option<T> {
    if f.Given? then Some(f.value) else None
  }

  function PrincipleIssues(b: PrincipleBody): seq<Issue> {
    CheckRequired("title", b.title) + CheckRequired("description", b.description)
    + CheckDefaulted("category", b.category) + CheckDefaulted("color", b.color)
    + CheckDefaulted("order", b.order)
  }

  /** The principle insert schema: every issue is reported, or the parsed insert shape is returned. */
  function ParsePrinciple(b: PrincipleBody): (r: Result<InsertPrinciple, seq<Issue>>)
    ensures r.Ok? <==>
      b.title.Given? && b.description.Given?
      && !b.category.Null? && !b.category.WrongType?
      && !b.color.Null? && !b.color.WrongType?
      && !b.order.Null? && !b.order.WrongType?
    ensures r.Err? ==> |r.error| > 0
    ensures r.Ok? ==>
      r.value.title == b.title.value && r.value.description == b.description.value
      && (r.value.category.Some? <==> b.category.Given?)
      && (r.value.category.Some? ==> r.value.category.value == b.category.value)
      && (r.value.color.Some? <==> b.color.Given?)
      && (r.value.color.Some? ==> r.value.color.value == b.color.value)
      && (r.value.order.Some? <==> b.order.Given?)
      && (r.value.order.Some? ==> r.value.order.value == b.order.value)
  {
    var issues := PrincipleIssues(b);
    if issues != [] then Err(issues)
    else
      Ok(InsertPrinciple(b.title.value, b.description.value, Present(b.category), Present(b.color), Present(b.order)))
  }

  function TacticIssues(b: TacticBody): seq<Issue> {
    CheckRequired("principleId", b.principleId) + CheckRequired("title", b.title)
    + CheckNullable("description", b.description) + CheckDefaulted("isEffective", b.isEffective)
    + CheckDefaulted("order", b.order)
  }

  /** The tactic insert schema; a null or absent description both become a NULL column. */
  function ParseTactic(b: TacticBody): (r: Result<InsertTactic, seq<Issue>>)
    ensures r.Ok? <==>
      b.principleId.Given? && b.title.Given? && !b.description.WrongType?
      && !b.isEffective.Null? && !b.isEffective.WrongType?
      && !b.order.Null? && !b.order.WrongType?
    ensures r.Err? ==> |r.error| > 0
    ensures r.Ok? ==>
      r.value.principleId == b.principleId.value && r.value.title == b.title.value
      && (r.value.description.Some? <==> b.description.Given?)
      && (r.value.description.Some? ==> r.value.description.value == b.description.value)
      && (r.value.isEffective.Some? <==> b.isEffective.Given?)
      && (r.value.isEffective.Some? ==> r.value.isEffective.value == b.isEffective.value)
      && (r.value.order.Some? <==> b.order.Given?)
      && (r.value.order.Some? ==> r.value.order.value == b.order.value)
  {
    var issues := TacticIssues(b);
    if issues != [] then Err(issues)
    else
      Ok(InsertTactic(b.principleId.value, b.title.value, Present(b.description), Present(b.isEffective), Present(b.order)))
  }

  /** The body a client sends for an insert shape: present values are given, absent ones left out. */
  function FieldOf<T>(o: Option<T>): Field<T> {
    if o.Some? then Given(o.value) else Missing
  }

  function PrincipleBodyOf(ins: InsertPrinciple): PrincipleBody {
    PrincipleBody(Given(ins.title), Given(ins.description), FieldOf(ins.category), FieldOf(ins.color), FieldOf(ins.order))
  }

  function TacticBodyOf(ins: InsertTactic): TacticBody {
    TacticBody(Given(ins.principleId), Given(ins.title), FieldOf(ins.description), FieldOf(ins.isEffective), FieldOf(ins.order))
  }

  /** Every insert shape, sent as a body, passes the schema and comes back unchanged. */
  lemma ParsePrincipleRoundTrip(ins: InsertPrinciple)
    ensures ParsePrinciple(PrincipleBodyOf(ins)) == Ok(ins)
  {
  }

  lemma ParseTacticRoundTrip(ins: InsertTactic)
    ensures ParseTactic(TacticBodyOf(ins)) == Ok(ins)
  {
  }

  /** The schema checks presence and type only: an empty title or description is accepted. */
  lemma EmptyTextAccepted()
    ensures ParsePrinciple(PrincipleBody(Given(""), Given(""), Missing, Missing, Missing))
            == Ok(InsertPrinciple("", "", None, None, None))
    ensures ParseTactic(TacticBody(Given(0), Given(""), Missing, Missing, Missing))
            == Ok(InsertTactic(0, "", None, None, None))
  {
  }

  /** A principle inserted with only its required columns gets category "general", color "blue", order 0. */
  lemma PrincipleDefaults(id: Id, title: string, description: string)
    ensures NewPrinciple(id, InsertPrinciple(title, description, None, None, None))
            == Principle(id, title, description, "general", "blue", 0)
  {
  }

  /** A tactic inserted without isEffective and order is effective and has order 0. */
  lemma TacticDefaults(id: Id, principleId: Id, title: string, description: Option<string>)
    ensures NewTactic(id, InsertTactic(principleId, title, description, None, None))
            == Tactic(id, principleId, title, description, true, 0)
  {
  }
}
