/**
 * registerRoutes: the six JSON handlers under /api. Each handler validates the
 * body (for creates), calls one store operation and maps its outcome to a
 * status code and a body. A store fault of any kind (connection lost, query
 * refused) is the parameter `storeUp == false`, or, for a tactic whose
 * principle is missing, the store's own foreign-key refusal.
 */
module Routes {
  import opened Wrappers
  import opened Schema
  import opened Storage

  /** The six endpoints, with their path parameter or parsed JSON body. */
  datatype Request =
    | ListPrinciples                  // GET    /api/principles
    | FetchPrinciple(id: Id)          // GET    /api/principles/:id
    | PostPrinciple(principleBody: PrincipleBody) // POST /api/principles
    | DeletePrinciple(id: Id)         // DELETE /api/principles/:id
    | PostTactic(tacticBody: TacticBody) // POST   /api/tactics
    | DeleteTactic(id: Id)            // DELETE /api/tactics/:id

  /** The JSON (or empty) body of a response. */
  datatype Payload =
    | Listing(view: seq<PrincipleWithTactics>)
    | One(principle: PrincipleWithTactics)
    | PrincipleCreated(created: Principle)
    | TacticCreated(tactic: Tactic)
    | Message(message: string)
    | Invalid(message: string, errors: seq<Issue>)
    | NoContent

  datatype Response = Response(status: int, payload: Payload)

  const NotFound: string := "Principle not found"
  const InvalidData: string := "Invalid data"
  const FetchPrinciplesFailed: string := "Failed to fetch principles"
  const FetchPrincipleFailed: string := "Failed to fetch principle"
  const CreatePrincipleFailed: string := "Failed to create principle"
  const DeletePrincipleFailed: string := "Failed to delete principle"
  const CreateTacticFailed: string := "Failed to create tactic"
  const DeleteTacticFailed: string := "Failed to delete tactic"

  /** The status codes the handlers send. */
  predicate KnownStatus(status: int) {
    status in {200, 201, 204, 400, 404, 500}
  }

  /**
   * The store after a request, and the response sent. Bodies are validated
   * before the store is touched, so an invalid body gives 400 even when the
   * store is down; every store fault becomes 500 with the handler's message.
   */
  function Serve(db: Db, req: Request, storeUp: bool): (out: (Db, Response))
    ensures KnownStatus(out.1.status)
    ensures !storeUp ==> out.0 == db && (out.1.status == 400 || out.1.status == 500)
    ensures out.1.status >= 400 ==> out.0 == db
    ensures req.ListPrinciples? || req.FetchPrinciple? ==> out.0 == db
  {
    match req
    case ListPrinciples =>
      if storeUp then (db, Response(200, Listing(GetPrinciples(db))))
      else (db, Response(500, Message(FetchPrinciplesFailed)))
    case FetchPrinciple(id) =>
      if !storeUp then (db, Response(500, Message(FetchPrincipleFailed)))
      else (
        match GetPrinciple(db, id)
        case None => (db, Response(404, Message(NotFound)))
        case Some(p) => (db, Response(200, One(p))))
    case PostPrinciple(body) => (
      match ParsePrinciple(body)
      case Err(issues) => (db, Response(400, Invalid(InvalidData, issues)))
      case Ok(ins) =>
        if !storeUp then (db, Response(500, Message(CreatePrincipleFailed)))
        else (AddPrinciple(db, ins), Response(201, PrincipleCreated(NewPrinciple(db.nextId, ins)))))
    case DeletePrinciple(id) =>
      if !storeUp then (db, Response(500, Message(DeletePrincipleFailed)))
      else (RemovePrinciple(db, id), Response(204, NoContent))
    case PostTactic(body) => (
      match ParseTactic(body)
      case Err(issues) => (db, Response(400, Invalid(InvalidData, issues)))
      case Ok(ins) =>
        if !storeUp then (db, Response(500, Message(CreateTacticFailed)))
        else (
          match AddTactic(db, ins)
          case Err(_) => (db, Response(500, Message(CreateTacticFailed)))
          case Ok(after) => (after, Response(201, TacticCreated(NewTactic(db.nextId, ins))))))
    case DeleteTactic(id) =>
      if !storeUp then (db, Response(500, Message(DeleteTacticFailed)))
      else (RemoveTactic(db, id), Response(204, NoContent))
  }

  // ---------------------------------------------------------------------------
  // Properties of the status decision
  // ---------------------------------------------------------------------------

  /** Every request keeps a consistent store consistent. */
  lemma ServeKeepsConsistent(db: Db, req: Request, storeUp: bool)
    requires Consistent(db)
    ensures Consistent(Serve(db, req, storeUp).0)
  {
    if storeUp {
      match req
      case PostPrinciple(body) =>
        if ParsePrinciple(body).Ok? {
          CreatePrincipleEffect(db, ParsePrinciple(body).value);
        }
      case PostTactic(body) =>
        if ParseTactic(body).Ok? {
          CreateTacticEffect(db, ParseTactic(body).value);
        }
      case DeletePrinciple(id) => DeletePrincipleEffect(db, id);
      case DeleteTactic(id) => DeleteTacticEffect(db, id);
      case _ =>
    }
  }

  /** GET /api/principles sends the store's grouped view unchanged, with 200. */
  lemma ListingPassesThrough(db: Db)
    ensures Serve(db, ListPrinciples, true) == (db, Response(200, Listing(GetPrinciples(db))))
  {
  }

  /**
   * GET /api/principles/:id gives 404 exactly when no principle has that id,
   * and otherwise 200 with that principle and exactly its tactics, in order.
   */
  lemma FetchStatus(db: Db, id: Id)
    ensures var resp := Serve(db, FetchPrinciple(id), true).1;
      && (resp.status == 404 <==> id !in PrincipleIds(db.principles))
      && (resp.status == 404 ==> resp.payload == Message(NotFound))
      && (resp.status != 404 ==>
            && resp.status == 200
            && resp.payload.One?
            && resp.payload.principle.id == id
            && resp.payload.principle.Base() in db.principles
            && multiset(resp.payload.principle.tactics) == multiset(TacticsOf(db.tactics, id))
            && Ordering.SortedBy(resp.payload.principle.tactics, TacticOrder))
  {
  }

  /** A principle body the insert schema refuses gives 400 with its issues, whatever the store's state. */
  lemma InvalidPrincipleBody(db: Db, body: PrincipleBody, storeUp: bool)
    ensures ParsePrinciple(body).Err? <==> Serve(db, PostPrinciple(body), storeUp).1.status == 400
    ensures ParsePrinciple(body).Err? ==>
      Serve(db, PostPrinciple(body), storeUp) == (db, Response(400, Invalid(InvalidData, PrincipleIssues(body))))
  {
  }

  /** A tactic body the insert schema refuses gives 400 with its issues, whatever the store's state. */
  lemma InvalidTacticBody(db: Db, body: TacticBody, storeUp: bool)
    ensures ParseTactic(body).Err? <==> Serve(db, PostTactic(body), storeUp).1.status == 400
    ensures ParseTactic(body).Err? ==>
      Serve(db, PostTactic(body), storeUp) == (db, Response(400, Invalid(InvalidData, TacticIssues(body))))
  {
  }

  /**
   * A valid principle body gives 201 with the created row, which is now the
   * store's last principle, has a fresh id and, fetched back, has no tactics.
   */
  lemma PrincipleCreated201(db: Db, body: PrincipleBody)
    requires Consistent(db) && ParsePrinciple(body).Ok?
    ensures var (after, resp) := Serve(db, PostPrinciple(body), true);
      && resp.status == 201
      && resp.payload.PrincipleCreated?
      && var p := resp.payload.created;
      && p.id !in PrincipleIds(db.principles)
      && p.title == body.title.value && p.description == body.description.value
      && after.principles == db.principles + [p]
      && after.tactics == db.tactics
      && Serve(after, FetchPrinciple(p.id), true).1 == Response(200, One(WithTactics(p, [])))
  {
    var ins := ParsePrinciple(body).value;
    var p := NewPrinciple(db.nextId, ins);
    assert Serve(db, PostPrinciple(body), true) == (AddPrinciple(db, ins), Response(201, PrincipleCreated(p)));
    CreatePrincipleEffect(db, ins);
    assert Serve(AddPrinciple(db, ins), FetchPrinciple(p.id), true).1 == Response(200, One(WithTactics(p, [])));
  }

  /**
   * A valid tactic body whose principle exists gives 201 with the created row,
   * which then appears among that principle's tactics.
   */
  lemma TacticCreated201(db: Db, body: TacticBody)
    requires Consistent(db) && ParseTactic(body).Ok?
    requires body.principleId.value in PrincipleIds(db.principles)
    ensures var (after, resp) := Serve(db, PostTactic(body), true);
      && resp.status == 201
      && resp.payload.TacticCreated?
      && var t := resp.payload.tactic;
      && t.id !in TacticIds(db.tactics)
      && t.principleId == body.principleId.value && t.title == body.title.value
      && after.tactics == db.tactics + [t]
      && after.principles == db.principles
      && var fetched := Serve(after, FetchPrinciple(t.principleId), true).1;
      && fetched.status == 200 && t in fetched.payload.principle.tactics
  {
    CreateTacticEffect(db, ParseTactic(body).value);
  }

  /**
   * A valid tactic body naming a principle that does not exist passes the
   * schema but is refused by the store's foreign key: 500, not 400, and the
   * store is unchanged.
   */
  lemma DanglingTacticIs500(db: Db, body: TacticBody)
    requires Consistent(db) && ParseTactic(body).Ok?
    requires body.principleId.value !in PrincipleIds(db.principles)
    ensures Serve(db, PostTactic(body), true) == (db, Response(500, Message(CreateTacticFailed)))
  {
    CreateTacticEffect(db, ParseTactic(body).value);
  }

  /** DELETE /api/principles/:id answers 204 whether or not the id existed, and cascades. */
  lemma DeletePrincipleIs204(db: Db, id: Id)
    requires Consistent(db)
    ensures var (after, resp) := Serve(db, DeletePrinciple(id), true);
      && resp == Response(204, NoContent)
      && id !in PrincipleIds(after.principles)
      && (forall t :: t in after.tactics ==> t.principleId != id)
      && Serve(after, FetchPrinciple(id), true).1.status == 404
      && (id !in PrincipleIds(db.principles) ==> after == db)
  {
    DeletePrincipleEffect(db, id);
  }

  /** DELETE /api/tactics/:id answers 204 whether or not the id existed, and removes only that tactic. */
  lemma DeleteTacticIs204(db: Db, id: Id)
    requires Consistent(db)
    ensures var (after, resp) := Serve(db, DeleteTactic(id), true);
      && resp == Response(204, NoContent)
      && after.principles == db.principles
      && (forall t :: t in after.tactics <==> t in db.tactics && t.id != id)
      && (id !in TacticIds(db.tactics) ==> after == db)
  {
    DeleteTacticEffect(db, id);
  }

  /**
   * The server does not reject empty text: a principle with an empty title and
   * description is created (201); only the client forms require text.
   */
  lemma EmptyTitleCreated(db: Db)
    ensures Serve(db, PostPrinciple(PrincipleBody(Given(""), Given(""), Missing, Missing, Missing)), true).1.status == 201
  {
    EmptyTextAccepted();
  }

  // ---------------------------------------------------------------------------
  // The handlers over the mutable store
  // ---------------------------------------------------------------------------

  /** Runs one request against the store; `storeUp == false` stands for a store that throws. */
  method Handle(store: Store, req: Request, storeUp: bool) returns (resp: Response)
    requires store.Valid()
    modifies store
    ensures store.Valid()
    ensures (store.State(), resp) == Serve(old(store.State()), req, storeUp)
  {
    match req
    case ListPrinciples =>
      if storeUp {
        resp := Response(200, Listing(GetPrinciples(store.State())));
      } else {
        resp := Response(500, Message(FetchPrinciplesFailed));
      }
    case FetchPrinciple(id) =>
      if !storeUp {
        resp := Response(500, Message(FetchPrincipleFailed));
      } else {
        var found := GetPrinciple(store.State(), id);
        if found.None? {
          resp := Response(404, Message(NotFound));
        } else {
          resp := Response(200, One(found.value));
        }
      }
    case PostPrinciple(body) =>
      var parsed := ParsePrinciple(body);
      if parsed.Err? {
        resp := Response(400, Invalid(InvalidData, parsed.error));
      } else if !storeUp {
        resp := Response(500, Message(CreatePrincipleFailed));
      } else {
        var created := store.CreatePrinciple(parsed.value);
        resp := Response(201, PrincipleCreated(created));
      }
    case DeletePrinciple(id) =>
      if !storeUp {
        resp := Response(500, Message(DeletePrincipleFailed));
      } else {
        store.DeletePrinciple(id);
        resp := Response(204, NoContent);
      }
    case PostTactic(body) =>
      var parsed := ParseTactic(body);
      if parsed.Err? {
        resp := Response(400, Invalid(InvalidData, parsed.error));
      } else if !storeUp {
        resp := Response(500, Message(CreateTacticFailed));
      } else {
        var created := store.CreateTactic(parsed.value);
        if created.Err? {
          resp := Response(500, Message(CreateTacticFailed));
        } else {
          resp := Response(201, TacticCreated(created.value));
        }
      }
    case DeleteTactic(id) =>
      if !storeUp {
        resp := Response(500, Message(DeleteTacticFailed));
      } else {
        store.DeleteTactic(id);
        resp := Response(204, NoContent);
      }
  }
}
