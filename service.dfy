/**
 * The service as a whole, as a function of the store: each request meets the write gate of
 * server.js and, when admitted, the one action of api.js its route is bound to (the fifteen
 * bindings of server.js). Requests are handled one after another.
 */
module Service {
  import opened Wrappers
  import opened Records
  import opened Api
  import Server

  /** The fifteen routes: an operation and the entity it is on. */
  datatype Action =
    | ListAll(e: Entity)           // GET /{entity}/list
    | GetById(e: Entity, id: Id)   // GET /{entity}/{id}
    | Add(e: Entity)               // POST /{entity}
    | Change(e: Entity)            // PUT /{entity}
    | Remove(e: Entity)            // DELETE /{entity}

  /**
   * An incoming request: its route, headers, query string and body. `headers` holds the header
   * names as Node presents them, lower-cased, so `Api_Key: 1234` arrives as "api_key".
   */
  datatype Request = Request(action: Action, headers: map<string, string>, query: Option<Fields>, body: Option<Fields>)

  /** What the store does with the request's one call: its answer, or fault, and the id it assigns. */
  datatype Env = Env(reply: Reply, fault: Option<string>, newId: Id)

  /** The request was refused by the gate, or handled by its action. */
  datatype Outcome = Refused | Handled(response: Response)

  /** The HTTP verb each route is registered with. */
  function Verb(a: Action): (v: string)
    ensures Server.IsWrite(v) <==> !(a.ListAll? || a.GetById?)
  {
    match a
    case ListAll(_) => "GET"
    case GetById(_, _) => "GET"
    case Add(_) => "POST"
    case Change(_) => "PUT"
    case Remove(_) => "DELETE"
  }

  /** The collection a route's action may change, if any. */
  function Writes(a: Action): (w: Option<Entity>)
    ensures w.None? <==> Verb(a) == "GET"
  {
    match a
    case ListAll(_) => None
    case GetById(_, _) => None
    case Add(e) => Some(e)
    case Change(e) => Some(e)
    case Remove(e) => Some(DeleteTarget(e))
  }

  /** A plain property read `f[key]`, as of `req.headers` and the parsed query; unlike `Truthy` it keeps an empty value. */
  function Lookup(f: Option<Fields>, key: string): Option<string> {
    if f.Some? && key in f.value then Some(f.value[key]) else None
  }

  /** Whether the write gate lets the request through. */
  function Admitted(req: Request): (ok: bool)
    ensures Verb(req.action) == "GET" ==> ok
    ensures req.action.Add? || req.action.Change? || req.action.Remove? ==>
              (ok <==> Server.EffectiveKey(Lookup(Some(req.headers), "api_key"), Lookup(req.query, "api_key"))
                         == Some(Server.API_KEY))
  {
    Server.Validate(Verb(req.action), Lookup(Some(req.headers), "api_key"), Lookup(req.query, "api_key"))
  }

  /** The admitted request's action, run on the collection its model names. */
  function Dispatch(db: Db, req: Request, env: Env): (out: (Db, Response))
    ensures db.Valid() ==> out.0.Valid()
    ensures Named(db.Collection(Phone)) && Named(db.Collection(Carrier)) && Named(db.Collection(Manufacturer)) ==>
              Named(out.0.Collection(Phone)) && Named(out.0.Collection(Carrier)) &&
              Named(out.0.Collection(Manufacturer))
    ensures forall e :: Writes(req.action) != Some(e) ==> out.0.Collection(e) == db.Collection(e)
  {
    match req.action
    case ListAll(e) => (db, ListAction(e, db.Collection(e), env.reply))
    case GetById(e, id) => (db, FindAction(e, db.Collection(e), id, env.fault))
    case Add(e) =>
      var (c, r) := CreateAction(e, db.Collection(e), req.body, env.newId, env.reply);
      (db.With(e, c), r)
    case Change(e) =>
      var (c, r) := UpdateAction(e, db.Collection(e), req.query, env.fault);
      (db.With(e, c), r)
    case Remove(e) =>
      var t := DeleteTarget(e);
      var (c, r) := DeleteAction(e, db.Collection(t), req.query, env.fault);
      (db.With(t, c), r)
  }

  /** One request: refused by the gate with the store untouched, or dispatched. */
  function Step(db: Db, req: Request, env: Env): (out: (Db, Outcome))
    ensures !Admitted(req) ==> out == (db, Refused)
    ensures Admitted(req) ==> out == (Dispatch(db, req, env).0, Handled(Dispatch(db, req, env).1))
  {
    if Admitted(req) then
      var (d, r) := Dispatch(db, req, env);
      (d, Handled(r))
    else (db, Refused)
  }

  /** A sequence of requests, each with what its store call does, handled in order. */
  function Run(db: Db, trace: seq<(Request, Env)>): (out: (Db, seq<Outcome>))
    ensures |out.1| == |trace|
    ensures trace != [] ==> out.1[0] == Step(db, trace[0].0, trace[0].1).1
    decreases |trace|
  {
    if trace == [] then (db, [])
    else
      var (d, o) := Step(db, trace[0].0, trace[0].1);
      var (d', os) := Run(d, trace[1..]);
      (d', [o] + os)
  }

  /** The outcome of the first request of a non-empty trace is that of its step. */
  lemma RunHead(db: Db, trace: seq<(Request, Env)>)
    requires trace != []
    ensures Run(db, trace).1[0] == Step(db, trace[0].0, trace[0].1).1
    ensures Run(db, trace).0 == Run(Step(db, trace[0].0, trace[0].1).0, trace[1..]).0
  {
  }

  /** Every collection keeps only documents of its own model, whatever requests come. */
  lemma {:induction false} RunKeepsValid(db: Db, trace: seq<(Request, Env)>)
    requires db.Valid()
    ensures Run(db, trace).0.Valid()
    decreases |trace|
  {
    if trace != [] {
      RunKeepsValid(Step(db, trace[0].0, trace[0].1).0, trace[1..]);
    }
  }

  /** Names are validated before they are stored, so a store whose names are set keeps them set. */
  lemma {:induction false} RunKeepsNames(db: Db, trace: seq<(Request, Env)>)
    requires Named(db.carriers) && Named(db.manufacturers) && Named(db.phones)
    ensures var d := Run(db, trace).0; Named(d.carriers) && Named(d.manufacturers) && Named(d.phones)
    decreases |trace|
  {
    if trace != [] {
      var d := Step(db, trace[0].0, trace[0].1).0;
      assert d.carriers == d.Collection(Carrier) && d.manufacturers == d.Collection(Manufacturer);
      RunKeepsNames(d, trace[1..]);
    }
  }

  /** A collection no request of the trace writes to ends as it began. */
  lemma {:induction false} RunKeepsUntouched(db: Db, trace: seq<(Request, Env)>, e: Entity)
    requires forall i | 0 <= i < |trace| :: Writes(trace[i].0.action) != Some(e)
    ensures Run(db, trace).0.Collection(e) == db.Collection(e)
    decreases |trace|
  {
    if trace != [] {
      RunKeepsUntouched(Step(db, trace[0].0, trace[0].1).0, trace[1..], e);
    }
  }

  /**
   * Manufacturer deletes remove only carriers: a trace of deleteManufacturer requests, admitted
   * or not, leaves the manufacturer and phone collections as they were.
   */
  lemma ManufacturerDeletesSpareManufacturers(db: Db, trace: seq<(Request, Env)>)
    requires forall i | 0 <= i < |trace| :: trace[i].0.action == Remove(Manufacturer)
    ensures Run(db, trace).0.manufacturers == db.manufacturers
    ensures Run(db, trace).0.phones == db.phones
  {
    RunKeepsUntouched(db, trace, Manufacturer);
    RunKeepsUntouched(db, trace, Phone);
  }

  /** GET requests never change the store. */
  lemma ReadsChangeNothing(db: Db, trace: seq<(Request, Env)>)
    requires forall i | 0 <= i < |trace| :: Verb(trace[i].0.action) == "GET"
    ensures Run(db, trace).0 == db
  {
    RunKeepsUntouched(db, trace, Carrier);
    RunKeepsUntouched(db, trace, Manufacturer);
    RunKeepsUntouched(db, trace, Phone);
  }

  /** Requests the gate refuses change nothing and are all answered Refused. */
  lemma {:induction false} RefusedChangeNothing(db: Db, trace: seq<(Request, Env)>)
    requires forall i | 0 <= i < |trace| :: !Admitted(trace[i].0)
    ensures Run(db, trace).0 == db
    ensures forall i | 0 <= i < |trace| :: Run(db, trace).1[i] == Refused
    decreases |trace|
  {
    if trace != [] {
      RefusedChangeNothing(db, trace[1..]);
      forall i | 0 <= i < |trace| ensures Run(db, trace).1[i] == Refused {
        if i > 0 {
          assert Run(db, trace).1[i] == Run(db, trace[1..]).1[i - 1];
        }
      }
    }
  }

  /** The ids the creates of a trace on entity `e` are assigned. */
  function CreatedIds(trace: seq<(Request, Env)>, e: Entity): (ids: set<Id>)
    ensures forall i | 0 <= i < |trace| && trace[i].0.action == Add(e) :: trace[i].1.newId in ids
    ensures forall id | id in ids :: exists i | 0 <= i < |trace| :: trace[i].0.action == Add(e) && trace[i].1.newId == id
  {
    if trace == [] then {}
    else (if trace[0].0.action == Add(e) then {trace[0].1.newId} else {}) + CreatedIds(trace[1..], e)
  }

  /**
   * Ids come from the store, never from the client: every id in a collection after a trace was
   * there before, or was assigned by the store to a create on that collection.
   */
  lemma {:induction false} KeysComeFromStore(db: Db, trace: seq<(Request, Env)>, e: Entity)
    ensures Run(db, trace).0.Collection(e).Keys <= db.Collection(e).Keys + CreatedIds(trace, e)
    decreases |trace|
  {
    if trace != [] {
      var (req, env) := trace[0];
      var d := Step(db, req, env).0;
      KeysComeFromStore(d, trace[1..], e);
      assert d.Collection(e).Keys <= db.Collection(e).Keys + (if req.action == Add(e) then {env.newId} else {});
    }
  }

  /** Round trip through the gate: an admitted create is read back by its new id. */
  lemma CreateThenGet(db: Db, add: Request, env: Env, get: Request, env2: Env)
    requires add.action.Add? && Admitted(add)
    requires Step(db, add, env).1.Handled? && Ok(Step(db, add, env).1.response)
    requires get.action == GetById(add.action.e, env.newId) && env2.fault.None?
    ensures var r := Step(Step(db, add, env).0, get, env2).1;
            r.Handled? && Ok(r.response) && r.response.body.record.name == add.body.value["name"]
  {
  }

  /** On the carrier and phone routes, an admitted delete that succeeded is followed by 'not found' for its id. */
  lemma DeleteThenGet(db: Db, del: Request, env: Env, get: Request, env2: Env)
    requires del.action.Remove? && del.action.e != Manufacturer && Admitted(del)
    requires Step(db, del, env).1.Handled? && Ok(Step(db, del, env).1.response)
    requires get.action == GetById(del.action.e, del.query.value["id"]) && env2.fault.None?
    ensures Step(Step(db, del, env).0, get, env2).1 == Handled(Sent(404, ErrorObject(del.action.e.Noun() + " not found")))
  {
  }

  /**
   * The delete round trip fails on the manufacturer route: deleting a stored manufacturer answers
   * `{msg:'ok'}`, yet the manufacturer is still found afterwards, since the delete hit the carriers.
   */
  lemma ManufacturerFoundAfterDelete(db: Db, del: Request, env: Env, get: Request, env2: Env)
    requires del.action == Remove(Manufacturer) && Admitted(del)
    requires Truthy(del.query, "id").Some? && env.fault.None? && del.query.value["id"] in db.manufacturers
    requires get.action == GetById(Manufacturer, del.query.value["id"]) && env2.fault.None?
    ensures Step(db, del, env).1 == Handled(Sent(200, Message("ok")))
    ensures var r := Step(Step(db, del, env).0, get, env2).1;
            r.Handled? && Ok(r.response) && r.response.body == Document(del.query.value["id"], db.manufacturers[del.query.value["id"]])
  {
  }

  /** Deleting through the manufacturer route removes the id from the carriers, never from the manufacturers. */
  lemma DeleteManufacturerHitsCarriers(db: Db, req: Request, env: Env)
    requires req.action == Remove(Manufacturer) && Admitted(req)
    requires Truthy(req.query, "id").Some? && env.fault.None?
    ensures var (d, o) := Step(db, req, env);
            o == Handled(Sent(200, Message("ok"))) &&
            d == db.(carriers := db.carriers - {req.query.value["id"]})
  {
  }
}
