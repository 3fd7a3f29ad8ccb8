/**
 * The `action` functions of api.js, as pure functions of one collection, the request and the
 * store's answer. Each action validates its input, makes one store call and maps the outcome
 * to a response. The class in Handlers runs these on the three collections of the store.
 */
module Api {
  import opened Wrappers
  import opened Records

  /**
   * How the store answered a `find` or a `create`: it delivered its result, called back with an
   * error, or called back with neither an error nor a result.
   */
  datatype Reply = Delivered | Failed(err: string) | Vacant

  /** What an action throws instead of responding. */
  datatype Fault =
    | Invalid(what: string)          // swe.invalid(what)
    | NotDefined(identifier: string) // a ReferenceError: the identifier is not bound

  /** The payloads the actions send. */
  datatype Body =
    | Listing(records: map<Id, Record>) // the documents of a collection, as an array
    | Document(id: Id, record: Record)  // one document, with its _id
    | RawReport(n: nat)                 // the raw answer of an update, counting the documents matched
    | Message(msg: string)              // { msg: … }
    | ErrorField(error: string)         // { error: … }
    | NotFound(what: string)            // swe.notFound(what)
    | ErrorObject(message: string)      // new Error(message)

  /** A response sent with a status code, or an exception thrown out of the action. */
  datatype Response = Sent(status: nat, body: Body) | Thrown(fault: Fault)

  /** The error Mongo reports when an insert reuses an `_id` already present. */
  const DUPLICATE_KEY := "E11000 duplicate key error"

  /** A 200 response, the only success the actions send. */
  predicate Ok(r: Response) {
    r.Sent? && r.status == 200
  }

  /**
   * getAllCarriers, getAllManufacturers, getAllPhones. A store error calls `next`, which the list
   * actions do not bind, so a ReferenceError is thrown and no response is sent. The falsy-result
   * branch answers swe.notFound for carriers but a plain Error for the other two.
   */
  function ListAction(e: Entity, coll: map<Id, Record>, reply: Reply): (r: Response)
    ensures Ok(r) <==> reply.Delivered?
    ensures Ok(r) ==> r.body == Listing(coll)
    ensures reply.Failed? ==> r == Thrown(NotDefined("next"))
    ensures reply.Vacant? ==>
              r == Sent(404, if e == Carrier then NotFound("carriers") else ErrorObject(e.Plural() + " not found"))
  {
    match reply
    case Failed(_) => Thrown(NotDefined("next"))
    case Vacant =>
      Sent(404, if e == Carrier then NotFound("carriers") else ErrorObject(e.Plural() + " not found"))
    case Delivered => Sent(200, Listing(coll))
  }

  /**
   * getCarrierById, getManufacturerById, getPhoneById: `findOne({ _id: id })`. A store error
   * (a malformed id among them) is answered 404 'invalid id', a missing document 404 'not found'.
   */
  function FindAction(e: Entity, coll: map<Id, Record>, id: Id, fault: Option<string>): (r: Response)
    ensures r.Sent? && (r.status == 200 || r.status == 404)
    ensures Ok(r) <==> fault.None? && id in coll
    ensures Ok(r) ==> r.body == Document(id, coll[id])
    ensures fault.Some? ==> r.body == ErrorField("invalid id")
    ensures fault.None? && id !in coll ==> r.body == ErrorObject(e.Noun() + " not found")
  {
    if fault.Some? then Sent(404, ErrorField("invalid id"))
    else if id in coll then Sent(200, Document(id, coll[id]))
    else Sent(404, ErrorObject(e.Noun() + " not found"))
  }

  /**
   * addCarrier, addManufacturer, addPhone: `create({ name: body.name })` under the id `newId`
   * the store assigns. Only the name is taken from the body. The new collection comes first.
   */
  function CreateAction(e: Entity, coll: map<Id, Record>, body: Option<Fields>, newId: Id, reply: Reply)
    : (out: (map<Id, Record>, Response))
    ensures Truthy(body, "name").None? ==> out == (coll, Thrown(Invalid(e.Noun() + " name")))
    ensures Ok(out.1) <==> Truthy(body, "name").Some? && reply.Delivered? && newId !in coll
    ensures Ok(out.1) ==>
              var doc := Fresh(e, body.value["name"]);
              out.0 == coll[newId := doc] && out.0.Keys == coll.Keys + {newId} &&
              out.1.body == Document(newId, doc)
    ensures !Ok(out.1) ==> out.0 == coll
    ensures Truthy(body, "name").Some? && !Ok(out.1) ==> out.1.Sent? && out.1.status == 500
    ensures Truthy(body, "name").Some? && reply.Failed? ==> out.1 == Sent(500, ErrorField(reply.err))
    ensures Truthy(body, "name").Some? && reply.Vacant? ==> out.1 == Sent(500, ErrorField(e.Noun() + " not added"))
    ensures Truthy(body, "name").Some? && reply.Delivered? && newId in coll ==>
              out.1 == Sent(500, ErrorField(DUPLICATE_KEY))
  {
    var name := Truthy(body, "name");
    if name.None? then (coll, Thrown(Invalid(e.Noun() + " name")))
    else
      match reply
      case Failed(err) => (coll, Sent(500, ErrorField(err)))
      case Vacant => (coll, Sent(500, ErrorField(e.Noun() + " not added")))
      case Delivered =>
        if newId in coll then (coll, Sent(500, ErrorField(DUPLICATE_KEY)))
        else
          var doc := Fresh(e, name.value);
          (coll[newId := doc], Sent(200, Document(newId, doc)))
  }

  /**
   * updateCarrier, updateManufacturer, updatePhone: `update({ _id: query.id }, { name: query.name })`.
   * The id is checked before the name. The update matches at most one document; the action
   * answers 200 with the raw report when it matched one, and never inserts.
   */
  function UpdateAction(e: Entity, coll: map<Id, Record>, query: Option<Fields>, fault: Option<string>)
    : (out: (map<Id, Record>, Response))
    ensures Truthy(query, "id").None? ==> out == (coll, Thrown(Invalid(e.Noun() + " id")))
    ensures Truthy(query, "id").Some? && Truthy(query, "name").None? ==>
              out == (coll, Thrown(Invalid(e.Noun() + " name")))
    ensures out.0.Keys == coll.Keys
    ensures Ok(out.1) <==>
              Truthy(query, "id").Some? && Truthy(query, "name").Some? && fault.None? && query.value["id"] in coll
    ensures Ok(out.1) ==>
              var id := query.value["id"];
              out.0 == coll[id := coll[id].Renamed(query.value["name"])] && out.1.body == RawReport(1)
    ensures !Ok(out.1) ==> out.0 == coll
    ensures out.1.Sent? ==> out.1.status == 200 || out.1.status == 500
    ensures Truthy(query, "id").Some? && Truthy(query, "name").Some? && !Ok(out.1) ==>
              out.1 == Sent(500, if fault.Some? then ErrorField(fault.value) else ErrorField(e.Noun() + " not updated"))
  {
    var id := Truthy(query, "id");
    var name := Truthy(query, "name");
    if id.None? then (coll, Thrown(Invalid(e.Noun() + " id")))
    else if name.None? then (coll, Thrown(Invalid(e.Noun() + " name")))
    else if fault.Some? then (coll, Sent(500, ErrorField(fault.value)))
    else
      var numRowsAffected := if id.value in coll then 1 else 0;
      if numRowsAffected > 0 then
        (coll[id.value := coll[id.value].Renamed(name.value)], Sent(200, RawReport(numRowsAffected)))
      else (coll, Sent(500, ErrorField(e.Noun() + " not updated")))
  }

  /**
   * deleteCarrier, deleteManufacturer, deletePhone: `remove({ _id: query.id })` on the collection
   * `coll` the action's model names. Removing an absent id is not an error.
   */
  function DeleteAction(e: Entity, coll: map<Id, Record>, query: Option<Fields>, fault: Option<string>)
    : (out: (map<Id, Record>, Response))
    ensures Truthy(query, "id").None? ==> out == (coll, Thrown(Invalid(e.Noun() + " id")))
    ensures out.1 == Sent(200, Message("ok")) <==> Truthy(query, "id").Some? && fault.None?
    ensures Ok(out.1) ==> out.0 == coll - {query.value["id"]} && query.value["id"] !in out.0
    ensures !Ok(out.1) ==> out.0 == coll
    ensures Truthy(query, "id").Some? && fault.Some? ==> out.1 == Sent(500, ErrorField(fault.value))
  {
    var id := Truthy(query, "id");
    if id.None? then (coll, Thrown(Invalid(e.Noun() + " id")))
    else if fault.Some? then (coll, Sent(500, ErrorField(fault.value)))
    else (coll - {id.value}, Sent(200, Message("ok")))
  }

  /**
   * The collection each delete action removes from: deleteManufacturer calls `Carrier.model.remove`,
   * so it removes from the carrier collection.
   */
  function DeleteTarget(e: Entity): (t: Entity)
    ensures e != Manufacturer ==> t == e
    ensures e == Manufacturer ==> t == Carrier
  {
    if e == Manufacturer then Carrier else e
  }

  /** The value of the whole store: the three collections. */
  datatype Db = Db(carriers: map<Id, Record>, manufacturers: map<Id, Record>, phones: map<Id, Record>) {

    function Collection(e: Entity): map<Id, Record> {
      match e
      case Carrier => carriers
      case Manufacturer => manufacturers
      case Phone => phones
    }

    /** The store with the collection of `e` replaced by `c` and the other two kept. */
    function With(e: Entity, c: map<Id, Record>): (d: Db)
      ensures d.Collection(e) == c
      ensures forall o :: o != e ==> d.Collection(o) == Collection(o)
    {
      match e
      case Carrier => this.(carriers := c)
      case Manufacturer => this.(manufacturers := c)
      case Phone => this.(phones := c)
    }

    /** Each collection holds only documents of its own model. */
    predicate Valid() {
      OfKind(carriers, Carrier) && OfKind(manufacturers, Manufacturer) && OfKind(phones, Phone)
    }
  }

  /** A create that succeeded is read back by id with the submitted name. */
  lemma CreateThenFind(e: Entity, coll: map<Id, Record>, body: Option<Fields>, newId: Id, reply: Reply)
    requires Ok(CreateAction(e, coll, body, newId, reply).1)
    ensures var r := FindAction(e, CreateAction(e, coll, body, newId, reply).0, newId, None);
            Ok(r) && r.body.record.name == body.value["name"] && r.body.record.Kind() == e
  {
  }

  /** An update that succeeded is read back by id with the new name. */
  lemma UpdateThenFind(e: Entity, coll: map<Id, Record>, query: Option<Fields>, fault: Option<string>)
    requires Ok(UpdateAction(e, coll, query, fault).1)
    ensures var r := FindAction(e, UpdateAction(e, coll, query, fault).0, query.value["id"], None);
            Ok(r) && r.body.record.name == query.value["name"]
  {
  }

  /** After a delete that succeeded, the id is not found. */
  lemma DeleteThenFind(e: Entity, coll: map<Id, Record>, query: Option<Fields>, fault: Option<string>)
    requires Ok(DeleteAction(e, coll, query, fault).1)
    ensures var r := FindAction(e, DeleteAction(e, coll, query, fault).0, query.value["id"], None);
            r == Sent(404, ErrorObject(e.Noun() + " not found"))
  {
  }

  /** Two creates in a row that both succeed were given different ids. */
  lemma CreatesGetDistinctIds(e: Entity, coll: map<Id, Record>, b1: Option<Fields>, id1: Id, r1: Reply,
                              b2: Option<Fields>, id2: Id, r2: Reply)
    requires Ok(CreateAction(e, coll, b1, id1, r1).1)
    requires Ok(CreateAction(e, CreateAction(e, coll, b1, id1, r1).0, b2, id2, r2).1)
    ensures id1 != id2
  {
  }
}
