/**
 * The record store and the fifteen action handlers of api.js run against it. The store holds the
 * three collections; each handler validates its input, makes one call on one collection and
 * returns the response, and is proved to behave as the matching function of Api.
 */
module Handlers {
  import opened Wrappers
  import opened Records
  import opened Api

  class RecordStore {
    var carriers: map<Id, Record>
    var manufacturers: map<Id, Record>
    var phones: map<Id, Record>

    /** Each collection holds only documents of its own model. */
    ghost predicate Valid()
      reads this
    {
      State().Valid()
    }

    /** The value of the store. */
    function State(): Db
      reads this
    {
      Db(carriers, manufacturers, phones)
    }

    /** A store holding the given database. */
    constructor (db: Db)
      requires db.Valid()
      ensures Valid() && State() == db
    {
      carriers, manufacturers, phones := db.carriers, db.manufacturers, db.phones;
    }

    /** getAllCarriers: the whole collection, or an error outcome. Nothing changes. */
    method GetAllCarriers(reply: Reply) returns (r: Response)
      ensures r == ListAction(Carrier, carriers, reply)
    {
      match reply {
        case Failed(_) =>
          r := Thrown(NotDefined("next"));
        case Delivered =>
          r := Sent(200, Listing(carriers));
        case Vacant =>
          r := Sent(404, NotFound("carriers"));
      }
    }

    /** getAllManufacturers: the whole collection, or an error outcome. Nothing changes. */
    method GetAllManufacturers(reply: Reply) returns (r: Response)
      ensures r == ListAction(Manufacturer, manufacturers, reply)
    {
      match reply {
        case Failed(_) =>
          r := Thrown(NotDefined("next"));
        case Delivered =>
          r := Sent(200, Listing(manufacturers));
        case Vacant =>
          r := Sent(404, ErrorObject(Manufacturer.Plural() + " not found"));
      }
    }

    /** getAllPhones: the whole collection, or an error outcome. Nothing changes. */
    method GetAllPhones(reply: Reply) returns (r: Response)
      ensures r == ListAction(Phone, phones, reply)
    {
      match reply {
        case Failed(_) =>
          r := Thrown(NotDefined("next"));
        case Delivered =>
          r := Sent(200, Listing(phones));
        case Vacant =>
          r := Sent(404, ErrorObject(Phone.Plural() + " not found"));
      }
    }

    /** getCarrierById: the document stored under `id`, or a 404. Nothing changes. */
    method GetCarrierById(id: Id, fault: Option<string>) returns (r: Response)
      ensures r == FindAction(Carrier, carriers, id, fault)
    {
      if fault.Some? {
        return Sent(404, ErrorField("invalid id"));
      }
      if id in carriers {
        r := Sent(200, Document(id, carriers[id]));
      } else {
        r := Sent(404, ErrorObject(Carrier.Noun() + " not found"));
      }
    }

    /** getManufacturerById: the document stored under `id`, or a 404. Nothing changes. */
    method GetManufacturerById(id: Id, fault: Option<string>) returns (r: Response)
      ensures r == FindAction(Manufacturer, manufacturers, id, fault)
    {
      if fault.Some? {
        return Sent(404, ErrorField("invalid id"));
      }
      if id in manufacturers {
        r := Sent(200, Document(id, manufacturers[id]));
      } else {
        r := Sent(404, ErrorObject(Manufacturer.Noun() + " not found"));
      }
    }

    /** getPhoneById: the document stored under `id`, or a 404. Nothing changes. */
    method GetPhoneById(id: Id, fault: Option<string>) returns (r: Response)
      ensures r == FindAction(Phone, phones, id, fault)
    {
      if fault.Some? {
        return Sent(404, ErrorField("invalid id"));
      }
      if id in phones {
        r := Sent(200, Document(id, phones[id]));
      } else {
        r := Sent(404, ErrorObject(Phone.Noun() + " not found"));
      }
    }

    /** addCarrier: stores a new carrier holding only the submitted name, under the id the store assigns. */
    method AddCarrier(body: Option<Fields>, newId: Id, reply: Reply) returns (r: Response)
      requires Valid()
      modifies this
      ensures Valid()
      ensures (carriers, r) == CreateAction(Carrier, old(carriers), body, newId, reply)
      ensures manufacturers == old(manufacturers) && phones == old(phones)
    {
      var name := Truthy(body, "name");
      if name.None? {
        return Thrown(Invalid(Carrier.Noun() + " name"));
      }
      match reply {
        case Failed(err) =>
          r := Sent(500, ErrorField(err));
        case Vacant =>
          r := Sent(500, ErrorField(Carrier.Noun() + " not added"));
        case Delivered =>
          if newId in carriers {
            r := Sent(500, ErrorField(DUPLICATE_KEY));
          } else {
            var doc := Fresh(Carrier, name.value);
            carriers := carriers[newId := doc];
            r := Sent(200, Document(newId, doc));
          }
      }
    }

    /** addManufacturer: stores a new manufacturer holding only the submitted name, under the id the store assigns. */
    method AddManufacturer(body: Option<Fields>, newId: Id, reply: Reply) returns (r: Response)
      requires Valid()
      modifies this
      ensures Valid()
      ensures (manufacturers, r) == CreateAction(Manufacturer, old(manufacturers), body, newId, reply)
      ensures carriers == old(carriers) && phones == old(phones)
    {
      var name := Truthy(body, "name");
      if name.None? {
        return Thrown(Invalid(Manufacturer.Noun() + " name"));
      }
      match reply {
        case Failed(err) =>
          r := Sent(500, ErrorField(err));
        case Vacant =>
          r := Sent(500, ErrorField(Manufacturer.Noun() + " not added"));
        case Delivered =>
          if newId in manufacturers {
            r := Sent(500, ErrorField(DUPLICATE_KEY));
          } else {
            var doc := Fresh(Manufacturer, name.value);
            manufacturers := manufacturers[newId := doc];
            r := Sent(200, Document(newId, doc));
          }
      }
    }

    /** addPhone: stores a new phone holding only the submitted name, under the id the store assigns. */
    method AddPhone(body: Option<Fields>, newId: Id, reply: Reply) returns (r: Response)
      requires Valid()
      modifies this
      ensures Valid()
      ensures (phones, r) == CreateAction(Phone, old(phones), body, newId, reply)
      ensures carriers == old(carriers) && manufacturers == old(manufacturers)
    {
      var name := Truthy(body, "name");
      if name.None? {
        return Thrown(Invalid(Phone.Noun() + " name"));
      }
      match reply {
        case Failed(err) =>
          r := Sent(500, ErrorField(err));
        case Vacant =>
          r := Sent(500, ErrorField(Phone.Noun() + " not added"));
        case Delivered =>
          if newId in phones {
            r := Sent(500, ErrorField(DUPLICATE_KEY));
          } else {
            var doc := Fresh(Phone, name.value);
            phones := phones[newId := doc];
            r := Sent(200, Document(newId, doc));
          }
      }
    }

    /** updateCarrier: replaces the name of the carrier stored under `query.id`; never inserts. */
    method UpdateCarrier(query: Option<Fields>, fault: Option<string>) returns (r: Response)
      requires Valid()
      modifies this
      ensures Valid()
      ensures (carriers, r) == UpdateAction(Carrier, old(carriers), query, fault)
      ensures manufacturers == old(manufacturers) && phones == old(phones)
    {
      var id := Truthy(query, "id");
      if id.None? {
        return Thrown(Invalid(Carrier.Noun() + " id"));
      }
      var name := Truthy(query, "name");
      if name.None? {
        return Thrown(Invalid(Carrier.Noun() + " name"));
      }
      if fault.Some? {
        return Sent(500, ErrorField(fault.value));
      }
      var numRowsAffected := 0;
      if id.value in carriers {
        carriers := carriers[id.value := carriers[id.value].Renamed(name.value)];
        numRowsAffected := 1;
      }
      if numRowsAffected > 0 {
        r := Sent(200, RawReport(numRowsAffected));
      } else {
        r := Sent(500, ErrorField(Carrier.Noun() + " not updated"));
      }
    }

    /** updateManufacturer: replaces the name of the manufacturer stored under `query.id`; never inserts. */
    method UpdateManufacturer(query: Option<Fields>, fault: Option<string>) returns (r: Response)
      requires Valid()
      modifies this
      ensures Valid()
      ensures (manufacturers, r) == UpdateAction(Manufacturer, old(manufacturers), query, fault)
      ensures carriers == old(carriers) && phones == old(phones)
    {
      var id := Truthy(query, "id");
      if id.None? {
        return Thrown(Invalid(Manufacturer.Noun() + " id"));
      }
      var name := Truthy(query, "name");
      if name.None? {
        return Thrown(Invalid(Manufacturer.Noun() + " name"));
      }
      if fault.Some? {
        return Sent(500, ErrorField(fault.value));
      }
      var numRowsAffected := 0;
      if id.value in manufacturers {
        manufacturers := manufacturers[id.value := manufacturers[id.value].Renamed(name.value)];
        numRowsAffected := 1;
      }
      if numRowsAffected > 0 {
        r := Sent(200, RawReport(numRowsAffected));
      } else {
        r := Sent(500, ErrorField(Manufacturer.Noun() + " not updated"));
      }
    }

    /** updatePhone: replaces the name of the phone stored under `query.id`; never inserts. */
    method UpdatePhone(query: Option<Fields>, fault: Option<string>) returns (r: Response)
      requires Valid()
      modifies this
      ensures Valid()
      ensures (phones, r) == UpdateAction(Phone, old(phones), query, fault)
      ensures carriers == old(carriers) && manufacturers == old(manufacturers)
    {
      var id := Truthy(query, "id");
      if id.None? {
        return Thrown(Invalid(Phone.Noun() + " id"));
      }
      var name := Truthy(query, "name");
      if name.None? {
        return Thrown(Invalid(Phone.Noun() + " name"));
      }
      if fault.Some? {
        return Sent(500, ErrorField(fault.value));
      }
      var numRowsAffected := 0;
      if id.value in phones {
        phones := phones[id.value := phones[id.value].Renamed(name.value)];
        numRowsAffected := 1;
      }
      if numRowsAffected > 0 {
        r := Sent(200, RawReport(numRowsAffected));
      } else {
        r := Sent(500, ErrorField(Phone.Noun() + " not updated"));
      }
    }

    /**
     * deleteCarrier: removes the carrier stored under `query.id`, if there is one.
     */
    method DeleteCarrier(query: Option<Fields>, fault: Option<string>) returns (r: Response)
      requires Valid()
      modifies this
      ensures Valid()
      ensures (carriers, r) == DeleteAction(Carrier, old(carriers), query, fault)
      ensures manufacturers == old(manufacturers) && phones == old(phones)
    {
      var id := Truthy(query, "id");
      if id.None? {
        return Thrown(Invalid(Carrier.Noun() + " id"));
      }
      if fault.Some? {
        return Sent(500, ErrorField(fault.value));
      }
      carriers := carriers - {id.value};
      r := Sent(200, Message("ok"));
    }

    /**
     * deleteManufacturer: removes the document stored under `query.id` from the CARRIER collection, as
     * api.js:468 calls `Carrier.model.remove`; the manufacturer collection is left as it was.
     */
    method DeleteManufacturer(query: Option<Fields>, fault: Option<string>) returns (r: Response)
      requires Valid()
      modifies this
      ensures Valid()
      ensures (carriers, r) == DeleteAction(Manufacturer, old(carriers), query, fault)
      ensures manufacturers == old(manufacturers) && phones == old(phones)
    {
      var id := Truthy(query, "id");
      if id.None? {
        return Thrown(Invalid(Manufacturer.Noun() + " id"));
      }
      if fault.Some? {
        return Sent(500, ErrorField(fault.value));
      }
      carriers := carriers - {id.value};
      r := Sent(200, Message("ok"));
    }

    /**
     * deletePhone: removes the phone stored under `query.id`, if there is one.
     */
    method DeletePhone(query: Option<Fields>, fault: Option<string>) returns (r: Response)
      requires Valid()
      modifies this
      ensures Valid()
      ensures (phones, r) == DeleteAction(Phone, old(phones), query, fault)
      ensures carriers == old(carriers) && manufacturers == old(manufacturers)
    {
      var id := Truthy(query, "id");
      if id.None? {
        return Thrown(Invalid(Phone.Noun() + " id"));
      }
      if fault.Some? {
        return Sent(500, ErrorField(fault.value));
      }
      phones := phones - {id.value};
      r := Sent(200, Message("ok"));
    }
  }
}
