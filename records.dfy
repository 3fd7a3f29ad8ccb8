/**
 * The documents of the three Mongoose models (models/carrier.js, models/manufacturer.js,
 * models/phone.js) and the request fields the actions read.
 */
module Records {
  import opened Wrappers

  /** A store-assigned document identifier (a Mongo ObjectId in its string form). */
  type Id = string

  /** A parsed request body or query string: field names mapped to their string values. */
  type Fields = map<string, string>

  /** The three record types; each has its own model, collection and messages. */
  datatype Entity = Carrier | Manufacturer | Phone {

    /** The word the actions build their messages from ('carrier id', 'phone not added', ...). */
    function Noun(): string {
      match this
      case Carrier => "carrier"
      case Manufacturer => "manufacturer"
      case Phone => "phone"
    }

    /** The plural used by the list actions ('carriers', 'phones not found'). */
    function Plural(): string {
      Noun() + "s"
    }
  }

  /**
   * A stored document, without its `_id` (the key it is stored under). Carrier and manufacturer
   * documents have only a name; a phone also has a manufacturer reference, a list of carrier
   * references and a status, none of which the actions ever set.
   */
  datatype Record =
    | CarrierRecord(name: string)
    | ManufacturerRecord(name: string)
    | PhoneRecord(name: string, manufacturer: Option<Id>, carriers: seq<Id>, status: Option<string>)
  {
    /** The model this document belongs to. */
    function Kind(): Entity {
      match this
      case CarrierRecord(_) => Carrier
      case ManufacturerRecord(_) => Manufacturer
      case PhoneRecord(_, _, _, _) => Phone
    }

    /** The document after `Model.update({ _id: … }, { name: n })`: only the name is replaced. */
    function Renamed(n: string): (r: Record)
      ensures r.Kind() == Kind() && r.name == n
      ensures PhoneRecord? ==> r.manufacturer == manufacturer && r.carriers == carriers && r.status == status
    {
      this.(name := n)
    }
  }

  /**
   * The document `Model.create({ name: n })` stores for entity `e`: the name and nothing else.
   * Mongoose starts an array path as the empty array and leaves the other paths unset.
   */
  function Fresh(e: Entity, n: string): (r: Record)
    ensures r.Kind() == e && r.name == n
    ensures r.PhoneRecord? ==> r.manufacturer == None && r.carriers == [] && r.status == None
  {
    match e
    case Carrier => CarrierRecord(n)
    case Manufacturer => ManufacturerRecord(n)
    case Phone => PhoneRecord(n, None, [], None)
  }

  /** Every document of collection `m` is a document of model `e`. */
  predicate OfKind(m: map<Id, Record>, e: Entity) {
    forall id | id in m :: m[id].Kind() == e
  }

  /** Every document of collection `m` has a non-empty name. */
  predicate Named(m: map<Id, Record>) {
    forall id | id in m :: m[id].name != ""
  }

  /**
   * The value of `f[key]` when the JavaScript test `!f || !f[key]` fails, that is when the field
   * is present and non-empty (a string is falsy exactly when it is empty).
   */
  function Truthy(f: Option<Fields>, key: string): (v: Option<string>)
    ensures v.Some? <==> f.Some? && key in f.value && f.value[key] != ""
    ensures v.Some? ==> v.value == f.value[key]
  {
    if f.Some? && key in f.value && f.value[key] != "" then Some(f.value[key]) else None
  }
}
