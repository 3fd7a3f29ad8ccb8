# Phone catalogue API: request handlers, write gate and docs route

This project models the core of a small Express/Swagger service that exposes create, read,
update and delete operations on three Mongo collections: carriers, manufacturers and phones.
Two parts are modelled:

- **The fifteen action handlers of `api.js`.** These are list, get-by-id, create, update and
  delete for each entity. Each handler checks its body or query, makes one store call and maps
  the outcome to a response. `Api` gives each operation as a pure function of one collection.
  `Handlers.RecordStore` is the store with its three collections as `map<Id, Record>` fields.
  Its fifteen methods are written branch by branch like the JavaScript, and each is proved
  equal to its `Api` function. They also state which collections stay unchanged.
- **The two pieces of logic in `server.js`.** `Server` holds the `validate` write gate (the
  `api_key` header, falling back to the query parameter, must be `1234` for POST, PUT and
  DELETE). It also holds the `/docs` route: its pattern match, the redirect of bare `/docs`
  and the prefix strip before static serving, all on an `Exchange` object that holds `req.url`
  and what was written to the response.

`Service` chains the gate and the handlers into a step function over the whole store, `Db`.
`Run` applies that step to a sequence of requests. Lemmas over such sequences show:

- every collection keeps only documents of its own model;
- stored names stay non-empty;
- a collection that no request writes to is unchanged;
- GET requests and refused requests change nothing;
- every stored id was either already present or assigned by the store to a create.

The store's behaviour is an explicit parameter of each call. This makes every error branch
reachable:

- `Reply` (`Delivered`, `Failed(err)`, `Vacant`) is the answer to a `find` or `create`.
  `Vacant` means a callback with neither an error nor a value.
- `fault: Option<string>` is the error, if any, of a `findOne`, `update` or `remove`. This also
  covers a malformed ObjectId.
- `newId` is the ObjectId the driver assigns on create. If it collides with a stored id, the
  create fails with Mongo's duplicate-key error and a 500 response.

The rest is modelled as follows:

- An `update` matches at most one document. `numRowsAffected` is 1 when the id is stored and
  0 otherwise.
- A value an action throws (`swe.invalid`) is `Thrown(Invalid(what))`.
- Sent responses are `Sent(status, body)`. `swe.invalid` and `swe.notFound` are abstract
  constructors.
- `new Error(msg)` passed to `res.send` is `ErrorObject(msg)`. Express serialises such an
  object as `{}`.

Where the code differs from the behaviour its documentation describes, the model follows the code:

- **List store error.** On a store error, the list actions call `next`, but they do not take
  `next` as a parameter. This throws a ReferenceError and sends no response.
  `ListAction` gives `Thrown(NotDefined("next"))`, not a 404 error descriptor.
- **Empty list.** The store's result is an array, and an empty array is truthy in JavaScript.
  So an empty collection is answered 200 with an empty listing. The 404 branches are taken only
  on a callback with no value (`Vacant`). There, the carrier action sends `swe.notFound`, while
  the other two send a plain Error.
- **Delete response.** A delete answers `{ msg: 'ok' }`.
- **Validation failure.** A failed check is thrown, not sent. The status code is chosen by
  swagger.js, which is not part of this model.
- **`/docs` matching.** Express matches the route pattern against the path, that is the URL up
  to the first `?` or `#`. The redirect test compares the whole `req.url`. So `/docs?x=1` is
  routed but not redirected, and it is forwarded as `?x=1` (likewise `/docs#top` as `#top`).
  For a `req.url` that starts with `/`, every forwarded URL is therefore non-empty and starts
  with `/`, `?` or `#`. The route is
  registered with `app.get`, so only GET and HEAD requests reach it.

## Model

| member | source | states |
|---|---|---|
| `Records.Truthy` | api.js:234 | the value of a body or query field exactly when the falsiness tests on the object and on the field (also api.js:329, 331, 436) let it through: the object and the field are present and the value is non-empty |
| `Records.Record.Renamed` | api.js:335 | the update `{ name: … }` replaces only the name: same model, and a phone keeps its manufacturer, carriers and status |
| `Records.Fresh` | api.js:238 | the document a create stores has the submitted name and the entity's model; a phone gets no manufacturer, no carriers and no status |
| `Api.ListAction` | api.js:73-83 | 200 with the whole collection iff the store delivered; a store error throws a ReferenceError for `next` and sends nothing; an empty callback gets 404, with swe.notFound only for carriers (the manufacturer and phone lists, api.js:99-109 and api.js:125-135, send a plain Error) |
| `Api.FindAction` | api.js:154-164 | only 200 or 404; 200 iff no store error and the id is stored, with that document; a store error gives `{error:'invalid id'}` and a missing id gives 'not found', so a missing id never gets 200 |
| `Api.CreateAction` | api.js:232-248 | a missing body or a missing/empty name throws Invalid('… name') with the collection unchanged; success iff a name is given, the store delivers and the new id is not taken; success adds exactly that id with the fresh document and returns it; with a name given, a store error gives 500 `{error: err}`, a callback without a document gives 500 '… not added', and a taken id gives 500 with the duplicate-key error, each with the collection unchanged |
| `Api.UpdateAction` | api.js:327-345 | the id is checked before the name, and both failures leave the collection unchanged; the key set never changes, so there is no upsert; 200 with the raw report iff both fields are given, no store error and the id is stored, and then only that document's name is replaced; otherwise 500 'not updated' or the store error, with nothing changed |
| `Api.DeleteAction` | api.js:434-446 | a missing id throws Invalid('… id') with nothing changed; 200 `{msg:'ok'}` iff an id is given and the store does not fail, whether or not the id was stored, and then the id is absent afterwards; a store error gives 500 with nothing changed |
| `Api.DeleteTarget` | api.js:468 | deleteManufacturer removes from the carrier collection; the other deletes use their own |
| `Api.CreateThenFind` | api.js:238-245 | after a successful create, a lookup of the new id gives 200 with the submitted name and the right model |
| `Api.UpdateThenFind` | api.js:335-339 | after a successful update, a lookup of the id gives 200 with the new name |
| `Api.DeleteThenFind` | api.js:440-443 | on the collection the delete removed from, a lookup of the deleted id gives 404 'not found'; in the service this is the round trip of the carrier and phone routes only (see `Service.ManufacturerFoundAfterDelete`) |
| `Api.CreatesGetDistinctIds` | api.js:238 | two successive successful creates on one collection were assigned different ids |
| `Handlers.RecordStore.GetAllCarriers` | api.js:73-83 | answers as `ListAction` on the carrier collection, changing nothing |
| `Handlers.RecordStore.GetAllManufacturers` | api.js:99-109 | answers as `ListAction` on the manufacturer collection, changing nothing |
| `Handlers.RecordStore.GetAllPhones` | api.js:125-135 | answers as `ListAction` on the phone collection, changing nothing |
| `Handlers.RecordStore.GetCarrierById` | api.js:154-164 | answers as `FindAction` on the carrier collection, changing nothing |
| `Handlers.RecordStore.GetManufacturerById` | api.js:180-190 | answers as `FindAction` on the manufacturer collection, changing nothing |
| `Handlers.RecordStore.GetPhoneById` | api.js:206-216 | answers as `FindAction` on the phone collection, changing nothing |
| `Handlers.RecordStore.AddCarrier` | api.js:232-248 | the carriers and the response are those of `CreateAction`; the manufacturers and phones are unchanged; the kind invariant is kept |
| `Handlers.RecordStore.AddManufacturer` | api.js:261-277 | the manufacturers and the response are those of `CreateAction`; the other two collections are unchanged |
| `Handlers.RecordStore.AddPhone` | api.js:290-306 | the phones and the response are those of `CreateAction`; the other two collections are unchanged |
| `Handlers.RecordStore.UpdateCarrier` | api.js:327-345 | the carriers and the response are those of `UpdateAction`; the other two collections are unchanged |
| `Handlers.RecordStore.UpdateManufacturer` | api.js:362-380 | the manufacturers and the response are those of `UpdateAction`; the other two collections are unchanged |
| `Handlers.RecordStore.UpdatePhone` | api.js:397-415 | the phones and the response are those of `UpdateAction`; the other two collections are unchanged |
| `Handlers.RecordStore.DeleteCarrier` | api.js:434-446 | the carriers and the response are those of `DeleteAction`; the other two collections are unchanged |
| `Handlers.RecordStore.DeleteManufacturer` | api.js:462-474 | the CARRIERS and the response are those of `DeleteAction` with the manufacturer messages; the manufacturers and the phones are unchanged |
| `Handlers.RecordStore.DeletePhone` | api.js:490-502 | the phones and the response are those of `DeleteAction`; the other two collections are unchanged |
| `Server.EffectiveKey` | server.js:52-55 | the header key when it is present and non-empty, otherwise the query key |
| `Server.Validate` | server.js:49-62 | any verb other than POST, DELETE or PUT passes whatever the keys; those three pass iff the effective key is "1234" |
| `Server.HeaderTakesPrecedence` | server.js:52-55 | with a non-empty header the query key makes no difference, and a write passes iff the header is "1234" |
| `Server.KeylessWriteRefused` | server.js:52-59 | a write with no usable header and no query key equal to "1234" is refused, in particular one with neither key |
| `Server.Pathname` | server.js:138 | the part of the URL the route is matched against: the longest prefix of the URL free of '?' and '#' |
| `Server.PathnameEndsAt` | server.js:138 | the pathname is exactly the prefix up to the first '?' or '#' |
| `Server.DocsRouteMatches` | server.js:138 | the pattern `^\/docs(\/.*)?$`: exactly `/docs`, or `/docs/` followed by characters none of which is a line terminator; every match starts with `/docs` followed by nothing or by '/' |
| `Server.FragmentAndVerbRouting` | server.js:138-146 | `/docs#top` and `/docs?x=1` are routed and forwarded as `#top` and `?x=1`; a POST or PUT to a docs path never reaches the route |
| `Server.NearMissesNotRouted` | server.js:138 | `/docsx`, `/doc` and a path with a line break after `/docs/` are not routed; `/docs/` and `/docs/index.html` are |
| `Server.Substr` | server.js:145 | `substr(start)`: the URL is its first `start` characters followed by the result, and the result is empty past the end |
| `Server.StripDocs` | server.js:145-146 | for a routed URL other than `/docs`, `/docs` followed by the result is the URL; the result is non-empty and starts with '/', or with '?' or '#' exactly when the path is `/docs` |
| `Server.Exchange.RouteDocs` | server.js:138-147 | a request that is not a GET or HEAD, or whose path does not match, is passed on untouched; a GET or HEAD of URL `/docs` is answered 302 with Location `/docs/` and ended, not served; any other match is served with the prefix stripped, nothing written; nothing else changes |
| `Service.Verb` | server.js:84-101 | list and get-by-id routes are registered as GET, the others with a verb the gate inspects |
| `Service.Admitted` | server.js:48-62 | the gate applied to a request: GET routes always pass; create, update and delete routes pass iff the header `api_key`, or failing that the query `api_key`, is "1234" |
| `Service.Writes` | server.js:83-101 | GET routes write to no collection; each POST, PUT and DELETE route names the one collection it may change |
| `Service.Dispatch` | server.js:83-101 | an admitted request changes only the collection its route writes to, keeps every collection of its own model and keeps stored names non-empty |
| `Service.Step` | server.js:49-62 | a request refused by the gate leaves the store unchanged; an admitted one is dispatched |
| `Service.Run` | server.js:83-101 | a sequence of requests yields one outcome per request, the first being that of the first request's step on the initial store |
| `Service.RunHead` | server.js:83-101 | the first request of a sequence is handled first, on the initial store, and the rest run on its result |
| `Service.RunKeepsValid` | api.js:238 | over any sequence of requests, every collection holds only documents of its own model (including after the manufacturer delete, which hits carriers) |
| `Service.RunKeepsNames` | api.js:234 | names are checked before they are stored (api.js:331 for updates), so a store whose names are non-empty keeps them so |
| `Service.RunKeepsUntouched` | api.js:440 | a collection no request of the sequence writes to ends as it began |
| `Service.ManufacturerDeletesSpareManufacturers` | api.js:468-471 | any sequence of deleteManufacturer requests leaves the manufacturers and the phones unchanged |
| `Service.ReadsChangeNothing` | api.js:154-164 | any sequence of GET requests leaves the whole store unchanged |
| `Service.RefusedChangeNothing` | server.js:56-59 | requests the gate refuses leave the store unchanged and are all answered Refused |
| `Service.KeysComeFromStore` | api.js:238 | every id stored after a sequence was stored before or assigned by the store to a create on that collection; a client-supplied id never becomes a key |
| `Service.CreateThenGet` | api.js:238-245 | an admitted, successful create followed by a get of the assigned id gives 200 with the submitted name |
| `Service.DeleteThenGet` | api.js:440-443 | on the carrier and phone routes, an admitted successful delete followed by a get of its id answers 404 'not found' |
| `Service.ManufacturerFoundAfterDelete` | api.js:468-471 | an admitted deleteManufacturer of a stored manufacturer answers `{msg:'ok'}`, and a get of that id (api.js:181) still answers 200 with the manufacturer: the delete round trip fails on that route |
| `Service.DeleteManufacturerHitsCarriers` | api.js:462-474 | an admitted deleteManufacturer with an id and no store error answers `{msg:'ok'}` and removes that id from the carriers only |

## Left out

- Mongoose connection setup and its event logging (api.js:9-22): database I/O. The store is the three maps.
- The `spec` documentation objects of api.js, the Swagger registration calls and the API info (server.js:83-134): metadata for a library (`Common/node/swagger.js`) that is not part of this model. Only the route-to-action binding is kept, in `Service.Dispatch`.
- How swagger.js answers a request the gate refuses, and the status codes it gives thrown `swe.invalid` errors: that library is not part of this model. A refusal is the abstract `Refused`.
- The internals of `swe.invalid` and `swe.notFound`: foreign calls, kept as abstract constructors.
- Throttling (server.js:33-40): a third-party, time-based middleware.
- The `fs.readdir` loop that loads model definitions (server.js:67-79): file-system I/O with callbacks.
- Static file serving and `app.listen` (server.js:137, server.js:150): I/O. The route ends by setting `servedStatic`.
- ObjectId validation and other store-internal errors: abstracted as the `fault` and `Reply` parameters.
- The ObjectId cast of request ids: Mongoose casts a path or query id to an ObjectId before matching `_id`, and the cast ignores the case of the hex digits. The model compares ids as strings, so it assumes request ids arrive in the canonical lower-case form the store uses. An id in upper-case hex names a stored document in the service but is not found in the model.
- The schema files under `models/`: they only fix the document fields. Their unused numeric `id` path is not modelled.
- Concurrency between requests: requests are handled one after another.
- What happens to the Node process after the list actions throw inside a store callback. The exception escapes the callback uncaught and the process exits. `Service.Run` goes on to the next request on the unchanged store, which stands for a restarted process serving the same database.
- Request values that are not strings: JSON numbers or objects in a body, and repeated query keys that Express turns into arrays. Every field value is a string, so falsiness is emptiness.
- Whether the store changed on a `Vacant` create reply: the model assumes nothing was stored.
- Server.Pathname: assumes `req.url` starts with `/`. Node hands an absolute-form target such as `GET https://h/docs` to Express unchanged, and Express then matches its pathname `/docs`; the model takes the whole URL as the path, so it does not route such a request.
- Server.Exchange.RouteDocs: for the same reason passes on an absolute-form `GET https://h/docs`, which the service routes without a redirect and forwards as `://h/docs`.
- Api.ListAction: the listing is the collection as a map, so the order of the JSON array the store returns is not modelled.
- Api.UpdateAction: counts matched documents, as Mongo servers before 2.6 report. A server that counts only modified documents reports 0 when the name is unchanged, and the action then answers 500 'not updated'; the model does not capture that case.
