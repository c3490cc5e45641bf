# Meteor http-publish: the server-side REST adapter, modelled in Dafny

The package exposes a Meteor collection, or a named publish function, as REST
endpoints. `HTTP.publish` derives an access-point name: the API prefix
(default `/api/`) plus the collection name, or the name as given. It mounts
`GET`/`POST` on that name and `GET`/`PUT`/`DELETE` on `name/:id` (GET only
with a publish function; POST and the item route only for a collection), and records
the names in `_publishHTTP.currentlyPublished`. `HTTP.unpublish` removes them
again. Every answer is serialised by `formatResult`. It looks up the handler
for `?format=` (case-insensitive, `json` by default) in a table that
`HTTP.publishFormats` extends. An unknown or failing format gives status 500
and a raw error body.

The model follows the one source file, `http.publish.server.api.js`:

- `values.dfy` (`Values`): documents, results, cursors, collections, response
  metadata, format-handler entries.
- `lists.dfy` (`Lists`): underscore's `_.union` and `_.difference`, the two list
  operations the registry is built with.
- `routing.dfy` (`Routing`): how names are derived, which routes and verbs
  publish mounts, and what publish and unpublish do to the registry.
- `formats.dfy` (`Formats`): `formatResult`, `error`, the `json` handler and the
  `publishFormats` merge, as functions.
- `dispatch.dfy` (`Dispatch`): what each REST handler answers, as functions, and
  the item GET's scan of the cursor as a loop.
- `server.dfy` (`Server`): the imperative part. `Scope` is the handler's `this`,
  whose status and content type the code sets. `Publisher` holds
  `currentlyPublished`, `formatHandlers` and the routes mounted on the host
  router. Its methods follow the source statement by statement and are proved
  equal to the functions above.

Exceptions are values: a handler `Returned` a body or `Thrown` a message, and
`Publish` returns `Normal` or `Throws`. An empty string stands for JavaScript's
falsy or absent values: an `_id`, an API prefix, a name, a format. Nondeterministic
and foreign inputs are parameters: `Random.id()` (`freshId`), `EJSON.stringify`
(`stringify`), `collection.findOne` (`holds`), the collection's insert, update
and remove handlers, and the user's publish function (`ReadFn`). What
`getPublishScope` hands to a publish function is the `PublishScope` datatype,
which has room for the caller's id, the path parameters and the query and
nothing else, so the publish function cannot reach the status or the content
type.

Behaviour of the code worth noting:

- A successful answer does not set status 200. With a format handler that
  sets no status of its own, the status stays whatever the host had set.
  `formatResult` sets 500 for an unknown or failing format, and `error()` sets
  the code it is given; the list GET without a fetchable result is the only
  place that calls it with 200.
- Publishing under a plain name mounts no item route and no write verbs.
- Publish throws only for an empty name. A collection always yields a name,
  because the prefix is never empty.
- An item GET whose publish function returns no cursor throws (a `TypeError`
  from `forEach`). It does not answer with an empty result.
- The two GET handlers test the publish function's result differently. The
  list GET needs a `fetch` method, the item GET calls `forEach`. A plain array
  has `forEach` but no `fetch`, so it lists as `[]` with status 200 while its
  documents are still served on the item route.

## Model

| member | source | states |
|---|---|---|
| Lists.Union | http.publish.server.api.js:427 | the result has no repeats and holds exactly the elements of both lists; an old list without repeats is kept as it is, followed once each, in first-occurrence order, by the new elements it lacks; two lists without repeats give the old list plus the difference, and disjoint lists give their concatenation |
| Lists.AppendNewDifference | http.publish.server.api.js:427 | appending to a list adds exactly the elements it lacks, in their order of first occurrence |
| Lists.Difference | http.publish.server.api.js:164 | the result holds exactly the elements of the first list not in the second; it keeps having no repeats and is never longer |
| Lists.DifferenceConcat | http.publish.server.api.js:164 | removal distributes over concatenation, so what stays keeps its order |
| Lists.DifferenceDisjoint | http.publish.server.api.js:148-165 | removing names that are not there (in particular, none) leaves the list unchanged |
| Lists.DifferenceCovered | http.publish.server.api.js:193 | removing a list from itself (or from anything it covers) leaves nothing |
| Routing.ApiPrefix | http.publish.server.api.js:262 | the prefix is never empty: the given one if non-empty, else `/api/` |
| Routing.PublishName | http.publish.server.api.js:269 | a collection gives prefix plus collection name, which is never empty; a plain name is used as given |
| Routing.ItemPath | http.publish.server.api.js:321 | the item route differs from the access point and is four characters longer |
| Routing.RouteNames | http.publish.server.api.js:279-321 | publish creates the name first, then the item route only for a collection, without repeats |
| Routing.RouteTable | http.publish.server.api.js:279-421 | the access point serves GET iff a publish function is given and POST iff a collection; the item route exists only for a collection, always serves PUT and DELETE, and serves GET iff a publish function is given |
| Routing.UnpublishName | http.publish.server.api.js:178-184 | no argument gives the empty name, an argument gives the name publish derives for it |
| Routing.UnpublishNames | http.publish.server.api.js:186-194 | a non-empty name gives that name and its item route, an empty one gives every published name |
| Routing.Published | http.publish.server.api.js:427 | after publish the registry has no repeats and is the old registry followed, in creation order, by the route names it did not yet hold; route names new to it are simply appended |
| Routing.Unpublished | http.publish.server.api.js:178-196 | unpublish of a name removes exactly that name and its item route and keeps the other names in their order (it is the difference with those two names); with no or an empty name it leaves nothing |
| Routing.UnpublishAbsent | http.publish.server.api.js:186-189 | unpublishing a name when neither it nor its item route is published changes nothing |
| Routing.RepublishIdempotent | http.publish.server.api.js:427 | publishing the same item twice leaves the registry as publishing it once |
| Routing.UnpublishUndoesPublish | http.publish.server.api.js:178-196 | unpublishing an item just published, whose routes were not published before, restores the registry exactly |
| Formats.Lower | http.publish.server.api.js:75 | lower-casing keeps the length, leaves no upper-case letter and changes only upper-case letters |
| Formats.RequestedFormat | http.publish.server.api.js:75 | the requested format is never empty and has no upper-case letter; it is the lower-cased `format` query parameter, or `json` when that is absent or empty |
| Formats.UppercaseFormatUnreachable | http.publish.server.api.js:75-81 | a handler registered under a name with an upper-case letter is never selected |
| Formats.AfterHandler | http.publish.server.api.js:96 | a handler's own calls on the scope set the status and content type it chose, and leave the others |
| Formats.Formatted | http.publish.server.api.js:72-101 | throws, changing nothing, iff neither the requested format nor `json` has a function; an unknown format gives 500 and a body naming it, without running any handler; a returning handler's body and effects are kept; a throwing handler gives 500 and a body with the format and its message |
| Formats.UnknownFormatIgnoresResult | http.publish.server.api.js:89-92 | with no handler for the requested format, the response does not depend on the result: it is never serialised |
| Formats.ErrorResponse | http.publish.server.api.js:113-117 | the body and content type are those of formatting the message; the status ends equal to the given code even if formatting set 500; when formatting throws nothing is changed |
| Formats.JsonHandler | http.publish.server.api.js:56-61 | the default handler sets content type application/json and returns the serialised result |
| Formats.Extend | http.publish.server.api.js:218-220 | the merged table has the keys of both; every new name maps to its new entry and every other name keeps its entry |
| Formats.DefaultTableFormatsJson | http.publish.server.api.js:56-96 | with only the default table and no `format` parameter, the answer is the serialised result with content type application/json |
| Formats.RegisteredFormatIsUsed | http.publish.server.api.js:75-96 | after registering a format under a lower-case name, a request naming it in any case is answered with that handler's body and effects, when it returns |
| Formats.ExtendKeepsJson | http.publish.server.api.js:218-220 | merging keeps a working `json` handler unless the new table replaces it with a non-function |
| Dispatch.FirstMatch | http.publish.server.api.js:339-349 | none iff no document has the id; otherwise the document at the first position whose `_id` is the id |
| Dispatch.FirstMatchAppend | http.publish.server.api.js:343-349 | scanning one more document keeps an earlier match, else takes the new document if it matches |
| Dispatch.FindFirst | http.publish.server.api.js:343-349 | the `forEach` scan returns the first document in cursor order whose `_id` is the id |
| Dispatch.ListGetResponse | http.publish.server.api.js:283-299 | a result with `fetch` is answered as the formatted fetched list; anything else, a plain array included, as the formatted `[]` with status forced to 200 |
| Dispatch.ItemGetResponse | http.publish.server.api.js:326-370 | empty id: the 400 answer, whatever the publish function and collection; else, for a result with `forEach`, the first visible document with the id, or if none 401 when the collection holds the id and 404 otherwise; a result without `forEach` throws |
| Dispatch.ItemGetStatusCodes | http.publish.server.api.js:326-370 | with a well-behaved formatter: 400 for an empty id; status untouched when found; 401 when hidden; 404 when absent |
| Dispatch.PlainArrayListsEmptyButServesItems | http.publish.server.api.js:289-353 | a plain array (with `forEach`, without `fetch`) holding a document with the id lists as `[]` with status 200, yet the item GET answers that document |
| Dispatch.AssignedId | http.publish.server.api.js:307 | the client's `_id` when non-empty, else the generated one |
| Dispatch.Acknowledge | http.publish.server.api.js:309-317 | success answers the formatted `{_id}`; an error answers its message with its code as status |
| Dispatch.AcknowledgeStatusCodes | http.publish.server.api.js:309-317 | with a well-behaved formatter, success leaves the status as it was and failure sets the operation's error code |
| Dispatch.PostResponse | http.publish.server.api.js:304-318 | the document is inserted with its own non-empty `_id` or the generated one, and that id is answered; an insert error's code and message are passed through |
| Dispatch.PutResponse | http.publish.server.api.js:373-395 | empty id: the 400 answer whatever the update handler; else `{_id: id}` after a successful update, or the update error's code and message |
| Dispatch.DeleteResponse | http.publish.server.api.js:397-419 | empty id: the 400 answer whatever the remove handler; else `{_id: id}` after a successful remove, or the remove error's code and message |
| Server.Publisher.constructor | http.publish.server.api.js:20-61 | nothing published, no routes, and only the json handler in the format table |
| Server.Publisher.FormatResult | http.publish.server.api.js:72-101 | the scope's new metadata and the outcome are those of `Formatted` from the old metadata |
| Server.Publisher.Error | http.publish.server.api.js:113-117 | the scope's new metadata and the outcome are those of `ErrorResponse` |
| Server.Publisher.PublishFormats | http.publish.server.api.js:218-220 | the table becomes the additive merge of old and new entries; the registry invariant holds |
| Server.Publisher.Publish | http.publish.server.api.js:249-429 | an empty name throws and changes nothing; otherwise the registry becomes `Published` and the route table is mounted over the old routes, keeping the registry without repeats and equal to the mounted routes |
| Server.Publisher.UnpublishList | http.publish.server.api.js:148-165 | the registry loses exactly the given names, in order, and so do the mounted routes |
| Server.Publisher.Unpublish | http.publish.server.api.js:178-196 | the registry becomes `Unpublished`; with no or an empty name both registry and mounted routes end empty |
| Server.Publisher.HandleListGet | http.publish.server.api.js:283-299 | metadata and outcome are those of `ListGetResponse` |
| Server.Publisher.HandleItemGet | http.publish.server.api.js:326-370 | metadata and outcome are those of `ItemGetResponse` |
| Server.Publisher.Acknowledged | http.publish.server.api.js:309-317 | metadata and outcome are those of `Acknowledge`, including when the formatter throws inside the `try` |
| Server.Publisher.HandlePost | http.publish.server.api.js:304-318 | metadata and outcome are those of `PostResponse` |
| Server.Publisher.HandlePut | http.publish.server.api.js:373-395 | metadata and outcome are those of `PutResponse` |
| Server.Publisher.HandleDelete | http.publish.server.api.js:397-419 | metadata and outcome are those of `DeleteResponse` |

## Left out

- `HTTP.methods` (the host router) is modelled only as its effect on a map from route name to the verbs served. The handler closures it stores are the `Handle*` methods, which take the captured publish function and collection as parameters. Errors it may raise for an invalid name are not modelled.
- `getMethodHandler` is not part of this model: it reaches into Meteor internals. The insert, update and remove handlers are functions of the caller's user id. The two exceptions it can raise (not a collection; unsupported Meteor version) are not modelled. Authorization inside those handlers belongs to the host.
- `EJSON.stringify`, `Random.id()` and `collection.findOne` are parameters (`stringify`, `freshId`, `holds`).
- Format handlers see only the result, not the rest of the scope. Their effects are limited to setting the status and the content type.
- Formats.Lower: lower-cases ASCII letters only, not Unicode `toLowerCase`.
- The format table lookup sees only registered entries. JavaScript would also find inherited object properties such as `constructor`.
- `publish` tells a publish function from options by argument position. The model takes the item, the optional publish function and the API prefix as separate parameters.
- Documents are compared by string `_id` with `===`. Non-string ids such as ObjectIDs are not modelled, and neither are the contents of other fields or update modifiers.
- `err.error` is modelled as an optional number. String error codes are not modelled.
- Server.Publisher.HandleItemGet, HandlePut and HandleDelete require an `id` path parameter, which the host router always binds on `/:id` routes.
- Dispatch.ItemGetResponse: the message of the `TypeError` raised for a missing cursor is engine-specific. The model uses one fixed message.
- Unpublishing with a truthy non-string argument is not modelled.
- The test files are network-driven integration tests. They are not modelled.
- A publish function, `cursor.fetch`, `cursor.forEach` and `collection.findOne` are total in the model (`ReadFn`, `Cursor`, `holds`). An exception from any of them, which the source does not catch, is not modelled.
- Concurrency: there is none in this layer.
