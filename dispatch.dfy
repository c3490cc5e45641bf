/**
 * What each REST handler answers, as functions of the request, the publish
 * function, the collection's operations and the metadata the handler starts
 * from; and the cursor scan the item GET performs.
 */
module Dispatch {
  import opened Wrappers
  import opened Values
  import opened Formats

  const ExpectedIdMessage := "Method expected a document id"
  const UnauthorizedMessage := "Unauthorized"
  /** The TypeError raised when the item GET calls `forEach` on something that is not a cursor. */
  const NotACursorMessage := "cursor.forEach is not a function"

  function NotFoundMessage(id: string): string {
    "Document with id " + id + " not found"
  }

  /** The first document in cursor order whose `_id` is `id`. */
  function FirstMatch(docs: seq<Document>, id: string): (r: Option<Document>)
    ensures r.None? <==> forall k | 0 <= k < |docs| :: docs[k].id != id
    ensures r.Some? ==> exists k | 0 <= k < |docs| :: docs[k] == r.value && docs[k].id == id
                          && forall j | 0 <= j < k :: docs[j].id != id
  {
    if docs == [] then None
    else if docs[0].id == id then Some(docs[0])
    else
      var r := FirstMatch(docs[1..], id);
      assert forall k | 1 <= k < |docs| :: docs[1..][k - 1] == docs[k];
      r
  }

  lemma {:induction false} FirstMatchAppend(docs: seq<Document>, d: Document, id: string)
    ensures FirstMatch(docs + [d], id)
         == if FirstMatch(docs, id).Some? then FirstMatch(docs, id)
            else if d.id == id then Some(d) else None
    decreases |docs|
  {
    if docs == [] {
      assert docs + [d] == [d];
    } else {
      assert (docs + [d])[0] == docs[0] && (docs + [d])[1..] == docs[1..] + [d];
      FirstMatchAppend(docs[1..], d, id);
    }
  }

  /** The item GET's `forEach` over the cursor: keeps the first document whose `_id` matches. */
  method FindFirst(docs: seq<Document>, id: string) returns (found: Option<Document>)
    ensures found == FirstMatch(docs, id)
  {
    found := None;
    var i := 0;
    while i < |docs|
      invariant 0 <= i <= |docs|
      invariant found == FirstMatch(docs[..i], id)
    {
      var doc := docs[i];
      if found.None? {
        if doc.id == id {
          found := Some(doc);
        }
      }
      FirstMatchAppend(docs[..i], doc, id);
      assert docs[..i + 1] == docs[..i] + [doc];
      i := i + 1;
    }
    assert docs[..i] == docs;
  }

  /**
   * GET on the access point: the fetched documents, formatted; when the
   * publish function returns nothing with a `fetch` method, the formatted
   * empty list with status 200 ("no results" is not an error).
   */
  function ListGetResponse(handlers: map<string, Entry>, ps: PublishScope, data: Document, read: ReadFn, m: Meta): (r: Response)
    ensures read(ps, data).Fetchable() ==> r == Formatted(handlers, ps.query, DocList(read(ps, data).docs), m)
    ensures !read(ps, data).Fetchable() ==> r == ErrorResponse(handlers, ps.query, Some(200), DocList([]), m)
    ensures !read(ps, data).Fetchable() && r.outcome.Returned? ==> r.meta.status == Some(200)
  {
    var cursor := read(ps, data);
    if cursor.Fetchable() then
      Formatted(handlers, ps.query, DocList(cursor.docs), m)
    else
      ErrorResponse(handlers, ps.query, Some(200), DocList([]), m)
  }

  /**
   * GET on the item route: 400 for an empty id, whatever the publish function
   * and the collection; otherwise the first visible document with that id;
   * if none is visible, 401 when the collection holds the id and 404 when it
   * does not. A publish function returning nothing with a `forEach` method
   * makes the handler throw.
   */
  function ItemGetResponse(handlers: map<string, Entry>, ps: PublishScope, data: Document, read: ReadFn, holds: string -> bool, m: Meta): (r: Response)
    requires "id" in ps.params
    ensures ps.params["id"] == "" ==>
      r == ErrorResponse(handlers, ps.query, Some(400), ErrorObject(ExpectedIdMessage), m)
    ensures ps.params["id"] != "" && !read(ps, data).Iterable() ==> r == Response(m, Thrown(NotACursorMessage))
    ensures var id := ps.params["id"]; var c := read(ps, data);
      id != "" && c.Iterable() && FirstMatch(c.docs, id).Some? ==>
        r == Formatted(handlers, ps.query, Doc(FirstMatch(c.docs, id).value), m)
    ensures var id := ps.params["id"]; var c := read(ps, data);
      id != "" && c.Iterable() && FirstMatch(c.docs, id).None? && holds(id) ==>
        r == ErrorResponse(handlers, ps.query, Some(401), ErrorObject(UnauthorizedMessage), m)
    ensures var id := ps.params["id"]; var c := read(ps, data);
      id != "" && c.Iterable() && FirstMatch(c.docs, id).None? && !holds(id) ==>
        r == ErrorResponse(handlers, ps.query, Some(404), ErrorObject(NotFoundMessage(id)), m)
  {
    var id := ps.params["id"];
    if id == "" then
      ErrorResponse(handlers, ps.query, Some(400), ErrorObject(ExpectedIdMessage), m)
    else
      var cursor := read(ps, data);
      if !cursor.Iterable() then
        Response(m, Thrown(NotACursorMessage))
      else
        match FirstMatch(cursor.docs, id)
        case Some(doc) => Formatted(handlers, ps.query, Doc(doc), m)
        case None =>
          if holds(id) then ErrorResponse(handlers, ps.query, Some(401), ErrorObject(UnauthorizedMessage), m)
          else ErrorResponse(handlers, ps.query, Some(404), ErrorObject(NotFoundMessage(id)), m)
  }

  /** `data._id || Random.id()`: the client's id when it is non-empty, else the generated one. */
  function AssignedId(data: Document, freshId: string): (id: string)
    ensures data.id != "" ==> id == data.id
    ensures data.id == "" ==> id == freshId
  {
    if data.id != "" then data.id else freshId
  }

  /** The answer to a call of the underlying operation that stored or touched document `id`. */
  function Acknowledge(handlers: map<string, Entry>, query: map<string, string>, result: OpResult, id: string, m: Meta): (r: Response)
    ensures result.Done? ==> r == Formatted(handlers, query, IdOnly(id), m)
    ensures result.Failed? ==> r == ErrorResponse(handlers, query, result.error, ErrorObject(result.message), m)
  {
    match result
    case Done => Formatted(handlers, query, IdOnly(id), m)
    case Failed(code, message) => ErrorResponse(handlers, query, code, ErrorObject(message), m)
  }

  /**
   * POST on the access point: the document is inserted with the client's `_id`,
   * or the generated one when that is empty, and the answer is `{_id}`; an
   * insert error's code becomes the status and its message the body.
   */
  function PostResponse(handlers: map<string, Entry>, ps: PublishScope, data: Document, freshId: string,
                        insert: (Option<string>, Document) -> OpResult, m: Meta): (r: Response)
    ensures var doc := data.(id := AssignedId(data, freshId));
      insert(ps.userId, doc).Done? ==> r == Formatted(handlers, ps.query, IdOnly(doc.id), m)
    ensures var doc := data.(id := AssignedId(data, freshId));
      insert(ps.userId, doc).Failed? ==>
        r == ErrorResponse(handlers, ps.query, insert(ps.userId, doc).error, ErrorObject(insert(ps.userId, doc).message), m)
  {
    var doc := data.(id := AssignedId(data, freshId));
    Acknowledge(handlers, ps.query, insert(ps.userId, doc), doc.id, m)
  }

  /**
   * PUT on the item route: 400 for an empty id, without calling update;
   * otherwise update `{_id: id}` with the request data and answer `{_id: id}`,
   * or pass an update error's code and message through.
   */
  function PutResponse(handlers: map<string, Entry>, ps: PublishScope, data: Document,
                       update: (Option<string>, string, Document) -> OpResult, m: Meta): (r: Response)
    requires "id" in ps.params
    ensures ps.params["id"] == "" ==>
      r == ErrorResponse(handlers, ps.query, Some(400), ErrorObject(ExpectedIdMessage), m)
    ensures var id := ps.params["id"];
      id != "" && update(ps.userId, id, data).Done? ==> r == Formatted(handlers, ps.query, IdOnly(id), m)
    ensures var id := ps.params["id"];
      id != "" && update(ps.userId, id, data).Failed? ==>
        r == ErrorResponse(handlers, ps.query, update(ps.userId, id, data).error, ErrorObject(update(ps.userId, id, data).message), m)
  {
    var id := ps.params["id"];
    if id == "" then ErrorResponse(handlers, ps.query, Some(400), ErrorObject(ExpectedIdMessage), m)
    else Acknowledge(handlers, ps.query, update(ps.userId, id, data), id, m)
  }

  /**
   * DELETE on the item route: 400 for an empty id, without calling remove;
   * otherwise remove `{_id: id}` and answer `{_id: id}`, or pass a remove
   * error's code and message through.
   */
  function DeleteResponse(handlers: map<string, Entry>, ps: PublishScope,
                          remove: (Option<string>, string) -> OpResult, m: Meta): (r: Response)
    requires "id" in ps.params
    ensures ps.params["id"] == "" ==>
      r == ErrorResponse(handlers, ps.query, Some(400), ErrorObject(ExpectedIdMessage), m)
    ensures var id := ps.params["id"];
      id != "" && remove(ps.userId, id).Done? ==> r == Formatted(handlers, ps.query, IdOnly(id), m)
    ensures var id := ps.params["id"];
      id != "" && remove(ps.userId, id).Failed? ==>
        r == ErrorResponse(handlers, ps.query, remove(ps.userId, id).error, ErrorObject(remove(ps.userId, id).message), m)
  {
    var id := ps.params["id"];
    if id == "" then ErrorResponse(handlers, ps.query, Some(400), ErrorObject(ExpectedIdMessage), m)
    else Acknowledge(handlers, ps.query, remove(ps.userId, id), id, m)
  }

  /**
   * The item GET's status codes, with a well-behaved formatter: 400 for an
   * empty id; for a result with `forEach`, the status left as it was when the document is
   * visible, else 401 when the collection holds the id, else 404.
   */
  lemma ItemGetStatusCodes(handlers: map<string, Entry>, ps: PublishScope, data: Document, read: ReadFn, holds: string -> bool, m: Meta)
    requires "id" in ps.params
    requires WellBehaved(handlers, ps.query)
    ensures var r := ItemGetResponse(handlers, ps, data, read, holds, m);
      ps.params["id"] == "" ==> r.outcome.Returned? && r.meta.status == Some(400)
    ensures var r := ItemGetResponse(handlers, ps, data, read, holds, m);
      var id := ps.params["id"]; var c := read(ps, data);
      id != "" && c.Iterable() ==>
        && r.outcome.Returned?
        && r.meta.status == if FirstMatch(c.docs, id).Some? then m.status
                            else if holds(id) then Some(401) else Some(404)
  {
  }

  /**
   * With a well-behaved formatter, a completed insert, update or remove
   * leaves the status as it was and answers `{_id}`; a failed one answers
   * with the operation's error code.
   */
  lemma AcknowledgeStatusCodes(handlers: map<string, Entry>, query: map<string, string>, result: OpResult, id: string, m: Meta)
    requires WellBehaved(handlers, query)
    ensures var r := Acknowledge(handlers, query, result, id, m);
      && r.outcome.Returned?
      && r.meta.status == if result.Done? then m.status else result.error
  {
  }

  /**
   * The two GET handlers test the publish function's result differently: a
   * plain array (with `forEach` but no `fetch`) lists as the empty list with
   * status 200, yet the item route finds a document in it.
   */
  lemma PlainArrayListsEmptyButServesItems(handlers: map<string, Entry>, ps: PublishScope, data: Document, read: ReadFn, holds: string -> bool, m: Meta)
    requires "id" in ps.params && ps.params["id"] != ""
    requires read(ps, data).Cursor? && read(ps, data).hasForEach && !read(ps, data).hasFetch
    requires exists d :: d in read(ps, data).docs && d.id == ps.params["id"]
    requires WellBehaved(handlers, ps.query)
    ensures ListGetResponse(handlers, ps, data, read, m).outcome == Formatted(handlers, ps.query, DocList([]), m).outcome
    ensures ListGetResponse(handlers, ps, data, read, m).meta.status == Some(200)
    ensures ItemGetResponse(handlers, ps, data, read, holds, m) == Formatted(handlers, ps.query, Doc(FirstMatch(read(ps, data).docs, ps.params["id"]).value), m)
    ensures FirstMatch(read(ps, data).docs, ps.params["id"]).value.id == ps.params["id"]
  {
  }
}
