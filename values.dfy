/**
 * The values the REST adapter passes around: documents, the results it hands
 * to the formatter, cursors returned by publish functions, the outcome of the
 * collection's own insert/update/remove handlers, and the response metadata
 * that handlers change through the request scope.
 */
module Values {
  import opened Wrappers

  /** A document. `id` is its `_id`; the empty string stands for an absent or
      otherwise falsy `_id`. The other fields are kept opaque. */
  datatype Document = Document(id: string, fields: map<string, string>)

  /** What a handler gives to the formatter. */
  datatype Value =
    | DocList(docs: seq<Document>)   // a fetched cursor, or the literal []
    | Doc(doc: Document)             // one document
    | IdOnly(id: string)             // { _id: id }
    | ErrorObject(error: string)     // { error: message }

  /**
   * What a publish function returns: nothing (a falsy value), or an object
   * holding `docs` that may have a `fetch` method, a `forEach` method, or
   * both. A Meteor cursor has both; a plain array has `forEach` only.
   */
  datatype Cursor = NoCursor | Cursor(docs: seq<Document>, hasFetch: bool, hasForEach: bool)
  {
    /** `cursor && cursor.fetch`: the test the list GET applies. */
    predicate Fetchable() {
      Cursor? && hasFetch
    }

    /** Whether `cursor.forEach(...)` can be called without a `TypeError`. */
    predicate Iterable() {
      Cursor? && hasForEach
    }
  }

  /** The restricted scope a publish function runs in. */
  datatype PublishScope = PublishScope(userId: Option<string>, params: map<string, string>, query: map<string, string>)

  /** A user publish function: restricted scope and request data to a cursor. */
  type ReadFn = (PublishScope, Document) -> Cursor

  /** Outcome of the collection's insert, update or remove handler: success, or
      an error carrying `err.error` (a status code, possibly absent) and `err.message`. */
  datatype OpResult = Done | Failed(error: Option<int>, message: string)

  /**
   * A collection handle: its `_name`, its insert, update and remove handlers
   * (called with the caller's user id), and `findOne({_id})` reduced to
   * whether a document with that id exists.
   */
  datatype Collection = Collection(
    name: string,
    insert: (Option<string>, Document) -> OpResult,
    update: (Option<string>, string, Document) -> OpResult,
    remove: (Option<string>, string) -> OpResult,
    holds: string -> bool)

  /** The first argument of publish and unpublish: an access-point name or a collection. */
  datatype Item = Named(name: string) | Coll(collection: Collection)

  /** The response metadata of a request scope. `status` is None when it was
      never set or was set to `undefined`. */
  datatype Meta = Meta(status: Option<int>, contentType: string)

  /** A handler either returns a body or throws an exception with a message. */
  datatype Outcome = Returned(body: string) | Thrown(message: string)

  /** Metadata after a handler ran, and what it returned or threw. */
  datatype Response = Response(meta: Meta, outcome: Outcome)

  /** What a format handler does when applied: the status code and content
      type it set on the scope (if any), and the body it returned or the
      message it threw. */
  datatype Rendering = Rendering(setStatus: Option<int>, setType: Option<string>, outcome: Outcome)

  /** An entry of the format-handler table: a function, or any other value
      (`typeof` is not 'function'). */
  datatype Entry = Function(render: Value -> Rendering) | NotFunction

  /** HTTP verbs a route can serve. */
  datatype Verb = Get | Post | Put | Delete

  /** How an administrative call ended. */
  datatype Completion = Normal | Throws(message: string)
}
