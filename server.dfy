/**
 * The adapter's state and handlers as the server runs them: a request scope
 * whose status and content type the handlers set, and the publisher object
 * holding the registry of published names, the format-handler table and
 * (as an abstract model of the host router) the routes it has mounted.
 */
module Server {
  import opened Wrappers
  import opened Values
  import opened Lists
  import opened Routing
  import opened Formats
  import opened Dispatch

  /** The `this` of a REST handler: the request, and the response metadata it sets. */
  class Scope {
    const userId: Option<string>
    const params: map<string, string>
    const query: map<string, string>
    var statusCode: Option<int>
    var contentType: string

    constructor (userId: Option<string>, params: map<string, string>, query: map<string, string>, m: Meta)
      ensures this.userId == userId && this.params == params && this.query == query
      ensures Metadata() == m
    {
      this.userId, this.params, this.query := userId, params, query;
      statusCode, contentType := m.status, m.contentType;
    }

    function Metadata(): Meta
      reads this
    {
      Meta(statusCode, contentType)
    }

    method SetStatusCode(code: Option<int>)
      modifies this
      ensures Metadata() == old(Metadata()).(status := code)
    {
      statusCode := code;
    }

    method SetContentType(t: string)
      modifies this
      ensures Metadata() == old(Metadata()).(contentType := t)
    {
      contentType := t;
    }
  }

  /** `getPublishScope`: only the caller's id, the path parameters and the query reach a publish function. */
  function GetPublishScope(scope: Scope): PublishScope {
    PublishScope(scope.userId, scope.params, scope.query)
  }

  const PublishNameMissing := "HTTP.publish expected a collection or access point in first parametre"

  class Publisher {
    /** The names of every route this adapter has published, without repeats, in publication order. */
    var currentlyPublished: seq<string>
    /** The format-handler table. */
    var formatHandlers: map<string, Entry>
    /** The routes handed to the host router and the verbs each serves. */
    var routes: map<string, set<Verb>>

    ghost predicate Valid()
      reads this
    {
      NoDup(currentlyPublished) && routes.Keys == Elems(currentlyPublished)
    }

    /** A fresh adapter: nothing published, only the json handler, serialising with `stringify`. */
    constructor (stringify: Value -> string)
      ensures Valid()
      ensures currentlyPublished == [] && routes == map[]
      ensures formatHandlers == map[DefaultFormat := JsonHandler(stringify)]
    {
      currentlyPublished := [];
      formatHandlers := map[DefaultFormat := JsonHandler(stringify)];
      routes := map[];
    }

    /** `formatResult`: formats `result` in the requested format, setting the scope's metadata. */
    method FormatResult(result: Value, scope: Scope) returns (r: Outcome)
      modifies scope
      ensures Response(scope.Metadata(), r) == Formatted(formatHandlers, scope.query, result, old(scope.Metadata()))
    {
      var format := RequestedFormat(scope.query);
      var found := format in formatHandlers && formatHandlers[format].Function?;
      var key := if found then format else DefaultFormat;
      if !(key in formatHandlers && formatHandlers[key].Function?) {
        return Thrown(JsonHandlerMissing);
      }
      if !found {
        scope.SetStatusCode(Some(500));
        return Returned(NotFoundBody(format));
      }
      var rendering := formatHandlers[format].render(result);
      if rendering.setStatus.Some? {
        scope.SetStatusCode(rendering.setStatus);
      }
      if rendering.setType.Some? {
        scope.SetContentType(rendering.setType.value);
      }
      match rendering.outcome {
        case Returned(body) =>
          r := Returned(body);
        case Thrown(message) =>
          scope.SetStatusCode(Some(500));
          r := Returned(FailureBody(format, message));
      }
    }

    /** `error`: formats the message, then sets the status to `code`. */
    method Error(code: Option<int>, message: Value, scope: Scope) returns (r: Outcome)
      modifies scope
      ensures Response(scope.Metadata(), r) == ErrorResponse(formatHandlers, scope.query, code, message, old(scope.Metadata()))
    {
      r := FormatResult(message, scope);
      if r.Thrown? {
        return;
      }
      scope.SetStatusCode(code);
    }

    /** `publishFormats`: merges new entries into the format-handler table. */
    method PublishFormats(added: map<string, Entry>)
      requires Valid()
      modifies this`formatHandlers
      ensures Valid()
      ensures formatHandlers == Extend(old(formatHandlers), added)
    {
      formatHandlers := formatHandlers + added;
    }

    /**
     * `publish`: derives the name, builds the route table, mounts it and adds
     * its route names to the registry; throws, changing nothing, when the
     * name is empty.
     */
    method Publish(item: Item, read: Option<ReadFn>, apiPrefix: string) returns (c: Completion)
      requires Valid()
      modifies this`currentlyPublished, this`routes
      ensures Valid()
      ensures PublishName(item, apiPrefix) == "" ==>
        c == Throws(PublishNameMissing) && currentlyPublished == old(currentlyPublished) && routes == old(routes)
      ensures PublishName(item, apiPrefix) != "" ==>
        && c == Normal
        && currentlyPublished == Published(old(currentlyPublished), item, apiPrefix)
        && routes == old(routes) + RouteTable(item, read.Some?, apiPrefix)
    {
      var prefix := ApiPrefix(apiPrefix);
      var name := if item.Coll? then prefix + item.collection.name else item.name;
      if name == "" {
        return Throws(PublishNameMissing);
      }
      // The keys of the methods object, in the order they are created.
      var keys := [name];
      var methods: map<string, set<Verb>> := map[name := {}];
      if read.Some? {
        methods := methods[name := methods[name] + {Get}];
      }
      if item.Coll? {
        methods := methods[name := methods[name] + {Post}];
        var path := name + "/:id";
        keys := keys + [path];
        methods := methods[path := {}];
        if read.Some? {
          methods := methods[path := methods[path] + {Get}];
        }
        methods := methods[path := methods[path] + {Put}];
        methods := methods[path := methods[path] + {Delete}];
      }
      assert keys == RouteNames(item, apiPrefix);
      ghost var table := RouteTable(item, read.Some?, apiPrefix);
      assert methods.Keys == table.Keys;
      assert forall k | k in methods :: methods[k] == table[k];
      assert methods == table;
      routes := routes + methods;
      assert routes == old(routes) + table;
      currentlyPublished := Union(currentlyPublished, keys);
      c := Normal;
    }

    /** `unpublishList`: unmounts the given routes and drops them from the registry. */
    method UnpublishList(names: seq<string>)
      requires Valid()
      modifies this`currentlyPublished, this`routes
      ensures Valid()
      ensures currentlyPublished == Difference(old(currentlyPublished), names)
      ensures routes == old(routes) - Elems(names)
    {
      if |names| == 0 {
        assert Elems(names) == {};
        DifferenceDisjoint(currentlyPublished, names);
        assert routes - Elems(names) == routes;
        return;
      }
      var methods: map<string, bool> := map[];
      var i := 0;
      while i < |names|
        invariant 0 <= i <= |names|
        invariant methods.Keys == Elems(names[..i])
        invariant forall n | n in methods :: !methods[n]
        invariant unchanged(this)
      {
        ElemsConcat(names[..i], [names[i]]);
        assert names[..i + 1] == names[..i] + [names[i]];
        methods := methods[names[i] := false];
        i := i + 1;
      }
      assert names[..i] == names;
      routes := routes - methods.Keys;
      currentlyPublished := Difference(currentlyPublished, names);
    }

    /** `unpublish`: unmounts a name and its item route, or everything when no name is given. */
    method Unpublish(target: Option<Item>, apiPrefix: string)
      requires Valid()
      modifies this`currentlyPublished, this`routes
      ensures Valid()
      ensures currentlyPublished == Unpublished(old(currentlyPublished), target, apiPrefix)
      ensures routes == old(routes) - Elems(UnpublishNames(target, apiPrefix, old(currentlyPublished)))
      ensures UnpublishName(target, apiPrefix) == "" ==> currentlyPublished == [] && routes == map[]
    {
      var prefix := ApiPrefix(apiPrefix);
      var name := match target
        case Some(Coll(collection)) => prefix + collection.name
        case Some(Named(n)) => n
        case None => "";
      if name != "" {
        UnpublishList([name, name + "/:id"]);
      } else {
        UnpublishList(currentlyPublished);
      }
    }

    /** GET on the access point. */
    method HandleListGet(read: ReadFn, scope: Scope, data: Document) returns (r: Outcome)
      modifies scope
      ensures Response(scope.Metadata(), r)
           == ListGetResponse(formatHandlers, GetPublishScope(scope), data, read, old(scope.Metadata()))
    {
      var publishScope := GetPublishScope(scope);
      var cursor := read(publishScope, data);
      if cursor.Fetchable() {
        r := FormatResult(DocList(cursor.docs), scope);
      } else {
        r := Error(Some(200), DocList([]), scope);
      }
    }

    /** GET on the item route. */
    method HandleItemGet(read: ReadFn, collection: Collection, scope: Scope, data: Document) returns (r: Outcome)
      requires "id" in scope.params
      modifies scope
      ensures Response(scope.Metadata(), r)
           == ItemGetResponse(formatHandlers, GetPublishScope(scope), data, read, collection.holds, old(scope.Metadata()))
    {
      var mongoId := scope.params["id"];
      if mongoId != "" {
        var publishScope := GetPublishScope(scope);
        var cursor := read(publishScope, data);
        if !cursor.Iterable() {
          return Thrown(NotACursorMessage);
        }
        var result := FindFirst(cursor.docs, mongoId);
        if result.Some? {
          r := FormatResult(Doc(result.value), scope);
        } else {
          var found := collection.holds(mongoId);
          if found {
            r := Error(Some(401), ErrorObject(UnauthorizedMessage), scope);
          } else {
            r := Error(Some(404), ErrorObject(NotFoundMessage(mongoId)), scope);
          }
        }
      } else {
        r := Error(Some(400), ErrorObject(ExpectedIdMessage), scope);
      }
    }

    /**
     * Answers a completed insert, update or remove with `{_id: id}`. As in the
     * source, formatting runs inside the `try`, so an exception from the
     * formatter reaches the `catch` and `error` with no status code.
     */
    method Acknowledged(result: OpResult, id: string, scope: Scope) returns (r: Outcome)
      modifies scope
      ensures Response(scope.Metadata(), r) == Acknowledge(formatHandlers, scope.query, result, id, old(scope.Metadata()))
    {
      match result {
        case Done =>
          r := FormatResult(IdOnly(id), scope);
          if r.Thrown? {
            r := Error(None, ErrorObject(r.message), scope);
          }
        case Failed(code, message) =>
          r := Error(code, ErrorObject(message), scope);
      }
    }

    /** POST on the access point. */
    method HandlePost(collection: Collection, scope: Scope, data: Document, freshId: string) returns (r: Outcome)
      modifies scope
      ensures Response(scope.Metadata(), r)
           == PostResponse(formatHandlers, GetPublishScope(scope), data, freshId, collection.insert, old(scope.Metadata()))
    {
      var doc := data.(id := if data.id != "" then data.id else freshId);
      var result := collection.insert(scope.userId, doc);
      r := Acknowledged(result, doc.id, scope);
    }

    /** PUT on the item route. */
    method HandlePut(collection: Collection, scope: Scope, data: Document) returns (r: Outcome)
      requires "id" in scope.params
      modifies scope
      ensures Response(scope.Metadata(), r)
           == PutResponse(formatHandlers, GetPublishScope(scope), data, collection.update, old(scope.Metadata()))
    {
      var mongoId := scope.params["id"];
      if mongoId != "" {
        var result := collection.update(scope.userId, mongoId, data);
        r := Acknowledged(result, mongoId, scope);
      } else {
        r := Error(Some(400), ErrorObject(ExpectedIdMessage), scope);
      }
    }

    /** DELETE on the item route. */
    method HandleDelete(collection: Collection, scope: Scope) returns (r: Outcome)
      requires "id" in scope.params
      modifies scope
      ensures Response(scope.Metadata(), r)
           == DeleteResponse(formatHandlers, GetPublishScope(scope), collection.remove, old(scope.Metadata()))
    {
      var mongoId := scope.params["id"];
      if mongoId != "" {
        var result := collection.remove(scope.userId, mongoId);
        r := Acknowledged(result, mongoId, scope);
      } else {
        r := Error(Some(400), ErrorObject(ExpectedIdMessage), scope);
      }
    }
  }
}
