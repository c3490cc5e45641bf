/**
 * Route names and the registry of published names: how publish and unpublish
 * derive the access-point name, which routes and verbs publish hands to the
 * host's router, and what the two registry updates do together.
 */
module Routing {
  import opened Wrappers
  import opened Values
  import opened Lists

  const DefaultApiPrefix := "/api/"

  /** `options.apiPrefix || '/api/'`: an empty prefix falls back to the default. */
  function ApiPrefix(option: string): (p: string)
    ensures p != ""
    ensures option != "" ==> p == option
    ensures option == "" ==> p == DefaultApiPrefix
  {
    if option != "" then option else DefaultApiPrefix
  }

  /** The access-point name: the prefixed collection name, or the name as given. */
  function PublishName(item: Item, apiPrefix: string): (name: string)
    ensures item.Coll? ==> name == ApiPrefix(apiPrefix) + item.collection.name && name != ""
    ensures item.Named? ==> name == item.name
  {
    match item
    case Named(n) => n
    case Coll(c) => ApiPrefix(apiPrefix) + c.name
  }

  /** The item route mounted beside a collection's route. */
  function ItemPath(name: string): (path: string)
    ensures path != name && |path| == |name| + 4
  {
    name + "/:id"
  }

  /** The route names publish registers, in the order it creates them. */
  function RouteNames(item: Item, apiPrefix: string): (names: seq<string>)
    ensures NoDup(names)
    ensures |names| == if item.Coll? then 2 else 1
    ensures names[0] == PublishName(item, apiPrefix)
    ensures item.Coll? ==> names[1] == ItemPath(PublishName(item, apiPrefix))
  {
    var name := PublishName(item, apiPrefix);
    if item.Coll? then [name, ItemPath(name)] else [name]
  }

  /**
   * The routes and verbs publish hands to the host's router: the access point
   * serves GET exactly when a publish function is given and POST exactly for a
   * collection; the item route exists only for a collection and always serves
   * PUT and DELETE, and GET only with a publish function.
   */
  function RouteTable(item: Item, hasRead: bool, apiPrefix: string): (t: map<string, set<Verb>>)
    ensures t.Keys == Elems(RouteNames(item, apiPrefix))
    ensures var name := PublishName(item, apiPrefix);
      && name in t
      && (Get in t[name] <==> hasRead)
      && (Post in t[name] <==> item.Coll?)
      && Put !in t[name] && Delete !in t[name]
    ensures item.Coll? ==>
      var path := ItemPath(PublishName(item, apiPrefix));
      path in t && (Get in t[path] <==> hasRead) && Post !in t[path] && Put in t[path] && Delete in t[path]
  {
    var name := PublishName(item, apiPrefix);
    var base := (if hasRead then {Get} else {}) + (if item.Coll? then {Post} else {});
    if item.Coll? then
      map[name := base, ItemPath(name) := (if hasRead then {Get} else {}) + {Put, Delete}]
    else
      map[name := base]
  }

  /** The name unpublish derives: none without an argument, else as publish derives it. */
  function UnpublishName(target: Option<Item>, apiPrefix: string): (name: string)
    ensures target.None? ==> name == ""
    ensures target.Some? ==> name == PublishName(target.value, apiPrefix)
  {
    match target
    case None => ""
    case Some(item) => PublishName(item, apiPrefix)
  }

  /** The names unpublish passes on: a name and its item route, or (for an empty name) everything published. */
  function UnpublishNames(target: Option<Item>, apiPrefix: string, published: seq<string>): (names: seq<string>)
    ensures UnpublishName(target, apiPrefix) != "" ==>
      var name := UnpublishName(target, apiPrefix); names == [name, ItemPath(name)]
    ensures UnpublishName(target, apiPrefix) == "" ==> names == published
  {
    var name := UnpublishName(target, apiPrefix);
    if name != "" then [name, ItemPath(name)] else published
  }

  /** The registry after a successful publish. */
  function Published(published: seq<string>, item: Item, apiPrefix: string): (r: seq<string>)
    ensures NoDup(r)
    ensures Elems(r) == Elems(published) + Elems(RouteNames(item, apiPrefix))
    ensures NoDup(published) ==> |published| <= |r| && r[..|published|] == published
    ensures NoDup(published) ==> r == published + Difference(RouteNames(item, apiPrefix), published)
    ensures NoDup(published + RouteNames(item, apiPrefix)) ==> r == published + RouteNames(item, apiPrefix)
  {
    Union(published, RouteNames(item, apiPrefix))
  }

  /** The registry after unpublish. */
  function Unpublished(published: seq<string>, target: Option<Item>, apiPrefix: string): (r: seq<string>)
    ensures NoDup(published) ==> NoDup(r)
    ensures UnpublishName(target, apiPrefix) == "" ==> r == []
    ensures UnpublishName(target, apiPrefix) != "" ==>
      var name := UnpublishName(target, apiPrefix);
      forall x :: x in r <==> x in published && x != name && x != ItemPath(name)
    ensures UnpublishName(target, apiPrefix) != "" ==>
      var name := UnpublishName(target, apiPrefix); r == Difference(published, [name, ItemPath(name)])
  {
    var names := UnpublishNames(target, apiPrefix, published);
    var r := Difference(published, names);
    if UnpublishName(target, apiPrefix) == "" then
      DifferenceCovered(published, names);
      r
    else
      assert forall x :: x in r <==> x in Elems(r);
      r
  }

  /** Unpublishing a name when neither it nor its item route is published leaves the registry as it was. */
  lemma UnpublishAbsent(published: seq<string>, target: Option<Item>, apiPrefix: string)
    requires UnpublishName(target, apiPrefix) != ""
    requires UnpublishName(target, apiPrefix) !in published
    requires ItemPath(UnpublishName(target, apiPrefix)) !in published
    ensures Unpublished(published, target, apiPrefix) == published
  {
    DifferenceDisjoint(published, UnpublishNames(target, apiPrefix, published));
  }

  /** Publishing the same item twice leaves the registry as publishing it once. */
  lemma RepublishIdempotent(published: seq<string>, item: Item, apiPrefix: string)
    ensures Published(Published(published, item, apiPrefix), item, apiPrefix) == Published(published, item, apiPrefix)
  {
    var once := Published(published, item, apiPrefix);
    var names := RouteNames(item, apiPrefix);
    calc {
      Published(once, item, apiPrefix);
      AppendNew([], once + names);
      { AppendNewConcat([], once, names); }
      AppendNew(AppendNew([], once), names);
      { AppendNewFresh([], once); assert [] + once == once; }
      AppendNew(once, names);
      { AppendNewKnown(once, names); }
      once;
    }
  }

  /**
   * Unpublishing what was just published restores the registry, when none of
   * its routes were published before: the new names were appended at the end
   * and are exactly the ones removed.
   */
  lemma UnpublishUndoesPublish(published: seq<string>, item: Item, apiPrefix: string)
    requires NoDup(published)
    requires PublishName(item, apiPrefix) != ""
    requires PublishName(item, apiPrefix) !in published
    requires ItemPath(PublishName(item, apiPrefix)) !in published
    ensures Unpublished(Published(published, item, apiPrefix), Some(item), apiPrefix) == published
  {
    var names := RouteNames(item, apiPrefix);
    var name := PublishName(item, apiPrefix);
    var removed := [name, ItemPath(name)];
    assert UnpublishNames(Some(item), apiPrefix, Published(published, item, apiPrefix)) == removed;
    assert Elems(names) <= Elems(removed);
    assert Elems(published) !! Elems(removed);
    assert Published(published, item, apiPrefix) == published + names by {
      NoDupConcat(published, names);
      AppendNewFresh([], published + names);
      assert [] + (published + names) == published + names;
    }
    DifferenceConcat(published, names, removed);
    DifferenceDisjoint(published, removed);
    DifferenceCovered(names, removed);
    assert published + [] == published;
  }
}
