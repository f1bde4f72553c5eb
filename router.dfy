/** The router's route helper: from a route declaration it derives the key
    under which the route's access configuration is looked up, settles the
    route's access level, and builds the route object handed to the router.
    The lookup in the route configuration table is a parameter. */
module Router {
  import opened Records

  /** The entry the route configuration table holds for a key. */
  datatype RouteConfig<A> = RouteConfig(allow: Option<A>)

  /** Where a route sits: an index route, or a route with its own path. */
  datatype Location = IndexRoute | PathRoute(path: string)

  /** A page element wrapped in the loading boundary. */
  datatype Element<E> = Suspended(child: E)

  /** The data attached to a route for the access guard and the layout. */
  datatype Handle<A, M> = Handle(access: Option<A>, meta: map<string, M>)

  /** A route object as handed to the router. */
  datatype Route<E, A, M> = Route(
    at: Location,
    element: Option<Element<E>>,
    handle: Handle<A, M>,
    children: Option<seq<Route<E, A, M>>>)

  /** A route declaration as passed to the helper. `path` is `None` when no
      path is declared; for `element`, `access` and `children`, which the
      helper tests for truthiness, `None` stands for a property that is
      absent or falsy. `meta` holds every other property. */
  datatype RouteSpec<E, A, M> = RouteSpec(
    path: Option<string>,
    index: bool,
    element: Option<E>,
    access: Option<A>,
    children: Option<seq<Route<E, A, M>>>,
    meta: map<string, M>)

  predicate StartsWithSlash(path: string) {
    |path| > 0 && path[0] == '/'
  }

  /** `path.startsWith('/') ? path : '/' + path`. */
  function Normalize(path: string): (key: string)
    ensures StartsWithSlash(key)
    ensures StartsWithSlash(path) ==> key == path
    ensures !StartsWithSlash(path) ==> key == "/" + path
  {
    if StartsWithSlash(path) then path else "/" + path
  }

  /** Normalising a key that is already normalised leaves it unchanged. */
  lemma NormalizeIdempotent(path: string)
    ensures Normalize(Normalize(path)) == Normalize(path)
  {
  }

  /** A relative path and the same path with a leading '/' share one key. */
  lemma NormalizeForgetsLeadingSlash(path: string)
    requires !StartsWithSlash(path)
    ensures Normalize(path) == Normalize("/" + path)
  {
    assert StartsWithSlash("/" + path);
  }

  lemma NormalizeExamples()
    ensures Normalize("today") == "/today"
    ensures Normalize("/today") == "/today"
    ensures Normalize("list/:listId") == "/list/:listId"
  {
    assert StartsWithSlash("/today");
  }

  /** The key the route's configuration is looked up under: "/" for an index
      route, the normalised path otherwise. A route that is not an index
      route must have a path. */
  function ConfigPath<E, A, M>(spec: RouteSpec<E, A, M>): (key: string)
    requires spec.index || spec.path.Some?
    ensures spec.index ==> key == "/"
    ensures !spec.index ==> key == Normalize(spec.path.value)
    ensures StartsWithSlash(key) && Normalize(key) == key
  {
    if spec.index then "/" else Normalize(spec.path.value)
  }

  /** `access || config?.allow`: a given access wins; otherwise the
      configuration's `allow`, or nothing when there is no configuration. */
  function FinalAccess<A>(access: Option<A>, config: Option<RouteConfig<A>>): (final: Option<A>)
    ensures access.Some? ==> final == access
    ensures access.None? && config.Some? ==> final == config.value.allow
    ensures access.None? && config.None? ==> final.None?
  {
    if access.Some? then access
    else if config.Some? then config.value.allow
    else None
  }

  /** The route the helper builds. Index routes get no path; other routes
      keep the path as declared, not the normalised key. The element is
      wrapped when given, and children are attached only when there are some. */
  function CreateRoute<E, A, M>(spec: RouteSpec<E, A, M>, getRouteConfig: string -> Option<RouteConfig<A>>)
    : (route: Route<E, A, M>)
    requires spec.index || spec.path.Some?
    ensures spec.index ==> route.at == IndexRoute
    ensures !spec.index ==> route.at == PathRoute(spec.path.value)
    ensures route.element.Some? <==> spec.element.Some?
    ensures spec.element.Some? ==> route.element.value == Suspended(spec.element.value)
    ensures route.handle.access == FinalAccess(spec.access, getRouteConfig(ConfigPath(spec)))
    ensures route.handle.meta == spec.meta
    ensures route.children.Some? <==> spec.children.Some? && |spec.children.value| > 0
    ensures route.children.Some? ==> route.children == spec.children
  {
    var configPath := ConfigPath(spec);
    var config := getRouteConfig(configPath);
    var finalAccess := FinalAccess(spec.access, config);
    var route := Route(
      at := if spec.index then IndexRoute else PathRoute(spec.path.value),
      element := if spec.element.Some? then Some(Suspended(spec.element.value)) else None,
      handle := Handle(finalAccess, spec.meta),
      children := None);
    if spec.children.Some? && |spec.children.value| > 0 then
      route.(children := spec.children)
    else
      route
  }

  /** Two declarations of the same page, one with a leading '/' and one
      without, get the same access: they are looked up under one key. */
  lemma SameKeySameAccess<E, A, M>(
    a: RouteSpec<E, A, M>, b: RouteSpec<E, A, M>, getRouteConfig: string -> Option<RouteConfig<A>>)
    requires !a.index && !b.index && a.path.Some? && !StartsWithSlash(a.path.value)
    requires b.path == Some("/" + a.path.value)
    requires a.access == b.access
    ensures CreateRoute(a, getRouteConfig).handle.access == CreateRoute(b, getRouteConfig).handle.access
  {
    NormalizeForgetsLeadingSlash(a.path.value);
  }
}
