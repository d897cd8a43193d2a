/** The route table and its two guards (resources/js/App.jsx). */
module AppRoutes {
  import opened Common
  import AuthContext

  datatype Page = LoginPage | RegisterPage | Dashboard | DiaryEntry

  /** A path pattern segment: fixed text, or `:name`. */
  datatype Segment = Literal(text: string) | Param(name: string)

  datatype Guard = PublicRoute | PrivateRoute

  datatype Route = Route(pattern: seq<Segment>, guard: Guard, page: Page)

  /** What a guard renders: its child, or a `<Navigate>` to another path. */
  datatype Outcome = Child | RedirectTo(path: string)

  /** `PrivateRoute`: the child with a token, otherwise `/login`. */
  function Private(token: Option<string>): (r: Outcome)
    ensures r == Child <==> AuthContext.HasToken(token)
    ensures r != Child ==> r == RedirectTo("/login")
  {
    if AuthContext.HasToken(token) then Child else RedirectTo("/login")
  }

  /** `PublicRoute`: the child without a token, otherwise `/`. */
  function Public(token: Option<string>): (r: Outcome)
    ensures r == Child <==> !AuthContext.HasToken(token)
    ensures r != Child ==> r == RedirectTo("/")
  {
    if !AuthContext.HasToken(token) then Child else RedirectTo("/")
  }

  function Apply(guard: Guard, token: Option<string>): Outcome
  {
    match guard
    case PublicRoute => Public(token)
    case PrivateRoute => Private(token)
  }

  /** Whatever the token, exactly one of the two guards renders its child. */
  lemma ExactlyOneGuardRenders(token: Option<string>)
    ensures (Private(token) == Child) != (Public(token) == Child)
  {
  }

  /** The `<Routes>` table, in order; `/` is the empty segment list. */
  const Routes: seq<Route> := [
    Route([Literal("login")], PublicRoute, LoginPage),
    Route([Literal("register")], PublicRoute, RegisterPage),
    Route([], PrivateRoute, Dashboard),
    Route([Literal("entry"), Literal("new")], PrivateRoute, DiaryEntry),
    Route([Literal("entry"), Param("id")], PrivateRoute, DiaryEntry)
  ]

  /** Login and registration are public; the dashboard and the editor are
      private. */
  lemma GuardTable()
    ensures forall r :: r in Routes ==> (r.guard == PublicRoute <==> r.page == LoginPage || r.page == RegisterPage)
  {
  }

  /** A path (its segments) matches a pattern: same length, equal text where
      the pattern is fixed, a non-empty segment where it has a parameter. */
  predicate Matches(pattern: seq<Segment>, path: seq<string>)
  {
    |pattern| == |path|
    && forall i :: 0 <= i < |path| ==>
         (pattern[i].Literal? ==> path[i] == pattern[i].text) && (pattern[i].Param? ==> path[i] != "")
  }

  /** The router's ranking: a fixed segment outweighs a parameter. */
  function Score(pattern: seq<Segment>): nat
  {
    if pattern == [] then 0 else (if pattern[0].Literal? then 10 else 3) + Score(pattern[1..])
  }

  /** The best-ranked route of `routes` matching `path`, the earliest among
      equals. */
  function Best(routes: seq<Route>, path: seq<string>): (r: Option<Route>)
    ensures r.Some? ==> r.value in routes && Matches(r.value.pattern, path)
    ensures r.None? <==> forall q :: q in routes ==> !Matches(q.pattern, path)
    ensures r.Some? ==> forall q :: q in routes && Matches(q.pattern, path) ==> Score(q.pattern) <= Score(r.value.pattern)
  {
    if routes == [] then None
    else
      var rest := Best(routes[1..], path);
      if !Matches(routes[0].pattern, path) then rest
      else if rest.Some? && Score(rest.value.pattern) > Score(routes[0].pattern) then rest
      else Some(routes[0])
  }

  /** The route a path renders. */
  function Resolve(path: seq<string>): Option<Route>
  {
    Best(Routes, path)
  }

  /** `useParams()`: pattern parameters bound to the path's segments. */
  function Params(pattern: seq<Segment>, path: seq<string>): map<string, string>
    requires |pattern| == |path|
  {
    if pattern == [] then map[]
    else
      var rest := Params(pattern[1..], path[1..]);
      if pattern[0].Param? then rest[pattern[0].name := path[0]] else rest
  }

  /** `/entry/new` opens the editor on a new entry: no `id` parameter. */
  lemma NewEntryRoute()
    ensures Resolve(["entry", "new"]) == Some(Routes[3])
    ensures "id" !in Params(Routes[3].pattern, ["entry", "new"])
  {
    var path := ["entry", "new"];
    assert Matches(Routes[4].pattern, path);
    assert Best(Routes[4..], path) == Some(Routes[4]);
    assert Matches(Routes[3].pattern, path);
    assert Best(Routes[3..], path) == Some(Routes[3]);
    assert Best(Routes[2..], path) == Some(Routes[3]);
    assert Best(Routes[1..], path) == Some(Routes[3]);
  }

  /** `/entry/{id}` opens the editor on entry `id`. */
  lemma EntryIdRoute(id: string)
    requires id != "" && id != "new"
    ensures Resolve(["entry", id]) == Some(Routes[4])
    ensures Params(Routes[4].pattern, ["entry", id]) == map["id" := id]
  {
    var path := ["entry", id];
    assert Matches(Routes[4].pattern, path);
    assert Best(Routes[4..], path) == Some(Routes[4]);
    assert path[1] != Routes[3].pattern[1].text;
    assert Best(Routes[3..], path) == Some(Routes[4]);
    assert Best(Routes[2..], path) == Some(Routes[4]);
    assert Best(Routes[1..], path) == Some(Routes[4]);
    var p := Routes[4].pattern;
    assert Params(p[1..], path[1..]) == map["id" := id];
  }

  /** Every path of the table renders its page only through its guard: on a
      private page without a token the user is sent to `/login`, on a public
      page with a token to `/`. */
  lemma GuardedRendering(path: seq<string>, token: Option<string>)
    requires Resolve(path).Some?
    ensures var route := Resolve(path).value;
      && (route.guard == PrivateRoute && !AuthContext.HasToken(token) ==> Apply(route.guard, token) == RedirectTo("/login"))
      && (route.guard == PublicRoute && AuthContext.HasToken(token) ==> Apply(route.guard, token) == RedirectTo("/"))
      && (Apply(route.guard, token) == Child <==> (route.guard == PrivateRoute <==> AuthContext.HasToken(token)))
  {
  }
}
