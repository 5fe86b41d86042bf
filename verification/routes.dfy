/** The application's route table and its two guards: ProtectedRoute lets
    only a signed-in visitor through to the dashboard pages, PublicRoute
    sends a signed-in visitor away from the landing, login and register
    pages; every path the table does not know goes back to `/`. */
module Routes {
  import opened Base
  import Session

  const LandingPath := "/"
  const DashboardPath := "/dashboard"

  /** What a guard does: render the page it wraps, or redirect. */
  datatype Guarded = Child | Redirect(target: string)

  function ProtectedRoute(token: Option<string>): (g: Guarded)
    ensures g == Child <==> Session.UsableToken(token)
    ensures g != Child ==> g == Redirect(Session.LoginPath)
  {
    if token.None? || token.value == "" || token.value == "undefined" || token.value == "null" then
      Redirect(Session.LoginPath)
    else
      Child
  }

  function PublicRoute(token: Option<string>): (g: Guarded)
    ensures g == Child <==> !Session.UsableToken(token)
    ensures g != Child ==> g == Redirect(DashboardPath)
  {
    if token.Some? && token.value != "" && token.value != "undefined" && token.value != "null" then
      Redirect(DashboardPath)
    else
      Child
  }

  /** For every stored token exactly one of the two guards renders its page. */
  lemma GuardsAreComplementary(token: Option<string>)
    ensures (ProtectedRoute(token) == Child) != (PublicRoute(token) == Child)
  {
  }

  // ---------------------------------------------------------------- paths

  /** Number of characters before the first `/`. */
  function SegmentLength(p: string): (n: nat)
    ensures n <= |p|
    ensures forall i :: 0 <= i < n ==> p[i] != '/'
    ensures n < |p| ==> p[n] == '/'
    decreases |p|
  {
    if p == [] || p[0] == '/' then 0 else 1 + SegmentLength(p[1..])
  }

  /** The non-empty `/`-separated segments of a path, in order; repeated and
      trailing slashes separate nothing. */
  function Segments(p: string): (segs: seq<string>)
    ensures forall k :: 0 <= k < |segs| ==> segs[k] != "" && '/' !in segs[k]
    decreases |p|
  {
    if p == [] then []
    else if p[0] == '/' then Segments(p[1..])
    else
      var n := SegmentLength(p);
      [p[..n]] + Segments(p[n..])
  }

  lemma SegmentsAfterSlash(rest: string)
    ensures Segments("/" + rest) == Segments(rest)
  {
    assert ("/" + rest)[1..] == rest;
  }

  lemma {:induction false} SegmentLengthOfWord(w: string, rest: string)
    requires '/' !in w
    requires rest == [] || rest[0] == '/'
    ensures SegmentLength(w + rest) == |w|
    decreases |w|
  {
    if w != [] {
      assert (w + rest)[0] == w[0];
      assert (w + rest)[1..] == w[1..] + rest;
      SegmentLengthOfWord(w[1..], rest);
    }
  }

  /** A slash-free word followed by a slash or by nothing is one segment. */
  lemma SegmentsOfWord(w: string, rest: string)
    requires w != [] && '/' !in w
    requires rest == [] || rest[0] == '/'
    ensures Segments(w + rest) == [w] + Segments(rest)
  {
    SegmentLengthOfWord(w, rest);
    assert (w + rest)[0] == w[0];
    assert (w + rest)[..|w|] == w;
    assert (w + rest)[|w|..] == rest;
  }

  /** `/w` and `/w/rest` split into `w` then the segments of `rest`. */
  lemma SegmentsOfPrefix(w: string, rest: string)
    requires w != [] && '/' !in w
    ensures Segments("/" + w) == [w]
    ensures Segments("/" + w + "/" + rest) == [w] + Segments(rest)
  {
    SegmentsAfterSlash(w);
    SegmentsOfWord(w, []);
    assert w + [] == w;
    assert "/" + w + "/" + rest == "/" + (w + ("/" + rest));
    SegmentsAfterSlash(w + ("/" + rest));
    SegmentsOfWord(w, "/" + rest);
    SegmentsAfterSlash(rest);
  }

  // ---------------------------------------------------------------- table

  datatype Pattern = Literal(text: string) | Param
  datatype Page = Landing | Login | Register | WorkflowList | BuilderCreate | BuilderEdit | Run
  datatype Access = Public | Protected
  datatype Route = Route(pattern: seq<Pattern>, page: Page, access: Access)

  /** The routes, with the dashboard layout's children flattened under it. */
  const Table: seq<Route> := [
    Route([], Landing, Public),
    Route([Literal("login")], Login, Public),
    Route([Literal("register")], Register, Public),
    Route([Literal("dashboard")], WorkflowList, Protected),
    Route([Literal("dashboard"), Literal("create")], BuilderCreate, Protected),
    Route([Literal("dashboard"), Literal("edit"), Param], BuilderEdit, Protected),
    Route([Literal("dashboard"), Literal("run"), Param], Run, Protected)
  ]

  /** A pattern matches segments of the same number whose literals agree;
      a parameter matches any segment. */
  predicate Matches(pattern: seq<Pattern>, segs: seq<string>)
    decreases |pattern|
  {
    if pattern == [] then segs == []
    else
      segs != [] &&
      (pattern[0].Literal? ==> pattern[0].text == segs[0]) &&
      Matches(pattern[1..], segs[1..])
  }

  /** The first route whose pattern matches the segments. */
  function Lookup(table: seq<Route>, segs: seq<string>): (r: Option<Route>)
    ensures r.Some? ==> r.value in table && Matches(r.value.pattern, segs)
    ensures r.None? <==> forall k :: 0 <= k < |table| ==> !Matches(table[k].pattern, segs)
    decreases |table|
  {
    if table == [] then None
    else if Matches(table[0].pattern, segs) then Some(table[0])
    else Lookup(table[1..], segs)
  }

  /** The segments a pattern's parameters capture, in order. */
  function Params(pattern: seq<Pattern>, segs: seq<string>): seq<string>
    decreases |pattern|
  {
    if pattern == [] || segs == [] then []
    else (if pattern[0].Param? then [segs[0]] else []) + Params(pattern[1..], segs[1..])
  }

  /** What visiting a path shows: a page with its route parameters, or a
      redirect. */
  datatype Outcome = Render(page: Page, params: seq<string>) | Navigate(to: string)

  /** The route a path selects, if any. */
  function RouteOf(path: string): (r: Option<Route>)
    ensures r.Some? ==> r.value in Table && Matches(r.value.pattern, Segments(path))
  {
    Lookup(Table, Segments(path))
  }

  function Resolve(path: string, token: Option<string>): (o: Outcome)
    ensures RouteOf(path).None? ==> o == Navigate(LandingPath)
    ensures RouteOf(path).Some? && RouteOf(path).value.access == Public ==>
              (o.Navigate? <==> Session.UsableToken(token)) &&
              (o.Navigate? ==> o.to == DashboardPath)
    ensures RouteOf(path).Some? && RouteOf(path).value.access == Protected ==>
              (o.Navigate? <==> !Session.UsableToken(token)) &&
              (o.Navigate? ==> o.to == Session.LoginPath)
    ensures o.Render? ==> RouteOf(path).Some? && o.page == RouteOf(path).value.page
    ensures o.Navigate? ==> o.to in {LandingPath, Session.LoginPath, DashboardPath}
  {
    var segs := Segments(path);
    match Lookup(Table, segs)
    case None => Navigate(LandingPath)
    case Some(r) =>
      var g := if r.access == Public then PublicRoute(token) else ProtectedRoute(token);
      if g == Child then Render(r.page, Params(r.pattern, segs)) else Navigate(g.target)
  }

  // ---------------------------------------------------------------- lemmas

  lemma SegmentsOfTwo(a: string, b: string)
    requires a != [] && '/' !in a && b != [] && '/' !in b
    ensures Segments("/" + a + "/" + b) == [a, b]
  {
    SegmentsOfPrefix(a, b);
    SegmentsOfWord(b, []);
    assert b + [] == b;
  }

  lemma SegmentsOfThree(a: string, b: string, c: string)
    requires a != [] && '/' !in a && b != [] && '/' !in b && c != [] && '/' !in c
    ensures Segments("/" + a + "/" + b + "/" + c) == [a, b, c]
  {
    assert "/" + a + "/" + b + "/" + c == "/" + a + "/" + (b + ("/" + c));
    SegmentsOfPrefix(a, b + ("/" + c));
    SegmentsOfWord(b, "/" + c);
    SegmentsOfPrefix(c, []);
  }

  /** Lookup returns the first route that matches. */
  lemma {:induction false} LookupFindsFirst(table: seq<Route>, segs: seq<string>, k: nat)
    requires k < |table| && Matches(table[k].pattern, segs)
    requires forall j :: 0 <= j < k ==> !Matches(table[j].pattern, segs)
    ensures Lookup(table, segs) == Some(table[k])
    decreases k
  {
    if k > 0 {
      assert !Matches(table[0].pattern, segs);
      forall j | 0 <= j < k - 1 ensures !Matches(table[1..][j].pattern, segs) {
        assert table[1..][j] == table[j + 1];
      }
      LookupFindsFirst(table[1..], segs, k - 1);
    }
  }

  // The route each known path selects. Every fact about one literal path
  // has a lemma of its own: the solver then unfolds one path at a time.

  lemma SegmentsOfLanding()
    ensures Segments(LandingPath) == []
  {
    SegmentsAfterSlash([]);
  }

  lemma LookupLanding()
    ensures Lookup(Table, []) == Some(Table[0])
  {
    LookupFindsFirst(Table, [], 0);
  }

  lemma RouteOfLanding()
    ensures RouteOf(LandingPath) == Some(Route([], Landing, Public))
  {
    SegmentsOfLanding();
    LookupLanding();
  }

  lemma SegmentsOfLogin()
    ensures Segments(Session.LoginPath) == ["login"]
  {
    assert Session.LoginPath == "/" + "login";
    SegmentsOfPrefix("login", []);
  }

  lemma LookupLogin()
    ensures Lookup(Table, ["login"]) == Some(Table[1])
  {
    LookupFindsFirst(Table, ["login"], 1);
  }

  lemma RouteOfLogin()
    ensures RouteOf(Session.LoginPath) == Some(Route([Literal("login")], Login, Public))
  {
    SegmentsOfLogin();
    LookupLogin();
  }

  lemma SegmentsOfRegister()
    ensures Segments("/register") == ["register"]
  {
    assert "/register" == "/" + "register";
    SegmentsOfPrefix("register", []);
  }

  lemma LookupRegister()
    ensures Lookup(Table, ["register"]) == Some(Table[2])
  {
    LookupFindsFirst(Table, ["register"], 2);
  }

  lemma RouteOfRegister()
    ensures RouteOf("/register") == Some(Route([Literal("register")], Register, Public))
  {
    SegmentsOfRegister();
    LookupRegister();
  }

  lemma SegmentsOfDashboard()
    ensures Segments(DashboardPath) == ["dashboard"]
  {
    assert DashboardPath == "/" + "dashboard";
    SegmentsOfPrefix("dashboard", []);
  }

  lemma LookupDashboard()
    ensures Lookup(Table, ["dashboard"]) == Some(Table[3])
  {
    LookupFindsFirst(Table, ["dashboard"], 3);
  }

  lemma RouteOfDashboard()
    ensures RouteOf(DashboardPath) == Some(Route([Literal("dashboard")], WorkflowList, Protected))
  {
    SegmentsOfDashboard();
    LookupDashboard();
  }

  lemma SegmentsOfCreate()
    ensures Segments("/dashboard/create") == ["dashboard", "create"]
  {
    assert "/dashboard/create" == "/" + "dashboard" + "/" + "create";
    SegmentsOfTwo("dashboard", "create");
  }

  lemma LookupCreate()
    ensures Lookup(Table, ["dashboard", "create"]) == Some(Table[4])
  {
    LookupFindsFirst(Table, ["dashboard", "create"], 4);
  }

  lemma RouteOfCreate()
    ensures RouteOf("/dashboard/create") == Some(Route([Literal("dashboard"), Literal("create")], BuilderCreate, Protected))
  {
    SegmentsOfCreate();
    LookupCreate();
  }

  /** The two parameterised dashboard pages, `edit/:id` and `run/:id`. */
  lemma SegmentsOfDashboardChild(child: string, id: string)
    requires child != "" && '/' !in child && id != "" && '/' !in id
    ensures Segments("/dashboard/" + child + "/" + id) == ["dashboard", child, id]
  {
    assert "/dashboard/" + child + "/" + id == "/" + "dashboard" + "/" + child + "/" + id;
    SegmentsOfThree("dashboard", child, id);
  }

  lemma LookupEdit(id: string)
    ensures Lookup(Table, ["dashboard", "edit", id]) == Some(Table[5])
  {
    LookupFindsFirst(Table, ["dashboard", "edit", id], 5);
  }

  lemma RouteOfEdit(id: string)
    requires id != "" && '/' !in id
    ensures Segments("/dashboard/edit/" + id) == ["dashboard", "edit", id]
    ensures RouteOf("/dashboard/edit/" + id) == Some(Route([Literal("dashboard"), Literal("edit"), Param], BuilderEdit, Protected))
  {
    assert "/dashboard/edit/" + id == "/dashboard/" + "edit" + "/" + id;
    SegmentsOfDashboardChild("edit", id);
    LookupEdit(id);
  }

  lemma LookupRun(id: string)
    ensures Lookup(Table, ["dashboard", "run", id]) == Some(Table[6])
  {
    LookupFindsFirst(Table, ["dashboard", "run", id], 6);
  }

  lemma RouteOfRun(id: string)
    requires id != "" && '/' !in id
    ensures Segments("/dashboard/run/" + id) == ["dashboard", "run", id]
    ensures RouteOf("/dashboard/run/" + id) == Some(Route([Literal("dashboard"), Literal("run"), Param], Run, Protected))
  {
    assert "/dashboard/run/" + id == "/dashboard/" + "run" + "/" + id;
    SegmentsOfDashboardChild("run", id);
    LookupRun(id);
  }

  /** The route table: `/`, `/login` and `/register` are public pages;
      `/dashboard`, `/dashboard/create`, `/dashboard/edit/:id` and
      `/dashboard/run/:id` are protected ones. */
  lemma RouteTable(id: string)
    requires id != "" && '/' !in id
    ensures RouteOf(LandingPath) == Some(Route([], Landing, Public))
    ensures RouteOf(Session.LoginPath) == Some(Route([Literal("login")], Login, Public))
    ensures RouteOf("/register") == Some(Route([Literal("register")], Register, Public))
    ensures RouteOf(DashboardPath) == Some(Route([Literal("dashboard")], WorkflowList, Protected))
    ensures RouteOf("/dashboard/create") == Some(Route([Literal("dashboard"), Literal("create")], BuilderCreate, Protected))
    ensures RouteOf("/dashboard/edit/" + id) == Some(Route([Literal("dashboard"), Literal("edit"), Param], BuilderEdit, Protected))
    ensures RouteOf("/dashboard/run/" + id) == Some(Route([Literal("dashboard"), Literal("run"), Param], Run, Protected))
  {
    RouteOfLanding();
    RouteOfLogin();
    RouteOfRegister();
    RouteOfDashboard();
    RouteOfCreate();
    RouteOfEdit(id);
    RouteOfRun(id);
  }

  lemma ProtectedRenders(path: string, token: Option<string>, r: Route)
    requires RouteOf(path) == Some(r) && r.access == Protected && Session.UsableToken(token)
    ensures Resolve(path, token) == Render(r.page, Params(r.pattern, Segments(path)))
  {
  }

  lemma ParamOfThird(a: string, b: string, x: string, y: string, z: string)
    ensures Params([Literal(a), Literal(b), Param], [x, y, z]) == [z]
  {
    assert Params([Param], [z]) == [z] + Params([], []);
  }

  /** A signed-in visitor on `/dashboard/edit/<id>` gets the builder with
      `<id>` as its one route parameter. */
  lemma EditPageReceivesId(id: string, token: Option<string>)
    requires id != "" && '/' !in id && Session.UsableToken(token)
    ensures Resolve("/dashboard/edit/" + id, token) == Render(BuilderEdit, [id])
  {
    var path := "/dashboard/edit/" + id;
    RouteOfEdit(id);
    ProtectedRenders(path, token, Route([Literal("dashboard"), Literal("edit"), Param], BuilderEdit, Protected));
    ParamOfThird("dashboard", "edit", "dashboard", "edit", id);
  }

  /** A signed-in visitor on `/dashboard/run/<id>` gets the run page with
      `<id>` as its one route parameter, the `id` it reads with `useParams`. */
  lemma RunPageReceivesId(id: string, token: Option<string>)
    requires id != "" && '/' !in id && Session.UsableToken(token)
    ensures Resolve("/dashboard/run/" + id, token) == Render(Run, [id])
  {
    var path := "/dashboard/run/" + id;
    RouteOfRun(id);
    ProtectedRenders(path, token, Route([Literal("dashboard"), Literal("run"), Param], Run, Protected));
    ParamOfThird("dashboard", "run", "dashboard", "run", id);
  }

  /** A path whose first segment names no page falls to the catch-all and
      is sent back to `/`, whatever the token. */
  lemma UnknownPathsGoHome(path: string, token: Option<string>)
    requires Segments(path) != []
    requires Segments(path)[0] != "login" && Segments(path)[0] != "register" && Segments(path)[0] != "dashboard"
    ensures Resolve(path, token) == Navigate(LandingPath)
  {
    var segs := Segments(path);
    assert !Matches(Table[0].pattern, segs);
    assert !Matches(Table[1].pattern, segs);
    assert !Matches(Table[2].pattern, segs);
    assert !Matches(Table[3].pattern, segs);
    assert !Matches(Table[4].pattern, segs);
    assert !Matches(Table[5].pattern, segs);
    assert !Matches(Table[6].pattern, segs);
  }

  /** Following redirects from any path reaches a rendered page after at
      most two of them: the guards and the catch-all never loop. */
  lemma NavigationSettles(path: string, token: Option<string>)
    ensures var o := Resolve(path, token);
            o.Render? ||
            Resolve(o.to, token).Render? ||
            (Resolve(o.to, token).Navigate? && Resolve(Resolve(o.to, token).to, token).Render?)
  {
    RouteOfLanding();
    RouteOfLogin();
    RouteOfDashboard();
  }
}
