/**
 * The behaviours http_test.go checks, stated on the ServeMux model: each
 * method builds a mux exactly as the test does, serves one request and
 * states the trace it yields.
 */
module MuxExamples {
  import opened Common
  import opened Text
  import opened NetHttp
  import opened Errors
  import opened Chains
  import opened Mux

  /** A node without groups is all of its own subtree, and mounting leaves its table as it was. */
  lemma LoneNode(f: Forest, n: ServeMux, tables: map<ServeMux, map<string, Entry>>)
    requires f.Tree() && n in f.nodes && f.kids[n] == map[] && n in tables
    ensures f.Sub(n) == {n}
    ensures Mounted(tables, f.kids, f.Sub(n))[n] == tables[n]
  {
    assert MountTable(map[]) == map[];
    assert tables[n] + map[] == tables[n];
  }

  /** The five marker middlewares of TestHandlerMiddleware. */
  const FiveMarkers: seq<Middleware> := [Marker(1), Marker(2), Marker(3), Marker(4), Marker(5)]

  /**
   * TestHandlerMiddleware: five node-level markers, registered by four
   * calls of Use, around a GET route. The markers are entered in
   * registration order and left in reverse, so they write "12345" and then
   * "-5-4-3-2-1"; the route's nil error and the chain's nil error each
   * reach the ErrHandler once.
   */
  method HandlerMiddleware() returns (trace: seq<Event>)
    ensures trace == Enters(FiveMarkers) + [Handled(0), ErrHandled(DefaultErrHandler, None)]
                     + Exits(FiveMarkers) + [ErrHandled(DefaultErrHandler, None)]
    ensures Render(trace) == "12345" + "-5-4-3-2-1"
  {
    var mux := FiveMarkerMux();
    trace := ServeAlone(mux, MethodGet, "/");
    MarkersServed(mux.forest, mux);
    RenderMarkers(trace);
  }

  /**
   * ServeHTTP on a master without groups: mounting registers nothing, so
   * the request meets the table the test built.
   */
  method ServeAlone(mux: ServeMux, verb: string, path: string) returns (trace: seq<Event>)
    requires mux.forest.Valid() && mux.forest.MountsOk() && mux in mux.forest.nodes && mux.forest.kids[mux] == map[]
    modifies mux`mounted, mux`table
    ensures mux.table == old(mux.table) && mux.mws == old(mux.mws) && mux.errHandler == old(mux.errHandler)
    ensures mux.groups == old(mux.groups) && mux.mounted == (old(mux.mounted) || mux.isMaster)
    ensures mux.forest.Valid() && mux.forest.MountsOk() && trace == Served(mux.forest, mux, verb, path)
  {
    ghost var f := mux.forest;
    ghost var T := Tables(f.Sub(mux));
    LoneNode(f, mux, T);
    trace := mux.ServeHTTP(verb, path);
    assert mux.table == T[mux];
  }

  /** The mux of TestHandlerMiddleware before it serves: the markers, then the route. */
  method FiveMarkerMux() returns (mux: ServeMux)
    ensures fresh(mux) && mux.forest.Valid() && mux.forest.MountsOk() && mux in mux.forest.nodes
    ensures mux.isMaster && !mux.mounted && mux.forest.kids[mux] == map[]
    ensures mux.mws == FiveMarkers && mux.errHandler == DefaultErrHandler
    ensures mux.table == map[RouteKey(MethodGet, "/") := Route(Nested([], Endpoint(0, None)))]
  {
    mux := new ServeMux();
    ghost var f := mux.forest;
    mux.Use([Marker(1)]);
    mux.Use([Marker(2)]);
    mux.Use([Marker(3)]);
    mux.Use([Marker(4), Marker(5)]);
    FiveRegistered();
    assert mux.mws == FiveMarkers;
    assert f.Valid() && f.MountsOk();
    mux.Get("/", Endpoint(0, None), []);
    assert mux.groups == map[] && f.kids[mux] == map[];
  }

  /** The four calls of Use append up to the five markers in order. */
  lemma FiveRegistered()
    ensures [] + [Marker(1)] + [Marker(2)] + [Marker(3)] + [Marker(4), Marker(5)] == FiveMarkers
  {
  }

  lemma RenderMarkers(trace: seq<Event>)
    requires trace == Enters(FiveMarkers) + [Handled(0), ErrHandled(DefaultErrHandler, None)]
                      + Exits(FiveMarkers) + [ErrHandled(DefaultErrHandler, None)]
    ensures Render(trace) == "12345" + "-5-4-3-2-1"
  {
    var a, b, c, d := Enters(FiveMarkers), [Handled(0), ErrHandled(DefaultErrHandler, None)],
                      Exits(FiveMarkers), [ErrHandled(DefaultErrHandler, None)];
    RenderFive();
    RenderAppend(a, b);
    assert Render(a + b) == "12345";
    RenderAppend(a + b, c);
    RenderAppend(a + b + c, d);
  }

  lemma MarkersServed(f: Forest, n: ServeMux)
    requires f.MountsOk() && n in f.nodes
    requires n.mws == FiveMarkers && n.errHandler == DefaultErrHandler
    requires n.table == map[RouteKey(MethodGet, "/") := Route(Nested([], Endpoint(0, None)))]
    ensures Served(f, n, MethodGet, "/") ==
              Enters(FiveMarkers) + [Handled(0), ErrHandled(DefaultErrHandler, None)] + Exits(FiveMarkers) + [ErrHandled(DefaultErrHandler, None)]
  {
    DispatchedRoute(f, n, MethodGet, "/", Endpoint(0, None));
    NodeChainOrder(f, n, MethodGet, "/");
    assert FirstGuard(n.mws) == None;
  }

  /** A marker with a one-digit id writes that digit on the way in, and '-' and the digit on the way out. */
  lemma MarkDigit(id: nat)
    requires id < 10
    ensures Mark(Enter(id)) == [DigitChar(id)] && Mark(Exit(id)) == ['-', DigitChar(id)]
  {
    assert Decimal(id) == [DigitChar(id)];
    assert "-" + [DigitChar(id)] == ['-', DigitChar(id)];
  }

  /** What the markers write on the way in and on the way out. */
  lemma RenderFive()
    ensures Render(Enters(FiveMarkers)) == "12345"
    ensures Render([Handled(0), ErrHandled(DefaultErrHandler, None)]) == ""
    ensures Render(Exits(FiveMarkers)) == "-5-4-3-2-1"
    ensures Render([ErrHandled(DefaultErrHandler, None)]) == ""
  {
    RenderEnters();
    RenderExits();
    RenderSilent([Handled(0), ErrHandled(DefaultErrHandler, None)]);
    RenderSilent([ErrHandled(DefaultErrHandler, None)]);
  }

  /** Only markers write to the buffer. */
  lemma {:induction false} RenderSilent(t: seq<Event>)
    requires forall i | 0 <= i < |t| :: !t[i].Enter? && !t[i].Exit?
    ensures Render(t) == ""
    decreases |t|
  {
    if t != [] {
      RenderSilent(t[1..]);
    }
  }

  lemma RenderEnters()
    ensures Render(Enters(FiveMarkers)) == "12345"
  {
    var t := [Enter(1), Enter(2), Enter(3), Enter(4), Enter(5)];
    assert Enters(FiveMarkers) == t;
    MarkDigit(1);
    MarkDigit(2);
    MarkDigit(3);
    MarkDigit(4);
    MarkDigit(5);
    assert Render(t[4..]) == "5";
    assert Render(t[3..]) == "45";
    assert Render(t[2..]) == "345";
    assert Render(t[1..]) == "2345";
  }

  lemma RenderExits()
    ensures Render(Exits(FiveMarkers)) == "-5-4-3-2-1"
  {
    var t := [Exit(5), Exit(4), Exit(3), Exit(2), Exit(1)];
    assert Exits(FiveMarkers) == t;
    MarkDigit(1);
    MarkDigit(2);
    MarkDigit(3);
    MarkDigit(4);
    MarkDigit(5);
    assert Render(t[4..]) == "-1";
    assert Render(t[3..]) == "-2-1";
    assert Render(t[2..]) == "-3-2-1";
    assert Render(t[1..]) == "-4-3-2-1";
  }

  /**
   * TestRouteMiddleware: two markers registered with the route itself
   * wrap only the handler: "12" on the way in, "-2-1" on the way out.
   */
  method RouteMiddleware() returns (trace: seq<Event>)
    ensures trace == [Enter(1), Enter(2), Handled(0), Exit(2), Exit(1)]
                     + [ErrHandled(DefaultErrHandler, None), ErrHandled(DefaultErrHandler, None)]
    ensures Render(trace) == "12" + "-2-1"
  {
    var mux := new ServeMux();
    mux.Get("/", Endpoint(0, None), [Marker(1), Marker(2)]);
    trace := ServeAlone(mux, MethodGet, "/");
    TwoMarkersServed(mux.forest, mux);
    RenderTwoMarkers();
  }

  lemma TwoMarkersServed(f: Forest, n: ServeMux)
    requires f.MountsOk() && n in f.nodes
    requires n.mws == [] && n.errHandler == DefaultErrHandler
    requires n.table == map[RouteKey(MethodGet, "/") := Route(Nested([Marker(1), Marker(2)], Endpoint(0, None)))]
    ensures Served(f, n, MethodGet, "/") == [Enter(1), Enter(2), Handled(0), Exit(2), Exit(1)]
                     + [ErrHandled(DefaultErrHandler, None), ErrHandled(DefaultErrHandler, None)]
  {
    RouteServed(f, n, MethodGet, "/", [Marker(1), Marker(2)], Endpoint(0, None));
    assert Enters([Marker(1), Marker(2)]) == [Enter(1), Enter(2)];
    assert Exits([Marker(1), Marker(2)]) == [Exit(2), Exit(1)];
  }

  lemma RenderTwoMarkers()
    ensures Render([Enter(1), Enter(2), Handled(0), Exit(2), Exit(1)]
                   + [ErrHandled(DefaultErrHandler, None), ErrHandled(DefaultErrHandler, None)]) == "12" + "-2-1"
  {
    var a := [Enter(1), Enter(2), Handled(0), Exit(2), Exit(1)];
    var b := [ErrHandled(DefaultErrHandler, None), ErrHandled(DefaultErrHandler, None)];
    MarkDigit(1);
    MarkDigit(2);
    RenderSilent(b);
    assert Render(a[4..]) == "-1";
    assert Render(a[3..]) == "-2-1";
    assert Render(a[2..]) == "-2-1";
    assert Render(a[1..]) == "2" + "-2-1";
    assert Render(a) == "12" + "-2-1";
    RenderAppend(a, b);
  }

  /**
   * TestErrorHandler: the handler's error goes to the ErrHandler once, from
   * the route's closure; ServeHTTP then calls the ErrHandler with nil.
   */
  method ErrorHandler(err: Err) returns (trace: seq<Event>)
    ensures trace == [Handled(0), ErrHandled(DefaultErrHandler, Some(err)), ErrHandled(DefaultErrHandler, None)]
  {
    var mux := new ServeMux();
    mux.Get("/", Endpoint(0, Some(err)), []);
    trace := ServeAlone(mux, MethodGet, "/");
    RouteServed(mux.forest, mux, MethodGet, "/", [], Endpoint(0, Some(err)));
  }

  /** Put as written, then a PUT request for its path: 405, the route is under GET. */
  method PutAsWritten() returns (trace: seq<Event>)
    ensures trace == [NotAllowed("/item"), ErrHandled(DefaultErrHandler, None)]
  {
    var mux := new ServeMux();
    mux.Put("/item", Endpoint(0, None), []);
    trace := ServeAlone(mux, MethodPut, "/item");
    PutOnGetRoute("/item", Route(Nested([], Endpoint(0, None))));
    NodeChainOrder(mux.forest, mux, MethodPut, "/item");
  }

  /** The corrected Put, then a PUT request for its path: the handler runs. */
  method PutServed() returns (trace: seq<Event>)
    ensures trace == [Handled(0), ErrHandled(DefaultErrHandler, None), ErrHandled(DefaultErrHandler, None)]
  {
    var mux := new ServeMux();
    mux.PutCorrected("/item", Endpoint(0, None), []);
    trace := ServeAlone(mux, MethodPut, "/item");
    RouteServed(mux.forest, mux, MethodPut, "/item", [], Endpoint(0, None));
  }

  /** A node with one group is itself plus that group's subtree. */
  lemma OneChild(f: Forest, n: ServeMux, p: string, c: ServeMux)
    requires f.Tree() && n in f.nodes && f.kids[n] == map[p := c]
    ensures c in f.nodes && f.Sub(n) == {n} + f.Sub(c)
  {
    assert p in f.kids[n];
    assert f.Sub(c) <= f.Sub(n);
  }

  /**
   * TestGroup: a route registered on a group of a group is served, once the
   * master has mounted its tree, at the path made of both prefixes and the
   * route. Each of the three nodes' ServeHTTP calls the ErrHandler with nil
   * after the route's closure has done so.
   */
  method Group() returns (trace: seq<Event>)
    ensures trace == [Handled(0), ErrHandled(DefaultErrHandler, None)] + [ErrHandled(DefaultErrHandler, None)]
                     + [ErrHandled(DefaultErrHandler, None)] + [ErrHandled(DefaultErrHandler, None)]
  {
    var mux, v1, auth := GroupTree();
    trace := ServeGroupTree(mux, v1, auth);
    GroupServed(mux.forest, mux, v1, auth);
  }

  /** The first request on TestGroup's tree: the master mounts "/v1/", which mounts "/auth/", then serves. */
  method ServeGroupTree(mux: ServeMux, v1: ServeMux, auth: ServeMux) returns (trace: seq<Event>)
    requires mux.forest.Valid() && mux.forest.MountsOk() && mux in mux.forest.nodes
    requires v1 in mux.forest.nodes && auth in mux.forest.nodes
    requires mux.isMaster && !mux.mounted
    requires mux.forest.kids[mux] == map["/v1/" := v1] && mux.forest.kids[v1] == map["/auth/" := auth]
    requires mux.forest.kids[auth] == map[]
    requires mux.table == map[] && v1.table == map[]
    modifies mux`mounted, mux`table, v1`table, auth`table
    ensures mux.forest.MountsOk()
    ensures mux.table == map["/v1/" := MountEntry("/v1/", v1)]
    ensures v1.table == map["/auth/" := MountEntry("/auth/", auth)]
    ensures auth.table == old(auth.table)
    ensures trace == Served(mux.forest, mux, MethodGet, "/v1/auth/user")
  {
    ghost var f := mux.forest;
    GroupSub(f, mux, v1, auth);
    ghost var T := Tables(f.Sub(mux));
    trace := mux.ServeHTTP(MethodGet, "/v1/auth/user");
    GroupTablesMounted(f, mux, v1, auth, T);
  }

  /** TestGroup's tree is the master, "/v1/" and "/auth/". */
  lemma GroupSub(f: Forest, mux: ServeMux, v1: ServeMux, auth: ServeMux)
    requires f.Tree() && mux in f.nodes && v1 in f.nodes && auth in f.nodes
    requires f.kids[mux] == map["/v1/" := v1] && f.kids[v1] == map["/auth/" := auth] && f.kids[auth] == map[]
    ensures f.Sub(mux) == {mux, v1, auth}
  {
    OneChild(f, mux, "/v1/", v1);
    OneChild(f, v1, "/auth/", auth);
    assert f.Sub(auth) == {auth};
  }

  /** The tree of TestGroup before it serves: master, "/v1/" below it, "/auth/" below that, the route on the last. */
  method GroupTree() returns (mux: ServeMux, v1: ServeMux, auth: ServeMux)
    ensures fresh(mux) && fresh(v1) && fresh(auth)
    ensures mux.forest.Valid() && mux.forest.MountsOk() && mux in mux.forest.nodes
    ensures v1 in mux.forest.nodes && auth in mux.forest.nodes
    ensures mux.isMaster && !mux.mounted
    ensures mux.forest.kids[mux] == map["/v1/" := v1] && mux.forest.kids[v1] == map["/auth/" := auth]
    ensures mux.forest.kids[auth] == map[]
    ensures mux.table == map[] && v1.table == map[]
    ensures auth.table == map[RouteKey(MethodGet, "/user") := Route(Nested([], Endpoint(0, None)))]
    ensures mux.mws == [] && v1.mws == [] && auth.mws == []
    ensures mux.errHandler == DefaultErrHandler && v1.errHandler == DefaultErrHandler && auth.errHandler == DefaultErrHandler
  {
    mux, v1, auth := NestedGroups();
    auth.Get("/user", Endpoint(0, None), []);
  }

  /** A new master, its group "/v1/", and that group's group "/auth/". */
  method NestedGroups() returns (mux: ServeMux, v1: ServeMux, auth: ServeMux)
    ensures fresh(mux) && fresh(v1) && fresh(auth)
    ensures mux.forest.Valid() && mux.forest.MountsOk() && mux in mux.forest.nodes
    ensures v1 in mux.forest.nodes && auth in mux.forest.nodes && auth.forest == mux.forest
    ensures auth != mux && auth != v1
    ensures mux.isMaster && !mux.mounted
    ensures mux.forest.kids[mux] == map["/v1/" := v1] && mux.forest.kids[v1] == map["/auth/" := auth]
    ensures mux.forest.kids[auth] == map[]
    ensures mux.table == map[] && v1.table == map[] && auth.table == map[]
    ensures mux.mws == [] && v1.mws == [] && auth.mws == []
    ensures mux.errHandler == DefaultErrHandler && v1.errHandler == DefaultErrHandler && auth.errHandler == DefaultErrHandler
  {
    mux := new ServeMux();
    v1 := mux.Group("/v1/");
    auth := v1.Group("/auth/");
  }

  /** After mounting, the master and "/v1/" each hold one subtree pattern, and the route is where it was. */
  lemma GroupTablesMounted(f: Forest, mux: ServeMux, v1: ServeMux, auth: ServeMux, T: map<ServeMux, map<string, Entry>>)
    requires f.Tree() && mux in f.nodes && v1 in f.nodes && auth in f.nodes
    requires f.kids[mux] == map["/v1/" := v1] && f.kids[v1] == map["/auth/" := auth] && f.kids[auth] == map[]
    requires T.Keys == {mux, v1, auth} && T[mux] == map[] && T[v1] == map[]
    requires Tables({mux, v1, auth}) == Mounted(T, f.kids, {mux, v1, auth})
    ensures mux.table == map["/v1/" := MountEntry("/v1/", v1)]
    ensures v1.table == map["/auth/" := MountEntry("/auth/", auth)]
    ensures auth.table == T[auth]
  {
    assert MountTable(map["/v1/" := v1]) == map["/v1/" := MountEntry("/v1/", v1)];
    assert MountTable(map["/auth/" := auth]) == map["/auth/" := MountEntry("/auth/", auth)];
    assert MountTable(map[]) == map[];
    assert mux.table == Tables({mux, v1, auth})[mux];
    assert v1.table == Tables({mux, v1, auth})[v1];
    assert auth.table == Tables({mux, v1, auth})[auth];
  }

  /** GET /v1/auth/user: each mount strips its prefix up to the trailing '/', and the route sees "/user". */
  lemma GroupServed(f: Forest, mux: ServeMux, v1: ServeMux, auth: ServeMux)
    requires f.MountsOk() && mux in f.nodes && v1 in f.nodes && auth in f.nodes
    requires mux.table == map["/v1/" := MountEntry("/v1/", v1)]
    requires v1.table == map["/auth/" := MountEntry("/auth/", auth)]
    requires auth.table == map[RouteKey(MethodGet, "/user") := Route(Nested([], Endpoint(0, None)))]
    requires mux.mws == [] && v1.mws == [] && auth.mws == []
    requires mux.errHandler == DefaultErrHandler && v1.errHandler == DefaultErrHandler && auth.errHandler == DefaultErrHandler
    ensures Served(f, mux, MethodGet, "/v1/auth/user") ==
              [Handled(0), ErrHandled(DefaultErrHandler, None)] + [ErrHandled(DefaultErrHandler, None)]
              + [ErrHandled(DefaultErrHandler, None)] + [ErrHandled(DefaultErrHandler, None)]
  {
    GroupPaths();
    BareMountServed(f, mux, MethodGet, "/v1/auth/user", "/v1/", v1);
    BareMountServed(f, v1, MethodGet, "/auth/user", "/auth/", auth);
    UserServed(f, auth);
  }

  /** A group below a parent without middleware: the child's trace, then the parent's ErrHandler with nil. */
  lemma BareMountServed(f: Forest, n: ServeMux, verb: string, path: string, prefix: string, child: ServeMux)
    requires f.MountsOk() && n in f.nodes && n.mws == []
    requires n.table == map[prefix := MountEntry(prefix, child)]
    requires |prefix| > 0 && prefix[0] == '/' && prefix[|prefix| - 1] == '/' && HasPrefix(path, prefix)
    requires |verb| > 0 && verb[0] != '/'
    ensures child in f.nodes
    ensures Served(f, n, verb, path) == Served(f, child, verb, path[|prefix| - 1..]) + [ErrHandled(n.errHandler, None)]
  {
    SoleMountServed(f, n, verb, path, prefix, child);
    assert Enters(n.mws) == [] && Exits(n.mws) == [];
  }

  lemma UserServed(f: Forest, auth: ServeMux)
    requires f.MountsOk() && auth in f.nodes && auth.mws == [] && auth.errHandler == DefaultErrHandler
    requires auth.table == map[RouteKey(MethodGet, "/user") := Route(Nested([], Endpoint(0, None)))]
    ensures Served(f, auth, MethodGet, "/user") == [Handled(0), ErrHandled(DefaultErrHandler, None)] + [ErrHandled(DefaultErrHandler, None)]
  {
    RouteServed(f, auth, MethodGet, "/user", [], Endpoint(0, None));
  }

  /** "/v1/" strips to "/auth/user", and "/auth/" strips that to "/user". */
  lemma GroupPaths()
    ensures HasPrefix("/v1/auth/user", "/v1/") && "/v1/auth/user"[3..] == "/auth/user"
    ensures HasPrefix("/auth/user", "/auth/") && "/auth/user"[5..] == "/user"
  {
    var full := "/v1/auth/user";
    assert full[..4] == "/v1/";
    var rest := "/auth/user";
    assert rest[..6] == "/auth/";
  }

  /**
   * sync.Once: a group created after the first request is never mounted.
   * Its route is unreachable, and a request for it is answered 404 by the
   * master's table, which stays empty.
   */
  method LateGroup() returns (trace: seq<Event>)
    ensures trace == [NotFound("/late/x"), ErrHandled(DefaultErrHandler, None)]
  {
    var mux := LateGroupMux();
    trace := ServeMounted(mux, MethodGet, "/late/x");
    LateServed(mux.forest, mux);
  }

  /** A master that has served one request, then gains the group "/late/" with a route on it. */
  method LateGroupMux() returns (mux: ServeMux)
    ensures fresh(mux) && mux.forest.Valid() && mux.forest.MountsOk() && mux in mux.forest.nodes && mux.mounted
    ensures mux.table == map[] && mux.mws == [] && mux.errHandler == DefaultErrHandler
  {
    mux := new ServeMux();
    var first := ServeAlone(mux, MethodGet, "/");
    var late := mux.Group("/late/");
    late.Get("/x", Endpoint(0, None), []);
  }

  /** ServeHTTP once the Once has fired: no table changes. */
  method ServeMounted(mux: ServeMux, verb: string, path: string) returns (trace: seq<Event>)
    requires mux.forest.Valid() && mux.forest.MountsOk() && mux in mux.forest.nodes && mux.mounted
    modifies mux`mounted
    ensures mux.table == old(mux.table) && mux.forest.MountsOk()
    ensures trace == Served(mux.forest, mux, verb, path)
  {
    ghost var T := Tables(mux.forest.Sub(mux));
    trace := mux.ServeHTTP(verb, path);
    assert mux.table == T[mux];
  }

  lemma LateServed(f: Forest, mux: ServeMux)
    requires f.MountsOk() && mux in f.nodes
    requires mux.table == map[] && mux.mws == [] && mux.errHandler == DefaultErrHandler
    ensures Served(f, mux, MethodGet, "/late/x") == [NotFound("/late/x"), ErrHandled(DefaultErrHandler, None)]
  {
    LookupEmpty(MethodGet, "/late/x");
    NodeChainOrder(f, mux, MethodGet, "/late/x");
  }
}
