/**
 * ServeMux (http.go): a node that owns a list of node-level middleware, a
 * map from prefix to child node, an ErrHandler, and the dispatch table of
 * its embedded http.ServeMux. A master node (NewServeMux) mounts its whole
 * tree of groups into the dispatch tables the first time it serves.
 *
 * Serving a request yields the trace of events of Chains. An ErrHandler is
 * identified by a number; the functions the numbers stand for are outside
 * this model, so the trace records each call with the error passed to it.
 *
 * The embedded http.ServeMux is abstracted to a table from pattern to entry
 * and the lookup of `Lookup` below.
 */
module Mux {
  import opened Common
  import opened Text
  import opened NetHttp
  import opened Errors
  import opened Chains

  /** The ErrHandler NewServeMux installs. */
  const DefaultErrHandler: nat := 0

  /** What a pattern of the embedded http.ServeMux is registered to. */
  datatype Entry =
    | Route(h: HandlerFunc)                  // the closure HandleFunc registers around h
    | Mount(strip: string, child: ServeMux)  // http.StripPrefix(strip, child)

  /** The pattern a method helper registers: `fmt.Sprintf("%s %s", method, path)`. */
  function RouteKey(verb: string, path: string): string
  {
    verb + " " + path
  }

  const Methods: seq<string> :=
    [MethodGet, MethodHead, MethodPost, MethodPut, MethodPatch, MethodDelete, MethodConnect, MethodOptions, MethodTrace]

  datatype Match = Found(entry: Entry) | NoMatch | WrongMethod

  // ---------------------------------------------------------------------------
  // The embedded http.ServeMux, abstracted
  // ---------------------------------------------------------------------------

  /**
   * The patterns that match path `k` for method `verb`, most specific
   * first: the method-qualified pattern (a GET pattern also serves HEAD),
   * then the pattern without a method.
   */
  function MatchAt(table: map<string, Entry>, verb: string, k: string): (r: Option<Entry>)
    ensures r.Some? ==> r.value in table.Values
  {
    if RouteKey(verb, k) in table then Some(table[RouteKey(verb, k)])
    else if verb == MethodHead && RouteKey(MethodGet, k) in table then Some(table[RouteKey(MethodGet, k)])
    else if k in table then Some(table[k])
    else None
  }

  /** The whole path, or a prefix of it that ends in '/' (a subtree pattern). */
  predicate Candidate(path: string, i: nat)
    requires i <= |path|
  {
    i == |path| || (i > 0 && path[i - 1] == '/')
  }

  /**
   * The longest candidate of length at most i that has a matching pattern:
   * None exactly when no candidate up to i matches, and otherwise the match
   * of a candidate above which no candidate up to i matches.
   */
  function LongestFrom(table: map<string, Entry>, verb: string, path: string, i: nat): (r: Option<Entry>)
    requires i <= |path|
    ensures r.Some? ==> r.value in table.Values
    ensures r.None? <==> forall j | 0 <= j <= i && Candidate(path, j) :: MatchAt(table, verb, path[..j]).None?
    ensures r.Some? ==> exists j | 0 <= j <= i && Candidate(path, j) ::
              MatchAt(table, verb, path[..j]) == r &&
              forall l | j < l <= i && Candidate(path, l) :: MatchAt(table, verb, path[..l]).None?
    decreases i
  {
    var here := if Candidate(path, i) then MatchAt(table, verb, path[..i]) else None;
    if here.Some? then here
    else if i == 0 then None
    else LongestFrom(table, verb, path, i - 1)
  }

  /** The path part of a method-qualified pattern "<METHOD> <path>"; None for a pattern without a method. */
  function PatternPath(pattern: string): Option<string>
  {
    match Index(pattern, " ")
    case Some(j) => if j > 0 then Some(pattern[j + 1..]) else None
    case None => None
  }

  /** The paths the table holds method-qualified patterns for, whatever the method. */
  function MethodPaths(table: map<string, Entry>): set<string>
  {
    set k | k in table && PatternPath(k).Some? :: PatternPath(k).value
  }

  /**
   * The pattern that serves a request: the exact path or the longest
   * subtree. When none matches for this method, 405 if a pattern for
   * another method, standard or not, matches the path or a subtree of it,
   * and 404 otherwise.
   */
  function Lookup(table: map<string, Entry>, verb: string, path: string): (r: Match)
    ensures r.Found? ==> r.entry in table.Values
    ensures r.Found? ==> exists j | 0 <= j <= |path| && Candidate(path, j) :: MatchAt(table, verb, path[..j]) == Some(r.entry)
    ensures !r.Found? <==> forall j | 0 <= j <= |path| && Candidate(path, j) :: MatchAt(table, verb, path[..j]).None?
    ensures r == WrongMethod <==>
              !r.Found? && exists j | 0 <= j <= |path| && Candidate(path, j) :: path[..j] in MethodPaths(table)
  {
    match LongestFrom(table, verb, path, |path|)
    case Some(e) => Found(e)
    case None =>
      if exists j | 0 <= j <= |path| && Candidate(path, j) :: path[..j] in MethodPaths(table) then WrongMethod else NoMatch
  }

  /**
   * http.StripPrefix: an empty prefix hands the request on unchanged;
   * otherwise the path must start with the prefix, and the handler sees
   * the rest (404 when it does not).
   */
  function StripPrefix(prefix: string, path: string): (r: Option<string>)
    ensures r.Some? <==> HasPrefix(path, prefix)
    ensures r.Some? ==> prefix + r.value == path
  {
    if prefix == "" then Some(path)
    else if HasPrefix(path, prefix) then Some(path[|prefix|..])
    else None
  }

  /**
   * A child mounted at a prefix ending in '/' is handed the path from that
   * '/' on: the path it sees still starts with '/'.
   */
  lemma MountedPath(prefix: string, path: string)
    requires |prefix| > 0 && prefix[|prefix| - 1] == '/' && HasPrefix(path, prefix)
    ensures StripPrefix(TrimSuffix(prefix, "/"), path) == Some(path[|prefix| - 1..])
    ensures path[|prefix| - 1..][0] == '/'
  {
    assert HasSuffix(prefix, "/");
    var pre := prefix[..|prefix| - 1];
    assert TrimSuffix(prefix, "/") == pre;
    assert path[..|pre|] == pre;
  }

  /** A method-qualified pattern for exactly this path wins over everything else. */
  lemma LookupExact(table: map<string, Entry>, verb: string, path: string)
    requires RouteKey(verb, path) in table
    ensures Lookup(table, verb, path) == Found(table[RouteKey(verb, path)])
  {
    assert path[..|path|] == path;
  }

  /** An empty table has no pattern for any candidate. */
  lemma {:induction false} LongestFromEmpty(verb: string, path: string, i: nat)
    requires i <= |path|
    ensures LongestFrom(map[], verb, path, i) == None
    decreases i
  {
    if i > 0 {
      LongestFromEmpty(verb, path, i - 1);
    }
  }

  /** A table with no patterns answers every request with 404. */
  lemma LookupEmpty(verb: string, path: string)
    ensures Lookup(map[], verb, path) == NoMatch
  {
    LongestFromEmpty(verb, path, |path|);
  }

  /** Below a subtree pattern that is the table's only one, every candidate down to the prefix falls through to it. */
  lemma {:induction false} LongestFromMount(prefix: string, e: Entry, verb: string, path: string, i: nat)
    requires |prefix| > 0 && prefix[0] == '/' && prefix[|prefix| - 1] == '/'
    requires HasPrefix(path, prefix) && |prefix| <= i <= |path|
    requires |verb| > 0 && verb[0] != '/'
    ensures LongestFrom(map[prefix := e], verb, path, i) == Some(e)
    decreases i
  {
    var k := path[..i];
    assert RouteKey(verb, k)[0] == verb[0];
    assert RouteKey(MethodGet, k)[0] == 'G';
    if i == |prefix| {
      assert k == prefix;
    } else {
      assert |k| != |prefix|;
      LongestFromMount(prefix, e, verb, path, i - 1);
    }
  }

  /** A path below the only, '/'-terminated pattern of a table is served by that pattern's entry. */
  lemma LookupMount(prefix: string, e: Entry, verb: string, path: string)
    requires |prefix| > 0 && prefix[0] == '/' && prefix[|prefix| - 1] == '/'
    requires HasPrefix(path, prefix)
    requires |verb| > 0 && verb[0] != '/'
    ensures Lookup(map[prefix := e], verb, path) == Found(e)
  {
    LongestFromMount(prefix, e, verb, path, |path|);
  }

  /** No candidate of the path matches a PUT request when the path is registered under GET only. */
  lemma {:induction false} LongestFromPutOnGet(path: string, e: Entry, i: nat)
    requires i <= |path|
    ensures LongestFrom(map[RouteKey(MethodGet, path) := e], MethodPut, path, i) == None
    decreases i
  {
    var k := path[..i];
    assert RouteKey(MethodPut, k)[0] == 'P';
    assert RouteKey(MethodGet, path)[0] == 'G';
    assert |k| < |RouteKey(MethodGet, path)|;
    if i > 0 {
      LongestFromPutOnGet(path, e, i - 1);
    }
  }

  /** The path part of a pattern a method helper registers is the path it was given. */
  lemma RouteKeyPath(verb: string, path: string)
    requires |verb| > 0 && forall i | 0 <= i < |verb| :: verb[i] != ' '
    ensures PatternPath(RouteKey(verb, path)) == Some(path)
  {
    var key := RouteKey(verb, path);
    IndexFromLeftmost(key, " ", 0);
    assert OccursAt(key, " ", |verb|);
    forall j | 0 <= j < |verb|
      ensures !OccursAt(key, " ", j)
    {
      assert key[j..j + 1][0] == verb[j];
    }
    assert key[|verb| + 1..] == path;
  }

  /** A PUT request for a path registered under GET only is answered 405, and a GET request is served. */
  lemma PutOnGetRoute(path: string, e: Entry)
    ensures Lookup(map[RouteKey(MethodGet, path) := e], MethodPut, path) == WrongMethod
    ensures Lookup(map[RouteKey(MethodGet, path) := e], MethodGet, path) == Found(e)
  {
    var table := map[RouteKey(MethodGet, path) := e];
    LongestFromPutOnGet(path, e, |path|);
    RouteKeyPath(MethodGet, path);
    assert RouteKey(MethodGet, path) in table && PatternPath(RouteKey(MethodGet, path)).value == path;
    assert path[..|path|] == path;
    assert path[..|path|] in MethodPaths(table);
    LookupExact(table, MethodGet, path);
  }

  /** A non-standard method token works like a standard one: a pattern "LIST /files/" answers GET /files/a with 405. */
  lemma CustomMethodSubtree(e: Entry)
    ensures Lookup(map["LIST /files/" := e], MethodGet, "/files/a") == WrongMethod
  {
    var table := map["LIST /files/" := e];
    RouteKeyPath("LIST", "/files/");
    assert RouteKey("LIST", "/files/") == "LIST /files/";
    assert "LIST /files/" in table && PatternPath("LIST /files/").value == "/files/";
    assert "/files/a"[..7] == "/files/";
    assert Candidate("/files/a", 7);
    assert "/files/a"[..7] in MethodPaths(table);
    forall j | 0 <= j <= 8 && Candidate("/files/a", j)
      ensures MatchAt(table, MethodGet, "/files/a"[..j]).None?
    {
      var k := "/files/a"[..j];
      assert RouteKey(MethodGet, k)[0] == 'G';
      assert |k| == 0 || k[0] == '/';
    }
  }

  // ---------------------------------------------------------------------------
  // Ghost bookkeeping: the tree of nodes grown from one master
  // ---------------------------------------------------------------------------

  /**
   * The nodes grown from one master by Group, with creation ranks. A child
   * is created after its parent, so ranks grow from parent to child and
   * stay below `next`: the tree is finite and every walk down it ends.
   */
  class Forest {
    ghost var nodes: set<ServeMux>
    ghost var next: nat
    /** The groups of every node, mirrored: `kids[n] == n.groups`. */
    ghost var kids: map<ServeMux, map<string, ServeMux>>

    ghost constructor ()
      ensures nodes == {} && next == 0 && kids == map[]
    {
      nodes := {};
      next := 0;
      kids := map[];
    }

    /** Every node belongs to this forest, and each child is a younger, non-master node of it. */
    ghost predicate Tree()
      reads this
    {
      TreeOf(this, nodes, next, kids)
    }

    /** The tree, and the mirror agrees with every node's groups. */
    ghost predicate Valid()
      reads this, nodes`groups
    {
      Tree() && forall n | n in nodes :: n.groups == kids[n]
    }

    /** Every node mounted in a dispatch table is a younger, non-master node of this forest. */
    ghost predicate MountsOk()
      reads this, nodes`table
    {
      forall n | n in nodes ::
        && n.rank < next
        && forall k | k in n.table && n.table[k].Mount? ::
             n.table[k].child in nodes && n.rank < n.table[k].child.rank && !n.table[k].child.isMaster
    }

    /** n and every node below it through `groups`. */
    ghost function Sub(n: ServeMux): (r: set<ServeMux>)
      requires Tree() && n in nodes
      reads this
      ensures n in r && r <= nodes
      decreases next - n.rank
    {
      {n} + set p, m | p in kids[n] && m in Sub(kids[n][p]) :: m
    }
  }

  /**
   * The shape Group keeps: the mirror covers exactly the nodes, every node
   * belongs to forest f with a rank below `next`, and each child is a
   * younger, non-master node.
   */
  ghost predicate TreeOf(f: Forest, nodes: set<ServeMux>, next: nat, kids: map<ServeMux, map<string, ServeMux>>)
  {
    && kids.Keys == nodes
    && forall n | n in nodes ::
         && n.forest == f && n.rank < next
         && forall p | p in kids[n] ::
              kids[n][p] in nodes && n.rank < kids[n][p].rank && !kids[n][p].isMaster
  }

  /** Group adds a fresh, youngest, non-master child under one node. */
  lemma TreeGrow(f: Forest, nodes: set<ServeMux>, next: nat, kids: map<ServeMux, map<string, ServeMux>>,
                 parent: ServeMux, prefix: string, child: ServeMux)
    requires TreeOf(f, nodes, next, kids) && parent in nodes && child !in nodes
    requires child.forest == f && child.rank == next && !child.isMaster
    ensures TreeOf(f, nodes + {child}, next + 1, kids[parent := kids[parent][prefix := child]][child := map[]])
  {
  }

  /** What addToMux registers for the child under `prefix`: http.StripPrefix of the prefix without its trailing '/'. */
  function MountEntry(prefix: string, child: ServeMux): Entry
  {
    Mount(TrimSuffix(prefix, "/"), child)
  }

  /** Everything addToMux registers on a node with these groups. */
  function MountTable(groups: map<string, ServeMux>): map<string, Entry>
  {
    map p | p in groups :: MountEntry(p, groups[p])
  }

  /** The dispatch table of every node in S. */
  ghost function Tables(S: set<ServeMux>): (r: map<ServeMux, map<string, Entry>>)
    reads S`table
    ensures r.Keys == S && forall m | m in S :: r[m] == m.table
  {
    map m | m in S :: m.table
  }

  /** The tables with the groups of every node in S mounted, as addToMux leaves them. */
  function Mounted(tables: map<ServeMux, map<string, Entry>>, kids: map<ServeMux, map<string, ServeMux>>, S: set<ServeMux>)
    : (r: map<ServeMux, map<string, Entry>>)
    ensures r.Keys == tables.Keys
    ensures forall m | m in tables :: r[m] == if m in S && m in kids then tables[m] + MountTable(kids[m]) else tables[m]
  {
    map m | m in tables :: if m in S && m in kids then tables[m] + MountTable(kids[m]) else tables[m]
  }

  /** The groups whose prefixes are in `done`. */
  function Only(groups: map<string, ServeMux>, done: set<string>): map<string, ServeMux>
  {
    map p | p in groups && p in done :: groups[p]
  }

  /** Before addToMux's loop: nothing mounted, nothing registered. */
  lemma MountStart(start: map<ServeMux, map<string, Entry>>, kids: map<ServeMux, map<string, ServeMux>>,
                   groups: map<string, ServeMux>, root: ServeMux)
    requires root in start
    ensures MountTable(Only(groups, {})) == map[]
    ensures start == Mounted(start, kids, {})[root := start[root] + map[]]
  {
    assert Only(groups, {}) == map[];
    assert start[root] + map[] == start[root];
  }

  /** Taking one element from the work set to the done set keeps them a partition. */
  lemma MoveOne<T>(todo: set<T>, done: set<T>, all: set<T>, x: T)
    requires todo !! done && todo + done == all && x in todo
    ensures (todo - {x}) !! (done + {x}) && (todo - {x}) + (done + {x}) == all
  {
  }

  /** The subtrees of the children handled so far, one child more. */
  lemma BelowGrows(f: Forest, n: ServeMux, done: set<string>, below: set<ServeMux>, p: string, sub: set<ServeMux>)
    requires f.Tree() && n in f.nodes && p in f.kids[n] && sub == f.Sub(f.kids[n][p])
    requires forall q | q in done && q in f.kids[n] :: f.Sub(f.kids[n][q]) <= below
    ensures forall q | q in done + {p} && q in f.kids[n] :: f.Sub(f.kids[n][q]) <= below + sub
  {
  }

  lemma OnlyAll(groups: map<string, ServeMux>, done: set<string>)
    requires groups.Keys <= done
    ensures Only(groups, done) == groups
  {
  }

  lemma OnlyAdd(groups: map<string, ServeMux>, done: set<string>, p: string)
    requires p in groups
    ensures MountTable(Only(groups, done + {p})) == MountTable(Only(groups, done))[p := MountEntry(p, groups[p])]
  {
    assert Only(groups, done + {p}) == Only(groups, done)[p := groups[p]];
  }

  /** One turn of addToMux's loop, on the tables as values. */
  lemma MountStep(start: map<ServeMux, map<string, Entry>>, kids: map<ServeMux, map<string, ServeMux>>,
                  below: set<ServeMux>, sub: set<ServeMux>, root: ServeMux,
                  added: map<string, Entry>, p: string, e: Entry)
    requires root in start && root !in below && root !in sub
    ensures Mounted(Mounted(start, kids, below)[root := start[root] + added], kids, sub)
              [root := (start[root] + added)[p := e]]
            == Mounted(start, kids, below + sub)[root := start[root] + added[p := e]]
  {
    var a := Mounted(Mounted(start, kids, below)[root := start[root] + added], kids, sub);
    var b := Mounted(start, kids, below + sub);
    forall m | m in a && m != root
      ensures a[m] == b[m]
    {
      MountElsewhere(start, kids, below, sub, root, start[root] + added, m);
    }
    MergeUpdate(start[root], added, p, e);
    UpdateSame(a, b, root, start[root] + added[p := e]);
  }

  /** Two maps with the same keys that agree away from k agree everywhere once k is set. */
  lemma UpdateSame<K, V>(a: map<K, V>, b: map<K, V>, k: K, v: V)
    requires a.Keys == b.Keys && forall j | j in a && j != k :: a[j] == b[j]
    ensures a[k := v] == b[k := v]
  {
  }

  /** Away from the root, mounting `below` and then `sub` is mounting both at once. */
  lemma MountElsewhere(start: map<ServeMux, map<string, Entry>>, kids: map<ServeMux, map<string, ServeMux>>,
                       below: set<ServeMux>, sub: set<ServeMux>, root: ServeMux, t: map<string, Entry>, m: ServeMux)
    requires root in start && m in start && m != root
    ensures Mounted(Mounted(start, kids, below)[root := t], kids, sub)[m] == Mounted(start, kids, below + sub)[m]
  {
    if m in kids {
      MergeTwice(start[m], MountTable(kids[m]));
    }
  }

  /** When the loop ends every node below the root has been mounted, and the root too. */
  lemma MountDone(start: map<ServeMux, map<string, Entry>>, kids: map<ServeMux, map<string, ServeMux>>,
                  below: set<ServeMux>, root: ServeMux, sub: set<ServeMux>)
    requires root in start && root in kids && root !in below
    requires below <= sub && root in sub && sub <= below + {root}
    ensures Mounted(start, kids, below)[root := start[root] + MountTable(kids[root])] == Mounted(start, kids, sub)
  {
    assert sub == below + {root};
  }

  /** A subtree is its root and the subtrees of its children. */
  lemma SubCovered(f: Forest, n: ServeMux, below: set<ServeMux>)
    requires f.Tree() && n in f.nodes
    requires forall p | p in f.kids[n] :: f.Sub(f.kids[n][p]) <= below
    ensures f.Sub(n) <= below + {n}
  {
  }

  /** A child's subtree lies inside its parent's. */
  lemma SubChild(f: Forest, n: ServeMux, p: string)
    requires f.Tree() && n in f.nodes && p in f.kids[n]
    ensures f.kids[n][p] in f.nodes && f.Sub(f.kids[n][p]) <= f.Sub(n) && n !in f.Sub(f.kids[n][p])
  {
    if n in f.Sub(f.kids[n][p]) {
      SubRank(f, f.kids[n][p], n);
    }
  }

  lemma MergeUpdate<K, V>(a: map<K, V>, b: map<K, V>, k: K, v: V)
    ensures (a + b)[k := v] == a + b[k := v]
  {
  }

  lemma MergeTwice<K, V>(a: map<K, V>, b: map<K, V>)
    ensures (a + b) + b == a + b
  {
  }

  /** Nothing in a subtree is older than its root. */
  lemma {:induction false} SubRank(f: Forest, n: ServeMux, m: ServeMux)
    requires f.Tree() && n in f.nodes && m in f.Sub(n)
    ensures m in f.nodes && n.rank <= m.rank
    decreases f.next - n.rank
  {
    if m != n {
      var p :| p in f.kids[n] && m in f.Sub(f.kids[n][p]);
      SubRank(f, f.kids[n][p], m);
    }
  }

  // ---------------------------------------------------------------------------
  // What serving a request does
  // ---------------------------------------------------------------------------

  /**
   * ServeHTTP on node n: the node-level chain around the adapter of the
   * embedded ServeMux, then the node's ErrHandler with the chain's error.
   */
  ghost function Served(f: Forest, n: ServeMux, verb: string, path: string): seq<Event>
    requires f.MountsOk() && n in f.nodes
    reads f, f.nodes`table, f.nodes`mws, f.nodes`errHandler
    decreases f.next - n.rank, 1
  {
    var o := Run(Nested(n.mws, ToFunc), Dispatched(f, n, verb, path));
    o.trace + [ErrHandled(n.errHandler, o.err)]
  }

  /**
   * The embedded http.ServeMux of node n serving a request: a route runs
   * its chain and hands the error to n's ErrHandler as it is at call time;
   * a mount strips its prefix and serves the rest on the child node. A
   * route's chain is run with nothing for the adapter to serve: the method
   * helpers only register chains without the adapter (Chains.NestedRouteChain).
   */
  ghost function Dispatched(f: Forest, n: ServeMux, verb: string, path: string): seq<Event>
    requires f.MountsOk() && n in f.nodes
    reads f, f.nodes`table, f.nodes`mws, f.nodes`errHandler
    decreases f.next - n.rank, 0
  {
    match Lookup(n.table, verb, path)
    case NoMatch => [NotFound(path)]
    case WrongMethod => [NotAllowed(path)]
    case Found(Route(h)) =>
      var o := Run(h, []);
      o.trace + [ErrHandled(n.errHandler, o.err)]
    case Found(Mount(strip, c)) =>
      match StripPrefix(strip, path)
      case None => [NotFound(path)]
      case Some(rest) => Served(f, c, verb, rest)
  }

  /**
   * The node-level onion: without a Guard the node's middleware is entered
   * in order around the dispatch and left in reverse order, and the
   * ErrHandler sees nil whatever a route returned; the first Guard answers
   * without dispatching, and its error is what the ErrHandler sees.
   */
  lemma NodeChainOrder(f: Forest, n: ServeMux, verb: string, path: string)
    requires f.MountsOk() && n in f.nodes
    ensures FirstGuard(n.mws).None? ==>
              Served(f, n, verb, path) ==
                Enters(n.mws) + Dispatched(f, n, verb, path) + Exits(n.mws) + [ErrHandled(n.errHandler, None)]
    ensures FirstGuard(n.mws).Some? ==>
              var k := FirstGuard(n.mws).value;
              Served(f, n, verb, path) ==
                Enters(n.mws[..k]) + [Rejected(n.mws[k].id)] + Exits(n.mws[..k]) + [ErrHandled(n.errHandler, Some(n.mws[k].err))]
  {
    RunNested(n.mws, ToFunc, Dispatched(f, n, verb, path));
  }

  /**
   * A route registered for exactly this method and path runs its chain
   * once and hands the chain's error to this node's ErrHandler.
   */
  lemma DispatchedRoute(f: Forest, n: ServeMux, verb: string, path: string, h: HandlerFunc)
    requires f.MountsOk() && n in f.nodes
    requires RouteKey(verb, path) in n.table && n.table[RouteKey(verb, path)] == Route(h)
    ensures Dispatched(f, n, verb, path) == Run(h, []).trace + [ErrHandled(n.errHandler, Run(h, []).err)]
  {
    LookupExact(n.table, verb, path);
  }

  /**
   * A request for a route on a node without Guards: the node's middleware
   * is entered, then the route's, the handler runs, the route's middleware
   * is left, the handler's error goes to the node's ErrHandler, the node's
   * middleware is left, and the ErrHandler is called once more with nil.
   */
  lemma RouteServed(f: Forest, n: ServeMux, verb: string, path: string, routeMs: seq<Middleware>, h: HandlerFunc)
    requires f.MountsOk() && n in f.nodes
    requires FirstGuard(n.mws).None? && FirstGuard(routeMs).None?
    requires RouteKey(verb, path) in n.table && n.table[RouteKey(verb, path)] == Route(Nested(routeMs, h))
    ensures Served(f, n, verb, path) ==
              Enters(n.mws) + (Enters(routeMs) + Run(h, []).trace + Exits(routeMs) + [ErrHandled(n.errHandler, Run(h, []).err)])
              + Exits(n.mws) + [ErrHandled(n.errHandler, None)]
  {
    DispatchedRoute(f, n, verb, path, Nested(routeMs, h));
    RunNested(routeMs, h, []);
    NodeChainOrder(f, n, verb, path);
  }

  /**
   * The handler's error reaches the ErrHandler exactly once: the trace has
   * two ErrHandler calls, the route's closure with the handler's error and
   * ServeHTTP's with nil.
   */
  lemma RouteErrorHandledOnce(f: Forest, n: ServeMux, verb: string, path: string, routeMs: seq<Middleware>, h: HandlerFunc)
    requires f.MountsOk() && n in f.nodes && IsRouteChain(h)
    requires FirstGuard(n.mws).None? && FirstGuard(routeMs).None?
    requires RouteKey(verb, path) in n.table && n.table[RouteKey(verb, path)] == Route(Nested(routeMs, h))
    ensures ErrHandledCount(Served(f, n, verb, path)) == 2
  {
    RouteServed(f, n, verb, path, routeMs, h);
    var o := Run(h, []);
    var inner := Enters(routeMs) + o.trace + Exits(routeMs) + [ErrHandled(n.errHandler, o.err)];
    MarkersHandleNoError(n.mws);
    MarkersHandleNoError(routeMs);
    RouteChainHandlesNoError(h, []);
    ErrHandledCountAppend(Enters(routeMs), o.trace);
    ErrHandledCountAppend(Enters(routeMs) + o.trace, Exits(routeMs));
    ErrHandledCountAppend(Enters(routeMs) + o.trace + Exits(routeMs), [ErrHandled(n.errHandler, o.err)]);
    assert ErrHandledCount(inner) == 1;
    ErrHandledCountAppend(Enters(n.mws), inner);
    ErrHandledCountAppend(Enters(n.mws) + inner, Exits(n.mws));
    ErrHandledCountAppend(Enters(n.mws) + inner + Exits(n.mws), [ErrHandled(n.errHandler, None)]);
  }

  /**
   * A mounted child found for the request serves the rest of the path once
   * its strip prefix is cut off; a path without that prefix is answered 404
   * by http.StripPrefix.
   */
  lemma DispatchedMount(f: Forest, n: ServeMux, verb: string, path: string, strip: string, c: ServeMux)
    requires f.MountsOk() && n in f.nodes
    requires Lookup(n.table, verb, path) == Found(Mount(strip, c))
    ensures c in f.nodes && n.rank < c.rank
    ensures HasPrefix(path, strip) ==> Dispatched(f, n, verb, path) == Served(f, c, verb, path[|strip|..])
    ensures !HasPrefix(path, strip) ==> Dispatched(f, n, verb, path) == [NotFound(path)]
  {
    var k :| k in n.table && n.table[k] == Mount(strip, c);
  }

  /**
   * A request that reaches a mounted child, seen from a parent without
   * Guards: the parent's middleware is entered, the child serves the
   * stripped path (or 404 without the prefix), the parent's middleware is
   * left, and the parent's ErrHandler is called with nil.
   */
  lemma MountServed(f: Forest, n: ServeMux, verb: string, path: string, strip: string, c: ServeMux)
    requires f.MountsOk() && n in f.nodes && FirstGuard(n.mws).None?
    requires Lookup(n.table, verb, path) == Found(Mount(strip, c))
    ensures c in f.nodes
    ensures HasPrefix(path, strip) ==>
              Served(f, n, verb, path) ==
                Enters(n.mws) + Served(f, c, verb, path[|strip|..]) + Exits(n.mws) + [ErrHandled(n.errHandler, None)]
    ensures !HasPrefix(path, strip) ==>
              Served(f, n, verb, path) == Enters(n.mws) + [NotFound(path)] + Exits(n.mws) + [ErrHandled(n.errHandler, None)]
  {
    DispatchedMount(f, n, verb, path, strip, c);
    NodeChainOrder(f, n, verb, path);
  }

  /**
   * On a node whose only pattern is a mounted group, a request below the
   * group's prefix is served by the child on the rest of the path, from the
   * prefix's trailing '/' on.
   */
  lemma SoleMountServed(f: Forest, n: ServeMux, verb: string, path: string, prefix: string, child: ServeMux)
    requires f.MountsOk() && n in f.nodes && FirstGuard(n.mws).None?
    requires n.table == map[prefix := MountEntry(prefix, child)]
    requires |prefix| > 0 && prefix[0] == '/' && prefix[|prefix| - 1] == '/' && HasPrefix(path, prefix)
    requires |verb| > 0 && verb[0] != '/'
    ensures child in f.nodes
    ensures Served(f, n, verb, path) ==
              Enters(n.mws) + Served(f, child, verb, path[|prefix| - 1..]) + Exits(n.mws) + [ErrHandled(n.errHandler, None)]
  {
    LookupMount(prefix, MountEntry(prefix, child), verb, path);
    MountedPath(prefix, path);
    MountServed(f, n, verb, path, TrimSuffix(prefix, "/"), child);
  }

  /** Every node of the forest is free of Guards. */
  ghost predicate GuardFree(f: Forest)
    reads f, f.nodes`mws
  {
    forall n | n in f.nodes :: FirstGuard(n.mws).None?
  }

  /**
   * The route a request ends at, following mounted children down the
   * tree; None when it ends in a 404 or a 405.
   */
  ghost function Reached(f: Forest, n: ServeMux, verb: string, path: string): Option<HandlerFunc>
    requires f.MountsOk() && n in f.nodes
    reads f, f.nodes`table
    decreases f.next - n.rank
  {
    match Lookup(n.table, verb, path)
    case NoMatch => None
    case WrongMethod => None
    case Found(Route(h)) => Some(h)
    case Found(Mount(strip, c)) =>
      match StripPrefix(strip, path)
      case None => None
      case Some(rest) => Reached(f, c, verb, rest)
  }

  /** On a node without Guards, ServeHTTP's own ErrHandler call comes last and sees nil. */
  lemma ServedErrs(f: Forest, n: ServeMux, verb: string, path: string)
    requires f.MountsOk() && n in f.nodes && FirstGuard(n.mws).None?
    ensures Errs(Served(f, n, verb, path)) == Errs(Dispatched(f, n, verb, path)) + [None]
  {
    var d := Dispatched(f, n, verb, path);
    NodeChainOrder(f, n, verb, path);
    MarkersHandleNoError(n.mws);
    ErrsAppend(Enters(n.mws), d);
    ErrsAppend(Enters(n.mws) + d, Exits(n.mws));
    ErrsAppend(Enters(n.mws) + d + Exits(n.mws), [ErrHandled(n.errHandler, None)]);
  }

  /**
   * In a tree without Guards the error of the route a request reaches is
   * handed to an ErrHandler exactly once, by the route's own closure, and
   * every other ErrHandler call (one per ServeHTTP on the way down) sees
   * nil. A request that ends in a 404 or a 405 hands nothing but nil.
   */
  lemma {:induction false} ErrorHandledOnce(f: Forest, n: ServeMux, verb: string, path: string)
    requires f.MountsOk() && n in f.nodes && GuardFree(f)
    ensures var e := Errs(Served(f, n, verb, path));
            match Reached(f, n, verb, path)
            case Some(h) => |e| >= 2 && e[0] == Run(h, []).err && forall i | 1 <= i < |e| :: e[i].None?
            case None => |e| >= 1 && forall i | 0 <= i < |e| :: e[i].None?
    decreases f.next - n.rank
  {
    ServedErrs(f, n, verb, path);
    match Lookup(n.table, verb, path)
    case NoMatch =>
    case WrongMethod =>
    case Found(Route(h)) =>
      RunHandlesNoError(h);
      ErrsAppend(Run(h, []).trace, [ErrHandled(n.errHandler, Run(h, []).err)]);
    case Found(Mount(strip, c)) =>
      DispatchedMount(f, n, verb, path, strip, c);
      if HasPrefix(path, strip) {
        ErrorHandledOnce(f, c, verb, path[|strip|..]);
      }
  }

  class ServeMux {
    var errHandler: nat                // ErrHandler
    var mws: seq<Middleware>
    var groups: map<string, ServeMux>
    const isMaster: bool
    /** The done flag of the sync.Once that guards addToMux. */
    var mounted: bool
    /** The patterns registered in the embedded http.ServeMux. */
    var table: map<string, Entry>
    ghost const forest: Forest
    ghost const rank: nat

    /** NewServeMux: the only way to get a master node. */
    constructor ()
      ensures errHandler == DefaultErrHandler && mws == [] && groups == map[] && table == map[]
      ensures isMaster && !mounted
      ensures fresh(forest) && forest.nodes == {this} && forest.Valid() && forest.MountsOk()
    {
      errHandler := DefaultErrHandler;
      mws := [];
      groups := map[];
      isMaster := true;
      mounted := false;
      table := map[];
      forest := new Forest();
      rank := 0;
      new;
      forest.nodes := {this};
      forest.next := 1;
      forest.kids := map[this := map[]];
    }

    /** The node Group builds: no middleware, no groups, not a master. */
    constructor Child(errHandler: nat, ghost forest: Forest, ghost rank: nat)
      ensures this.errHandler == errHandler && mws == [] && groups == map[] && table == map[]
      ensures !isMaster && !mounted && this.forest == forest && this.rank == rank
    {
      this.errHandler := errHandler;
      mws := [];
      groups := map[];
      isMaster := false;
      mounted := false;
      table := map[];
      this.forest := forest;
      this.rank := rank;
    }

    /** Use: the middleware is appended in argument order; nothing else changes. */
    method Use(ms: seq<Middleware>)
      modifies this`mws
      ensures mws == old(mws) + ms
    {
      mws := mws + ms;
    }

    /** Assigning the exported ErrHandler field. */
    method SetErrHandler(h: nat)
      modifies this`errHandler
      ensures errHandler == h
    {
      errHandler := h;
    }

    /**
     * Group: a fresh child under a prefix not yet in use (a second Group
     * with the same prefix panics), with the parent's ErrHandler as it is
     * now.
     */
    method Group(prefix: string) returns (child: ServeMux)
      requires forest.Valid() && forest.MountsOk() && this in forest.nodes
      requires prefix !in groups
      modifies this`groups, forest
      ensures groups == old(groups)[prefix := child]
      ensures fresh(child) && child.errHandler == errHandler && child.mws == [] && child.groups == map[]
      ensures !child.isMaster && !child.mounted && child.table == map[] && child.forest == forest
      ensures forest.nodes == old(forest.nodes) + {child}
      ensures forest.Valid() && forest.MountsOk()
    {
      child := new ServeMux.Child(errHandler, forest, forest.next);
      TreeGrow(forest, forest.nodes, forest.next, forest.kids, this, prefix, child);
      forest.nodes := forest.nodes + {child};
      forest.next := forest.next + 1;
      groups := groups[prefix := child];
      forest.kids := forest.kids[this := groups][child := map[]];
      forall n | n in forest.nodes ensures n.groups == forest.kids[n] {
        if n != this && n != child {
          assert n in old(forest.nodes);
        }
      }
      forall n | n in forest.nodes
        ensures n.rank < forest.next
        ensures forall k | k in n.table && n.table[k].Mount? ::
                  n.table[k].child in forest.nodes && n.rank < n.table[k].child.rank && !n.table[k].child.isMaster
      {
        if n != child {
          assert n in old(forest.nodes);
        }
      }
    }

    /**
     * HandleFunc: registers the handler's closure; registering a pattern
     * twice panics in net/http.
     */
    method HandleFunc(pattern: string, h: HandlerFunc)
      requires forest.MountsOk() && this in forest.nodes
      requires pattern !in table
      modifies this`table
      ensures table == old(table)[pattern := Route(h)]
      ensures forest.MountsOk()
    {
      table := table[pattern := Route(h)];
    }

    /** The method helpers share this: `use` the route middleware, then HandleFunc under "<verb> <path>". */
    method Register(verb: string, path: string, h: HandlerFunc, ms: seq<Middleware>)
      requires forest.MountsOk() && this in forest.nodes
      requires RouteKey(verb, path) !in table
      modifies this`table
      ensures table == old(table)[RouteKey(verb, path) := Route(Nested(ms, h))]
      ensures forest.MountsOk()
    {
      var wrapped := Chains.Use(h, ms);
      HandleFunc(RouteKey(verb, path), wrapped);
    }

    method Get(path: string, h: HandlerFunc, ms: seq<Middleware>)
      requires forest.MountsOk() && this in forest.nodes
      requires RouteKey(MethodGet, path) !in table
      modifies this`table
      ensures table == old(table)[RouteKey(MethodGet, path) := Route(Nested(ms, h))]
      ensures forest.MountsOk()
    {
      Register(MethodGet, path, h, ms);
    }

    method Head(path: string, h: HandlerFunc, ms: seq<Middleware>)
      requires forest.MountsOk() && this in forest.nodes
      requires RouteKey(MethodHead, path) !in table
      modifies this`table
      ensures table == old(table)[RouteKey(MethodHead, path) := Route(Nested(ms, h))]
      ensures forest.MountsOk()
    {
      Register(MethodHead, path, h, ms);
    }

    method Post(path: string, h: HandlerFunc, ms: seq<Middleware>)
      requires forest.MountsOk() && this in forest.nodes
      requires RouteKey(MethodPost, path) !in table
      modifies this`table
      ensures table == old(table)[RouteKey(MethodPost, path) := Route(Nested(ms, h))]
      ensures forest.MountsOk()
    {
      Register(MethodPost, path, h, ms);
    }

    /** Put as written: the route is filed under GET. */
    method Put(path: string, h: HandlerFunc, ms: seq<Middleware>)
      requires forest.MountsOk() && this in forest.nodes
      requires RouteKey(MethodGet, path) !in table
      modifies this`table
      ensures table == old(table)[RouteKey(MethodGet, path) := Route(Nested(ms, h))]
      ensures forest.MountsOk()
    {
      Register(MethodGet, path, h, ms);
    }

    /** Put as its name promises: the route is filed under PUT. */
    method PutCorrected(path: string, h: HandlerFunc, ms: seq<Middleware>)
      requires forest.MountsOk() && this in forest.nodes
      requires RouteKey(MethodPut, path) !in table
      modifies this`table
      ensures table == old(table)[RouteKey(MethodPut, path) := Route(Nested(ms, h))]
      ensures forest.MountsOk()
    {
      Register(MethodPut, path, h, ms);
    }

    method Patch(path: string, h: HandlerFunc, ms: seq<Middleware>)
      requires forest.MountsOk() && this in forest.nodes
      requires RouteKey(MethodPatch, path) !in table
      modifies this`table
      ensures table == old(table)[RouteKey(MethodPatch, path) := Route(Nested(ms, h))]
      ensures forest.MountsOk()
    {
      Register(MethodPatch, path, h, ms);
    }

    method Delete(path: string, h: HandlerFunc, ms: seq<Middleware>)
      requires forest.MountsOk() && this in forest.nodes
      requires RouteKey(MethodDelete, path) !in table
      modifies this`table
      ensures table == old(table)[RouteKey(MethodDelete, path) := Route(Nested(ms, h))]
      ensures forest.MountsOk()
    {
      Register(MethodDelete, path, h, ms);
    }

    method Connect(path: string, h: HandlerFunc, ms: seq<Middleware>)
      requires forest.MountsOk() && this in forest.nodes
      requires RouteKey(MethodConnect, path) !in table
      modifies this`table
      ensures table == old(table)[RouteKey(MethodConnect, path) := Route(Nested(ms, h))]
      ensures forest.MountsOk()
    {
      Register(MethodConnect, path, h, ms);
    }

    method Options(path: string, h: HandlerFunc, ms: seq<Middleware>)
      requires forest.MountsOk() && this in forest.nodes
      requires RouteKey(MethodOptions, path) !in table
      modifies this`table
      ensures table == old(table)[RouteKey(MethodOptions, path) := Route(Nested(ms, h))]
      ensures forest.MountsOk()
    {
      Register(MethodOptions, path, h, ms);
    }

    method Trace(path: string, h: HandlerFunc, ms: seq<Middleware>)
      requires forest.MountsOk() && this in forest.nodes
      requires RouteKey(MethodTrace, path) !in table
      modifies this`table
      ensures table == old(table)[RouteKey(MethodTrace, path) := Route(Nested(ms, h))]
      ensures forest.MountsOk()
    {
      Register(MethodTrace, path, h, ms);
    }

    /**
     * addToMux: each child first mounts its own children, then is
     * registered here under its prefix. Every node of the subtree ends up
     * with its children mounted, and the tables of the other nodes of
     * `around` do not change.
     */
    method AddToMux(ghost around: set<ServeMux>)
      requires forest.Valid() && forest.MountsOk() && this in forest.nodes && forest.Sub(this) <= around
      modifies forest.Sub(this)`table
      ensures Tables(around) == Mounted(old(Tables(around)), forest.kids, forest.Sub(this))
      ensures forest.MountsOk()
      decreases forest.next - rank, 2
    {
      ghost var start := Tables(around);
      var todo := groups.Keys;
      ghost var keys := todo;
      ghost var done: set<string> := {};
      ghost var added: map<string, Entry> := map[];
      ghost var below: set<ServeMux> := {};
      ProgressStart(around);
      while todo != {}
        invariant todo !! done && todo + done == keys
        invariant Progress(around, start, below, added, done)
      {
        var prefix :| prefix in todo;
        below, added := MountNext(prefix, around, start, below, added, done);
        MoveOne(todo, done, keys, prefix);
        todo := todo - {prefix};
        done := done + {prefix};
      }
      ProgressEnd(around, start, below, added, done);
    }

    /** Before addToMux's loop: nothing mounted, nothing registered. */
    lemma ProgressStart(around: set<ServeMux>)
      requires forest.Valid() && forest.MountsOk() && this in forest.nodes && forest.Sub(this) <= around
      ensures Progress(around, Tables(around), {}, map[], {})
    {
      MountStart(Tables(around), forest.kids, groups, this);
    }

    /** After addToMux's loop: every child's subtree and the root itself are mounted. */
    lemma ProgressEnd(around: set<ServeMux>, start: map<ServeMux, map<string, Entry>>,
                      below: set<ServeMux>, added: map<string, Entry>, done: set<string>)
      requires Progress(around, start, below, added, done) && groups.Keys <= done
      ensures Tables(around) == Mounted(start, forest.kids, forest.Sub(this))
    {
      OnlyAll(groups, done);
      SubCovered(forest, this, below);
      MountDone(start, forest.kids, below, this, forest.Sub(this));
    }

    /**
     * Where addToMux's loop stands: the children under the prefixes in
     * `done` have mounted their subtrees, which make up `below`, and are
     * registered here.
     */
    ghost predicate Progress(around: set<ServeMux>, start: map<ServeMux, map<string, Entry>>,
                             below: set<ServeMux>, added: map<string, Entry>, done: set<string>)
      reads this, forest, forest.nodes`groups, forest.nodes`table, around`table
    {
      && forest.Valid() && forest.MountsOk() && this in forest.nodes && forest.Sub(this) <= around
      && start.Keys == around
      && below <= forest.Sub(this) && this !in below
      && (forall p | p in done && p in forest.kids[this] :: forest.Sub(forest.kids[this][p]) <= below)
      && added == MountTable(Only(groups, done))
      && Tables(around) == Mounted(start, forest.kids, below)[this := start[this] + added]
    }

    /** The body of addToMux's loop: one more child mounted and registered. */
    method MountNext(prefix: string, ghost around: set<ServeMux>, ghost start: map<ServeMux, map<string, Entry>>,
                     ghost below: set<ServeMux>, ghost added: map<string, Entry>, ghost done: set<string>)
      returns (ghost below': set<ServeMux>, ghost added': map<string, Entry>)
      requires Progress(around, start, below, added, done) && prefix in groups
      modifies forest.Sub(this)`table
      ensures Progress(around, start, below', added', done + {prefix})
      decreases forest.next - rank, 1
    {
      ghost var sub := forest.Sub(groups[prefix]);
      MountChild(prefix, around);
      ghost var e := MountEntry(prefix, groups[prefix]);
      MountStep(start, forest.kids, below, sub, this, added, prefix, e);
      OnlyAdd(groups, done, prefix);
      BelowGrows(forest, this, done, below, prefix, sub);
      below', added' := below + sub, added[prefix := e];
    }

    /** One turn of addToMux's loop: the child mounts its subtree, then is registered here. */
    method MountChild(prefix: string, ghost around: set<ServeMux>)
      requires forest.Valid() && forest.MountsOk() && this in forest.nodes && prefix in groups
      requires forest.Sub(this) <= around
      modifies forest.Sub(this)`table
      ensures forest.Sub(groups[prefix]) <= forest.Sub(this) && this !in forest.Sub(groups[prefix])
      ensures Tables(around) ==
                Mounted(old(Tables(around)), forest.kids, forest.Sub(groups[prefix]))
                  [this := old(table)[prefix := MountEntry(prefix, groups[prefix])]]
      ensures forest.MountsOk()
      decreases forest.next - rank, 0
    {
      var child := groups[prefix];
      SubChild(forest, this, prefix);
      child.AddToMux(around);
      assert table == old(table);
      Handle(prefix, Mount(TrimSuffix(prefix, "/"), child), around);
    }

    /** http.ServeMux.Handle, as addToMux calls it: the pattern is bound to the entry. */
    method Handle(pattern: string, entry: Entry, ghost around: set<ServeMux>)
      requires forest.MountsOk() && this in forest.nodes && this in around
      requires entry.Mount? ==> entry.child in forest.nodes && rank < entry.child.rank && !entry.child.isMaster
      modifies this`table
      ensures table == old(table)[pattern := entry]
      ensures Tables(around) == old(Tables(around))[this := table]
      ensures forest.MountsOk()
    {
      table := table[pattern := entry];
    }

    /**
     * ServeHTTP: a master mounts its tree once (the sync.Once guard), then
     * the node-level middleware runs around the embedded ServeMux, built by
     * the descending loop so that mws[0] is outermost, and the chain's error
     * goes to this node's ErrHandler.
     */
    method ServeHTTP(verb: string, path: string) returns (trace: seq<Event>)
      requires forest.Valid() && forest.MountsOk() && this in forest.nodes
      modifies (if isMaster then {this} else {})`mounted
      modifies (if isMaster && !mounted then forest.Sub(this) else {})`table
      ensures mounted == (old(mounted) || isMaster)
      ensures Tables(forest.Sub(this)) ==
                if isMaster && !old(mounted) then Mounted(old(Tables(forest.Sub(this))), forest.kids, forest.Sub(this))
                else old(Tables(forest.Sub(this)))
      ensures forest.MountsOk()
      ensures mws == old(mws) && errHandler == old(errHandler) && groups == old(groups)
      ensures trace == Served(forest, this, verb, path)
      decreases forest.next - rank, 4
    {
      MountOnce();
      ghost var S := forest.Sub(this);
      ghost var T := Tables(S);
      trace := ServeChain(verb, path);
      assert Tables(S) == T && forest.MountsOk();
    }

    /** `if sm.isMaster { sm.once.Do(sm.addToMux) }`: `mounted` is the Once's done flag. */
    method MountOnce()
      requires forest.Valid() && forest.MountsOk() && this in forest.nodes
      modifies (if isMaster then {this} else {})`mounted
      modifies (if isMaster && !mounted then forest.Sub(this) else {})`table
      ensures mounted == (old(mounted) || isMaster)
      ensures Tables(forest.Sub(this)) ==
                if isMaster && !old(mounted) then Mounted(old(Tables(forest.Sub(this))), forest.kids, forest.Sub(this))
                else old(Tables(forest.Sub(this)))
      ensures forest.MountsOk()
      ensures mws == old(mws) && errHandler == old(errHandler) && groups == old(groups)
      decreases forest.next - rank, 3
    {
      if isMaster && !mounted {
        ghost var S := forest.Sub(this);
        ghost var T := Tables(S);
        mounted := true;
        assert Tables(S) == T;
        AddToMux(S);
      }
    }

    /** The rest of ServeHTTP: wrap the adapter in the node's middleware, run it, hand its error over. */
    method ServeChain(verb: string, path: string) returns (trace: seq<Event>)
      requires forest.Valid() && forest.MountsOk() && this in forest.nodes
      ensures trace == Served(forest, this, verb, path)
      decreases forest.next - rank, 2
    {
      var hf := ToFunc;
      var i := |mws|;
      while i > 0
        invariant 0 <= i <= |mws|
        invariant hf == Nested(mws[i..], ToFunc)
      {
        i := i - 1;
        assert mws[i..][1..] == mws[i + 1..];
        hf := Wrapped(mws[i], hf);
      }
      var o := Invoke(hf, verb, path);
      trace := o.trace + [ErrHandled(errHandler, o.err)];
    }

    /** Calling the chain built in ServeHTTP. */
    method Invoke(hf: HandlerFunc, verb: string, path: string) returns (o: Outcome)
      requires forest.Valid() && forest.MountsOk() && this in forest.nodes
      ensures o == Run(hf, Dispatched(forest, this, verb, path))
      decreases forest.next - rank, 1, hf
    {
      match hf
      case Endpoint(id, result) =>
        o := Outcome([Handled(id)], result);
      case ToFunc =>
        var served := Dispatch(verb, path);
        o := Outcome(served, None);
      case Wrapped(Marker(id), next) =>
        var inner := Invoke(next, verb, path);
        o := Outcome([Enter(id)] + inner.trace + [Exit(id)], inner.err);
      case Wrapped(Guard(id, err), _) =>
        o := Outcome([Rejected(id)], Some(err));
    }

    /** The embedded http.ServeMux's ServeHTTP. */
    method Dispatch(verb: string, path: string) returns (served: seq<Event>)
      requires forest.Valid() && forest.MountsOk() && this in forest.nodes
      ensures served == Dispatched(forest, this, verb, path)
      decreases forest.next - rank, 0
    {
      match Lookup(table, verb, path)
      case NoMatch =>
        served := [NotFound(path)];
      case WrongMethod =>
        served := [NotAllowed(path)];
      case Found(Route(h)) =>
        var o := Run(h, []);
        served := o.trace + [ErrHandled(errHandler, o.err)];
      case Found(Mount(strip, c)) =>
        match StripPrefix(strip, path)
        case None =>
          served := [NotFound(path)];
        case Some(rest) =>
          served := c.ServeHTTP(verb, rest);
    }
  }
}
