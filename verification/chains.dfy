/**
 * Handler chains (http.go): a HandlerFunc is a handler wrapped in
 * MiddlewareFuncs, and running it yields a trace of what each layer did
 * and the error it returns.
 *
 * A middleware is identified by what it does around `next`:
 *  - `Marker(id)` records that it was entered, calls `next`, records that it
 *    was left and returns `next`'s error (the shape of every middleware the
 *    tests install);
 *  - `Guard(id, err)` answers the request itself and returns `err` without
 *    calling `next`.
 * A handler at the end of a route is `Endpoint(id, result)`: it does its
 * work and returns `result`. `ToFunc` is the adapter of http.go:154-159
 * around the node's embedded http.ServeMux: it runs what the dispatch
 * table serves and always returns nil.
 */
module Chains {
  import opened Common
  import opened Text
  import opened Errors

  datatype Middleware =
    | Marker(id: nat)
    | Guard(id: nat, err: Err)

  datatype Event =
    | Enter(id: nat)
    | Exit(id: nat)
    | Rejected(id: nat)
    | Handled(id: nat)
    | ErrHandled(handler: nat, err: Option<Err>)
    | NotFound(path: string)
    | NotAllowed(path: string)

  datatype Outcome = Outcome(trace: seq<Event>, err: Option<Err>)

  datatype HandlerFunc =
    | Endpoint(id: nat, result: Option<Err>)
    | ToFunc
    | Wrapped(mw: Middleware, next: HandlerFunc)

  /**
   * Calling the handler. `served` is what the embedded http.ServeMux does
   * when the chain reaches `ToFunc`.
   */
  function Run(h: HandlerFunc, served: seq<Event>): (o: Outcome)
  {
    match h
    case Endpoint(id, result) => Outcome([Handled(id)], result)
    case ToFunc => Outcome(served, None)
    case Wrapped(Marker(id), next) =>
      var o := Run(next, served);
      Outcome([Enter(id)] + o.trace + [Exit(id)], o.err)
    case Wrapped(Guard(id, err), _) => Outcome([Rejected(id)], Some(err))
  }

  /** `ms[0](ms[1](...ms[k-1](h)))`: the first middleware is the outermost layer. */
  function Nested(ms: seq<Middleware>, h: HandlerFunc): (r: HandlerFunc)
  {
    if ms == [] then h else Wrapped(ms[0], Nested(ms[1..], h))
  }

  /** use (http.go:141-147): wraps from the last middleware to the first. */
  method Use(h: HandlerFunc, ms: seq<Middleware>) returns (r: HandlerFunc)
    ensures r == Nested(ms, h)
  {
    r := h;
    var i := |ms|;
    while i > 0
      invariant 0 <= i <= |ms|
      invariant r == Nested(ms[i..], h)
    {
      i := i - 1;
      assert ms[i..][1..] == ms[i + 1..];
      r := Wrapped(ms[i], r);
    }
  }

  /** The layers entered on the way in, outermost first. */
  function Enters(ms: seq<Middleware>): seq<Event>
  {
    if ms == [] then [] else [Enter(ms[0].id)] + Enters(ms[1..])
  }

  /** The layers left on the way out, innermost first. */
  function Exits(ms: seq<Middleware>): seq<Event>
  {
    if ms == [] then [] else Exits(ms[1..]) + [Exit(ms[0].id)]
  }

  /** The position of the outermost Guard, if any. */
  function FirstGuard(ms: seq<Middleware>): (r: Option<nat>)
    ensures r.Some? ==> r.value < |ms| && ms[r.value].Guard? && forall j | 0 <= j < r.value :: ms[j].Marker?
    ensures r.None? ==> forall j | 0 <= j < |ms| :: ms[j].Marker?
  {
    if ms == [] then None
    else if ms[0].Guard? then Some(0)
    else match FirstGuard(ms[1..])
      case None => None
      case Some(k) => Some(k + 1)
  }

  /**
   * The onion: every Marker before the first Guard is entered in order and
   * left in reverse order; the first Guard answers and nothing inside it
   * runs; without a Guard the wrapped handler runs in the middle and its
   * error comes out unchanged.
   */
  function Onion(ms: seq<Middleware>, h: HandlerFunc, served: seq<Event>): (o: Outcome)
  {
    match FirstGuard(ms)
    case None => Outcome(Enters(ms) + Run(h, served).trace + Exits(ms), Run(h, served).err)
    case Some(k) => Outcome(Enters(ms[..k]) + [Rejected(ms[k].id)] + Exits(ms[..k]), Some(ms[k].err))
  }

  lemma {:induction false} RunNested(ms: seq<Middleware>, h: HandlerFunc, served: seq<Event>)
    ensures Run(Nested(ms, h), served) == Onion(ms, h, served)
    decreases |ms|
  {
    if ms != [] {
      RunNested(ms[1..], h, served);
      if ms[0].Marker? {
        OnionMarker(ms, h, served);
      }
    }
  }

  /** An outer Marker adds one Enter in front and one Exit behind whatever the inner layers do. */
  lemma OnionMarker(ms: seq<Middleware>, h: HandlerFunc, served: seq<Event>)
    requires ms != [] && ms[0].Marker?
    requires Run(Nested(ms[1..], h), served) == Onion(ms[1..], h, served)
    ensures Run(Nested(ms, h), served) == Onion(ms, h, served)
  {
    var inner := Onion(ms[1..], h, served);
    assert Run(Nested(ms, h), served) == Outcome([Enter(ms[0].id)] + inner.trace + [Exit(ms[0].id)], inner.err);
    if FirstGuard(ms[1..]).Some? {
      OnionMarkerGuarded(ms, h, served);
    } else {
      OnionMarkerPlain(ms, h, served);
    }
  }

  /** Without a Guard the outer Marker's Enter goes first among the Enters and its Exit last among the Exits. */
  lemma OnionMarkerPlain(ms: seq<Middleware>, h: HandlerFunc, served: seq<Event>)
    requires ms != [] && ms[0].Marker? && FirstGuard(ms[1..]).None?
    ensures Onion(ms, h, served).trace == [Enter(ms[0].id)] + Onion(ms[1..], h, served).trace + [Exit(ms[0].id)]
    ensures Onion(ms, h, served).err == Onion(ms[1..], h, served).err
  {
    var a, b, c := Enters(ms[1..]), Run(h, served).trace, Exits(ms[1..]);
    var e, x := [Enter(ms[0].id)], [Exit(ms[0].id)];
    assert FirstGuard(ms) == None;
    assert Enters(ms) == e + a;
    assert Exits(ms) == c + x;
    assert e + a + b + (c + x) == e + (a + b + c) + x;
  }

  /** The Guard inside an outer Marker is the first Guard of the whole list, one place further. */
  lemma OnionMarkerGuarded(ms: seq<Middleware>, h: HandlerFunc, served: seq<Event>)
    requires ms != [] && ms[0].Marker? && FirstGuard(ms[1..]).Some?
    ensures Onion(ms, h, served).trace == [Enter(ms[0].id)] + Onion(ms[1..], h, served).trace + [Exit(ms[0].id)]
    ensures Onion(ms, h, served).err == Onion(ms[1..], h, served).err
  {
    var k := FirstGuard(ms[1..]).value;
    assert FirstGuard(ms) == Some(k + 1);
    assert ms[..k + 1][1..] == ms[1..][..k];
    assert ms[..k + 1][0] == ms[0];
  }

  /** Wrapping in two steps is wrapping in the concatenated list (Use called twice). */
  lemma {:induction false} NestedAppend(a: seq<Middleware>, b: seq<Middleware>, h: HandlerFunc)
    ensures Nested(a + b, h) == Nested(a, Nested(b, h))
    decreases |a|
  {
    if a != [] {
      assert (a + b)[1..] == a[1..] + b;
      NestedAppend(a[1..], b, h);
    } else {
      assert a + b == b;
    }
  }

  /**
   * Around the ServeMux adapter the chain's error is nil unless a Guard
   * answered, and then it is that Guard's error: an error a route handler
   * returns never surfaces here.
   */
  lemma NodeChainError(ms: seq<Middleware>, served: seq<Event>)
    ensures Run(Nested(ms, ToFunc), served).err ==
              if FirstGuard(ms).None? then None else Some(ms[FirstGuard(ms).value].err)
  {
    RunNested(ms, ToFunc, served);
  }

  /** The events a handler's error is passed to an ErrHandler in. */
  function ErrHandledCount(trace: seq<Event>): nat
  {
    if trace == [] then 0 else (if trace[0].ErrHandled? then 1 else 0) + ErrHandledCount(trace[1..])
  }

  lemma {:induction false} ErrHandledCountAppend(a: seq<Event>, b: seq<Event>)
    ensures ErrHandledCount(a + b) == ErrHandledCount(a) + ErrHandledCount(b)
    decreases |a|
  {
    if a != [] {
      assert (a + b)[1..] == a[1..] + b;
      ErrHandledCountAppend(a[1..], b);
    } else {
      assert a + b == b;
    }
  }

  /** Entering and leaving middleware calls no ErrHandler. */
  lemma {:induction false} MarkersHandleNoError(ms: seq<Middleware>)
    ensures ErrHandledCount(Enters(ms)) == 0 && ErrHandledCount(Exits(ms)) == 0
    decreases |ms|
  {
    if ms != [] {
      MarkersHandleNoError(ms[1..]);
      ErrHandledCountAppend([Enter(ms[0].id)], Enters(ms[1..]));
      ErrHandledCountAppend(Exits(ms[1..]), [Exit(ms[0].id)]);
    }
  }

  /** The errors passed to ErrHandlers along a trace, in order. */
  function Errs(trace: seq<Event>): (r: seq<Option<Err>>)
    ensures |r| == ErrHandledCount(trace)
  {
    if trace == [] then [] else (if trace[0].ErrHandled? then [trace[0].err] else []) + Errs(trace[1..])
  }

  lemma {:induction false} ErrsAppend(a: seq<Event>, b: seq<Event>)
    ensures Errs(a + b) == Errs(a) + Errs(b)
    decreases |a|
  {
    if a != [] {
      assert (a + b)[1..] == a[1..] + b;
      ErrsAppend(a[1..], b);
    } else {
      assert a + b == b;
    }
  }

  /**
   * A handler called with nothing for the adapter to serve calls no
   * ErrHandler, whatever its middleware: Markers and Guards only enter,
   * leave or answer.
   */
  lemma {:induction false} RunHandlesNoError(h: HandlerFunc)
    ensures ErrHandledCount(Run(h, []).trace) == 0
  {
    match h
    case Endpoint(_, _) =>
    case ToFunc =>
    case Wrapped(Marker(id), next) =>
      RunHandlesNoError(next);
      ErrHandledCountAppend([Enter(id)], Run(next, []).trace);
      ErrHandledCountAppend([Enter(id)] + Run(next, []).trace, [Exit(id)]);
    case Wrapped(Guard(_, _), _) =>
  }

  /** A chain that does not contain the ServeMux adapter. */
  predicate IsRouteChain(h: HandlerFunc)
  {
    match h
    case Endpoint(_, _) => true
    case ToFunc => false
    case Wrapped(_, next) => IsRouteChain(next)
  }

  /** A route's chain never calls an ErrHandler itself: that is left to HandleFunc's closure. */
  lemma {:induction false} RouteChainHandlesNoError(h: HandlerFunc, served: seq<Event>)
    requires IsRouteChain(h)
    ensures ErrHandledCount(Run(h, served).trace) == 0
  {
    match h
    case Endpoint(_, _) =>
    case Wrapped(Marker(id), next) =>
      RouteChainHandlesNoError(next, served);
      ErrHandledCountAppend([Enter(id)], Run(next, served).trace);
      ErrHandledCountAppend([Enter(id)] + Run(next, served).trace, [Exit(id)]);
    case Wrapped(Guard(_, _), _) =>
  }

  /** use on a route handler keeps it a route chain. */
  lemma {:induction false} NestedRouteChain(ms: seq<Middleware>, h: HandlerFunc)
    requires IsRouteChain(h)
    ensures IsRouteChain(Nested(ms, h))
    decreases |ms|
  {
    if ms != [] {
      NestedRouteChain(ms[1..], h);
    }
  }

  // ---------------------------------------------------------------------------
  // The buffer the tests' marker middlewares write to
  // ---------------------------------------------------------------------------

  /** A Marker writes its id on the way in and "-" followed by its id on the way out. */
  function Mark(e: Event): string
  {
    match e
    case Enter(id) => Decimal(id)
    case Exit(id) => "-" + Decimal(id)
    case _ => ""
  }

  function Render(trace: seq<Event>): string
  {
    if trace == [] then "" else Mark(trace[0]) + Render(trace[1..])
  }

  lemma {:induction false} RenderAppend(a: seq<Event>, b: seq<Event>)
    ensures Render(a + b) == Render(a) + Render(b)
    decreases |a|
  {
    if a != [] {
      assert (a + b)[1..] == a[1..] + b;
      RenderAppend(a[1..], b);
    } else {
      assert a + b == b;
    }
  }
}
