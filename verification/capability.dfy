/**
 * The capability search of the response-writer wrappers (rw.go:34-79,
 * helper_writer.go:25-70). Flush, Hijack and Push start at the wrapped
 * writer and look at one writer at a time: a writer that offers the
 * capability serves the call; otherwise a writer with an `Unwrap` method
 * hands the search to the writer it wraps; any other writer ends the search
 * without success. An Unwrap chain is finite here: it is a sequence of
 * layers, and running off its end stands for Unwrap returning nil, which
 * the type switch sends to its default case.
 */
module Capability {
  import opened Common

  /** What one writer in an Unwrap chain implements. */
  datatype Layer = Layer(flusher: bool, hijacker: bool, pusher: bool, unwrapper: bool)

  datatype Kind = Flusher | Hijacker | Pusher

  predicate Offers(l: Layer, k: Kind)
  {
    match k
    case Flusher => l.flusher
    case Hijacker => l.hijacker
    case Pusher => l.pusher
  }

  /** The search reaches layer i: every layer before it lacks k and unwraps. */
  predicate Reaches(chain: seq<Layer>, k: Kind, i: nat)
  {
    i <= |chain| && forall j | 0 <= j < i :: !Offers(chain[j], k) && chain[j].unwrapper
  }

  /** Specification of the search: the layer that serves k, starting at layer i. */
  function FirstFrom(chain: seq<Layer>, k: Kind, i: nat): Option<nat>
    requires i <= |chain|
    decreases |chain| - i
  {
    if i == |chain| then None
    else if Offers(chain[i], k) then Some(i)
    else if chain[i].unwrapper then FirstFrom(chain, k, i + 1)
    else None
  }

  function FirstCapable(chain: seq<Layer>, k: Kind): Option<nat>
  {
    FirstFrom(chain, k, 0)
  }

  /**
   * The specification in plain terms: the search answers layer i exactly
   * when the search reaches layer i and that layer offers k.
   */
  lemma {:induction false} FirstFromServes(chain: seq<Layer>, k: Kind, from: nat, i: nat)
    requires from <= |chain| && Reaches(chain, k, from)
    ensures FirstFrom(chain, k, from) == Some(i) <==>
              (from <= i < |chain| && Reaches(chain, k, i) && Offers(chain[i], k))
    decreases |chain| - from
  {
    if from < |chain| && !Offers(chain[from], k) && chain[from].unwrapper {
      FirstFromServes(chain, k, from + 1, i);
    }
  }

  lemma FirstCapableServes(chain: seq<Layer>, k: Kind, i: nat)
    ensures FirstCapable(chain, k) == Some(i) <==> (i < |chain| && Reaches(chain, k, i) && Offers(chain[i], k))
  {
    FirstFromServes(chain, k, 0, i);
  }

  /** No layer serves k exactly when every layer the search reaches lacks k. */
  lemma FirstCapableNone(chain: seq<Layer>, k: Kind)
    ensures FirstCapable(chain, k).None? <==>
              forall i | 0 <= i < |chain| && Reaches(chain, k, i) :: !Offers(chain[i], k)
  {
    if FirstCapable(chain, k).Some? {
      FirstCapableServes(chain, k, FirstCapable(chain, k).value);
    } else {
      forall i | 0 <= i < |chain| && Reaches(chain, k, i) ensures !Offers(chain[i], k) {
        FirstCapableServes(chain, k, i);
      }
    }
  }

  const ErrNoHijacker := "the ResponseWriter didn't implement http.Hijacker"
  const ErrNoPusher := "the ResponseWriter didn't implement http.Pusher"

  /** What Hijack returns: the layer whose own Hijack ran, or the wrapper's error. */
  datatype HijackResult = Hijacked(layer: nat) | HijackFailed(msg: string)

  /** What Push returns: the layer whose own Push ran with the target, or the wrapper's error. */
  datatype PushResult = Pushed(layer: nat, target: string) | PushFailed(msg: string)

  /**
   * `layer` is the one a search for k stops at and serves: it is reached and
   * offers k.
   */
  predicate Serves(chain: seq<Layer>, k: Kind, layer: nat)
  {
    layer < |chain| && Reaches(chain, k, layer) && Offers(chain[layer], k)
  }

  /** Every layer the search for k reaches lacks k. */
  predicate NoneServes(chain: seq<Layer>, k: Kind)
  {
    forall i | 0 <= i < |chain| && Reaches(chain, k, i) :: !Offers(chain[i], k)
  }

  /** The loop the three methods share: `for { switch t := w.(type) { ... } }`. */
  method Search(chain: seq<Layer>, k: Kind) returns (found: Option<nat>)
    ensures found == FirstCapable(chain, k)
  {
    var i := 0;
    while i < |chain|
      invariant 0 <= i <= |chain|
      invariant FirstCapable(chain, k) == FirstFrom(chain, k, i)
      decreases |chain| - i
    {
      if Offers(chain[i], k) {
        return Some(i);
      } else if chain[i].unwrapper {
        i := i + 1;
      } else {
        return None;
      }
    }
    return None;
  }

  /** The walk of Hijack: the serving layer's Hijack runs, or the error comes back. */
  method HijackWalk(chain: seq<Layer>) returns (r: HijackResult)
    ensures r.Hijacked? ==> Serves(chain, Hijacker, r.layer)
    ensures r.HijackFailed? ==> r.msg == ErrNoHijacker && NoneServes(chain, Hijacker)
  {
    var found := Search(chain, Hijacker);
    if found.Some? {
      FirstCapableServes(chain, Hijacker, found.value);
      r := Hijacked(found.value);
    } else {
      FirstCapableNone(chain, Hijacker);
      r := HijackFailed(ErrNoHijacker);
    }
  }

  /** The walk of Push: the serving layer's Push runs with the target, or the error comes back. */
  method PushWalk(chain: seq<Layer>, target: string) returns (r: PushResult)
    ensures r.Pushed? ==> Serves(chain, Pusher, r.layer) && r.target == target
    ensures r.PushFailed? ==> r.msg == ErrNoPusher && NoneServes(chain, Pusher)
  {
    var found := Search(chain, Pusher);
    if found.Some? {
      FirstCapableServes(chain, Pusher, found.value);
      r := Pushed(found.value, target);
    } else {
      FirstCapableNone(chain, Pusher);
      r := PushFailed(ErrNoPusher);
    }
  }

  /** The layers whose Flush runs during one Flush call: the serving one, or none. */
  function FlushedBy(chain: seq<Layer>): (r: seq<nat>)
    ensures |r| <= 1
    ensures forall i | 0 <= i < |r| :: Serves(chain, Flusher, r[i])
    ensures r == [] <==> NoneServes(chain, Flusher)
  {
    var found := FirstCapable(chain, Flusher);
    FirstCapableNone(chain, Flusher);
    if found.Some? then FirstCapableServes(chain, Flusher, found.value); [found.value] else []
  }
}
