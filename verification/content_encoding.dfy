/**
 * AllowContentEncoding (middleware/content_encoding.go): a whitelist of
 * request Content-Encoding values. The whitelist is built once from the
 * arguments, each lower-cased and trimmed of white space; a request with a
 * body passes to `next` only when every Content-Encoding value, normalised
 * the same way, is on the list, and is answered with 415 Unsupported Media
 * Type (section 15.5.16 of RFC 9110) otherwise. A request whose
 * ContentLength is 0 is not checked.
 */
module ContentEncoding {
  import opened Common
  import opened Text
  import opened NetHttp

  /** The form in which encodings are stored and looked up: `strings.TrimSpace(strings.ToLower(e))`. */
  function Normalize(e: string): string
  {
    TrimSpace(ToLower(e))
  }

  /** The keys of `allowedEncodings`: one normalised entry per argument. */
  method AllowedSet(contentEncoding: seq<string>) returns (allowed: set<string>)
    ensures forall e :: e in allowed <==> exists i | 0 <= i < |contentEncoding| :: Normalize(contentEncoding[i]) == e
  {
    allowed := {};
    var i := 0;
    while i < |contentEncoding|
      invariant 0 <= i <= |contentEncoding|
      invariant forall e :: e in allowed <==> exists j | 0 <= j < i :: Normalize(contentEncoding[j]) == e
    {
      allowed := allowed + {Normalize(contentEncoding[i])};
      i := i + 1;
    }
  }

  /**
   * The decision: a request without a body passes; otherwise every
   * Content-Encoding value must be on the list. An absent header is an
   * empty list of values, so it passes.
   */
  predicate Accepts(allowed: set<string>, contentLength: int, encodings: seq<string>)
  {
    contentLength == 0 || forall i | 0 <= i < |encodings| :: Normalize(encodings[i]) in allowed
  }

  /** What the handler did: called `next`, or answered 415 itself. */
  datatype Outcome = Next | Unsupported

  /**
   * The handler AllowContentEncoding returns: the loop stops at the first
   * value not on the list and writes 415; if it runs to the end, `next`
   * serves the request and the writer is left to it.
   */
  method Serve(allowed: set<string>, r: Request, w: Sink) returns (o: Outcome)
    modifies w`wroteHeader, w`status
    ensures o == if Accepts(allowed, r.contentLength, Values(r.header, HeaderContentEncoding)) then Next else Unsupported
    ensures o == Next ==> w.wroteHeader == old(w.wroteHeader) && w.status == old(w.status)
    ensures o == Unsupported ==>
              w.wroteHeader && w.status == if old(w.wroteHeader) then old(w.status) else StatusUnsupportedMediaType
  {
    var requestEncodings := Values(r.header, HeaderContentEncoding);
    if r.contentLength == 0 {
      return Next;
    }
    var i := 0;
    while i < |requestEncodings|
      invariant 0 <= i <= |requestEncodings|
      invariant forall j | 0 <= j < i :: Normalize(requestEncodings[j]) in allowed
    {
      if Normalize(requestEncodings[i]) !in allowed {
        w.WriteHeader(StatusUnsupportedMediaType);
        return Unsupported;
      }
      i := i + 1;
    }
    return Next;
  }

  /** The position of the first value not on the list: the one the 415 is written at. */
  function FirstRejected(allowed: set<string>, encodings: seq<string>): (r: Option<nat>)
    ensures r.Some? ==> r.value < |encodings| && Normalize(encodings[r.value]) !in allowed
    ensures r.Some? ==> forall j | 0 <= j < r.value :: Normalize(encodings[j]) in allowed
    ensures r.None? <==> forall j | 0 <= j < |encodings| :: Normalize(encodings[j]) in allowed
    decreases |encodings|
  {
    if encodings == [] then None
    else if Normalize(encodings[0]) !in allowed then Some(0)
    else match FirstRejected(allowed, encodings[1..])
      case None => None
      case Some(k) => Some(k + 1)
  }

  /** A request with a body is refused exactly when some value is off the list. */
  lemma RefusedIffOffList(allowed: set<string>, contentLength: int, encodings: seq<string>)
    requires contentLength != 0
    ensures !Accepts(allowed, contentLength, encodings) <==> FirstRejected(allowed, encodings).Some?
  {
  }

  /** Normalising twice is normalising once: an entry of the list, sent as stored, is on the list. */
  lemma NormalizeIdempotent(e: string)
    ensures Normalize(Normalize(e)) == Normalize(e)
  {
    var t := Normalize(e);
    TrimSpaceIsSlice(ToLower(e));
    var a, b :| 0 <= a <= b <= |ToLower(e)| && t == ToLower(e)[a..b];
    assert ToLower(t) == t by {
      forall i | 0 <= i < |t| ensures ToLower(t)[i] == t[i] {
        assert t[i] == LowerChar(e[a + i]);
      }
    }
    TrimSpaceOfTrimmed(t);
  }

  /** Every argument, in whatever letter case and surrounded by white space, is accepted. */
  lemma ListedAccepted(contentEncoding: seq<string>, allowed: set<string>, k: nat, value: string, contentLength: int)
    requires forall e :: e in allowed <==> exists i | 0 <= i < |contentEncoding| :: Normalize(contentEncoding[i]) == e
    requires k < |contentEncoding| && Normalize(value) == Normalize(contentEncoding[k])
    ensures Accepts(allowed, contentLength, [value])
  {
  }

  /** A header value is compared whole: "gzip, br" is refused although both gzip and br are allowed. */
  lemma CommaListNotSplit()
    ensures !Accepts({"gzip", "br"}, 10, ["gzip, br"])
  {
    var v := "gzip, br";
    assert ToLower(v) == v;
    TrimSpaceOfTrimmed(v);
    assert Normalize(v) == v;
    assert v != "gzip" && v != "br";
    assert ["gzip, br"][0] == v;
  }
}
