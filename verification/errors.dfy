/**
 * The error values of the core (error.go): HTTPError, a heap object whose
 * Internal field is set in place by SetInternal, the forty predefined
 * HTTPErrors that the package shares as globals, and the default
 * centralized error handler.
 *
 * An internal error is an `errors.New` value, identified here by its text.
 */
module Errors {
  import opened Common
  import opened Text
  import opened NetHttp
  import Json
  import HelperWriter

  /** An error made by errors.New (or any error that is not an *HTTPError). */
  datatype Failure = Failure(text: string)

  /** A non-nil `error` as the core sees it: an *HTTPError or any other error. */
  datatype Err = HTTP(he: HTTPError) | Other(failure: Failure)

  /** The text Error() builds from the three fields. */
  function Format(code: int, msg: string, internal: Option<Failure>): (s: string)
  {
    "code=" + Decimal(code) + ", message=" + msg + InternalSuffix(internal)
  }

  /** What Error() appends for a non-nil Internal. */
  function InternalSuffix(internal: Option<Failure>): string
  {
    if internal.None? then "" else ", internal=" + internal.value.text
  }

  /** Reads the status code back from the front of an Error() text. */
  function ParseCode(s: string): (code: Option<int>)
  {
    if !HasPrefix(s, "code=") then None
    else
      var rest := s[5..];
      match Index(rest, ",")
      case None => None
      case Some(j) => ParseDecimal(rest[..j])
  }

  class HTTPError {
    var statusCode: int
    var msg: string
    var internal: Option<Failure>

    /** NewHTTPError */
    constructor (statusCode: int, msg: string)
      ensures this.statusCode == statusCode && this.msg == msg && internal == None
    {
      this.statusCode := statusCode;
      this.msg := msg;
      internal := None;
    }

    /**
     * Sets Internal on this very object and returns it, so every alias sees
     * the change; a nil error clears it.
     */
    method SetInternal(err: Option<Failure>) returns (r: HTTPError)
      modifies this`internal
      ensures r == this && internal == err
    {
      internal := err;
      r := this;
    }

    function Error(): (s: string)
      reads this
      ensures ParseCode(s) == Some(statusCode)
    {
      FormatCodeRoundTrip(statusCode, msg, internal);
      Format(statusCode, msg, internal)
    }

    /** The internal error, which is exactly what Error() reports after the code and the message. */
    function Unwrap(): (err: Option<Failure>)
      reads this
      ensures err.None? ==> Error() == Format(statusCode, msg, None)
      ensures err.Some? ==> Error() == Format(statusCode, msg, None) + ", internal=" + err.value.text
    {
      if internal.Some? then FormatInternalExtends(statusCode, msg, internal.value); internal else internal
    }
  }

  /** The code is recoverable from every Error() text, whatever the message holds. */
  lemma FormatCodeRoundTrip(code: int, msg: string, internal: Option<Failure>)
    ensures ParseCode(Format(code, msg, internal)) == Some(code)
  {
    var d := Decimal(code);
    var tail := ", message=" + msg + InternalSuffix(internal);
    assert Format(code, msg, internal) == "code=" + (d + tail);
    DecimalHasNoComma(code);
    DecimalRoundTrip(code);
    ParseCodeOf(d, tail, code);
  }

  /** The text opens with the code and the message, whatever the internal error. */
  lemma FormatStartsWith(code: int, msg: string, internal: Option<Failure>)
    ensures HasPrefix(Format(code, msg, internal), "code=" + Decimal(code) + ", message=" + msg)
  {
    var head := "code=" + Decimal(code) + ", message=" + msg;
    assert Format(code, msg, internal) == head + InternalSuffix(internal);
    assert (head + InternalSuffix(internal))[..|head|] == head;
  }

  lemma ParseCodeOf(d: string, tail: string, code: int)
    requires forall i | 0 <= i < |d| :: d[i] != ','
    requires ParseDecimal(d) == Some(code)
    requires |tail| > 0 && tail[0] == ','
    ensures ParseCode("code=" + (d + tail)) == Some(code)
  {
    var s := "code=" + (d + tail);
    assert s[5..] == d + tail;
    FirstCommaAfter(d, tail);
    assert (d + tail)[..|d|] == d;
  }

  /** In a comma-free run followed by a comma, the first comma is the one right after the run. */
  lemma FirstCommaAfter(d: string, tail: string)
    requires forall i | 0 <= i < |d| :: d[i] != ','
    requires |tail| > 0 && tail[0] == ','
    ensures Index(d + tail, ",") == Some(|d|)
  {
    var t := d + tail;
    assert OccursAt(t, ",", |d|) by {
      assert t[|d|..|d| + 1] == [tail[0]];
    }
    forall j | 0 <= j < |d| ensures !OccursAt(t, ",", j) {
      assert t[j..j + 1] == [d[j]];
    }
    IndexFromLeftmost(t, ",", 0);
  }

  lemma DecimalOf404()
    ensures Decimal(404) == "404"
  {
    assert NatDigits(404) == NatDigits(40) + [DigitChar(4)];
    assert NatDigits(40) == NatDigits(4) + [DigitChar(0)];
  }

  /** With an internal error the text is the plain one followed by ", internal=<text>". */
  lemma FormatInternalExtends(code: int, msg: string, f: Failure)
    ensures Format(code, msg, Some(f)) == Format(code, msg, None) + ", internal=" + f.text
  {
  }

  /** The string TestHTTPError_Error expects without an internal error. */
  lemma FormatNotFound()
    ensures Format(404, "not found", None) == "code=404, message=not found"
  {
    Format404("not found", None);
  }

  /** The string TestHTTPError_Error expects once the internal error is set. */
  lemma FormatNotFoundInternal()
    ensures Format(404, "not found", Some(Failure("internal error")))
            == "code=404, message=not found, internal=internal error"
  {
    FormatNotFound();
    FormatInternalExtends(404, "not found", Failure("internal error"));
  }

  lemma Format404(msg: string, internal: Option<Failure>)
    ensures Format(404, msg, internal) == "code=404, message=" + msg + InternalSuffix(internal)
  {
    DecimalOf404();
  }

  /** helper: a status code with its reason phrase. */
  function Helper(code: int): (r: (int, string))
    ensures r.0 == code && r.1 == StatusText(code)
  {
    (code, StatusText(code))
  }

  /** The codes of the predefined errors, ErrBadRequest through ErrNetworkAuthenticationRequired. */
  const PredefinedCodes: seq<int> := [
    400, 401, 402, 403, 404, 405, 406, 407, 408, 409, 410, 411, 412, 413, 414, 415, 416, 417, 418,
    421, 422, 423, 424, 425, 426, 428, 429, 431, 451,
    500, 501, 502, 503, 504, 505, 506, 507, 508, 510, 511]

  /** Every predefined error is a client error (4xx) or a server error (5xx). */
  lemma PredefinedAreErrors()
    ensures |PredefinedCodes| == 40
    ensures forall i | 0 <= i < |PredefinedCodes| :: 400 <= PredefinedCodes[i] <= 599
  {
  }

  /**
   * The package-level `var (...)` block: one new HTTPError per predefined
   * code, with the reason phrase as its message and no internal error.
   */
  method NewPredefined() returns (table: map<int, HTTPError>)
    ensures forall c :: c in table <==> c in PredefinedCodes
    ensures forall c | c in table :: fresh(table[c])
    ensures forall c, d | c in table && d in table && c != d :: table[c] != table[d]
    ensures forall c | c in table ::
              table[c].statusCode == c && table[c].msg == StatusText(c) && table[c].internal == None
  {
    table := NewErrors(PredefinedCodes);
  }

  /** One `NewHTTPError(helper(code))` per code, in order. */
  method NewErrors(codes: seq<int>) returns (table: map<int, HTTPError>)
    ensures forall c :: c in table <==> c in codes
    ensures forall c | c in table :: fresh(table[c])
    ensures forall c, d | c in table && d in table && c != d :: table[c] != table[d]
    ensures forall c | c in table ::
              table[c].statusCode == c && table[c].msg == StatusText(c) && table[c].internal == None
  {
    table := map[];
    var i := 0;
    while i < |codes|
      invariant 0 <= i <= |codes|
      invariant forall c :: c in table <==> c in codes[..i]
      invariant forall c | c in table :: fresh(table[c])
      invariant forall c, d | c in table && d in table && c != d :: table[c] != table[d]
      invariant forall c | c in table ::
                  table[c].statusCode == c && table[c].msg == StatusText(c) && table[c].internal == None
    {
      var (code, text) := Helper(codes[i]);
      var e := new HTTPError(code, text);
      assert codes[..i + 1] == codes[..i] + [code];
      table := table[code := e];
      i := i + 1;
    }
    assert codes[..i] == codes;
  }

  /**
   * DefaultErrHandlerFunc: an *HTTPError becomes a JSON response with its
   * status and `{"msg": Msg}`; any other error is only logged.
   */
  method DefaultErrHandlerFunc(err: Err, w: Sink)
    requires err.HTTP? ==> ValidStatus(err.he.statusCode)
    modifies w`header, w`wroteHeader, w`status, w`body
    ensures err.HTTP? ==> Responded(w, MIMEApplicationJSON, err.he.statusCode, Json.EncodeMsgMap(err.he.msg))
    ensures err.Other? ==> unchanged(w)
  {
    match err
    case HTTP(he) =>
      var rw := new HelperWriter.HelperResponseWriter(w);
      rw.JSON(he.statusCode, Json.EncodeMsgMap(he.msg));
    case Other(_) =>
  }

  // ---------------------------------------------------------------------------
  // The behaviour error_test.go pins down, on fresh objects
  // ---------------------------------------------------------------------------

  /** SetInternal returns the receiver, Unwrap then yields the internal error; before, nil. */
  method UnwrapAfterSetInternal() returns (before: Option<Failure>, after: Option<Failure>, same: bool)
    ensures before == None && after == Some(Failure("internal error")) && same
  {
    var e := new HTTPError(500, "server error");
    before := e.Unwrap();
    var r := e.SetInternal(Some(Failure("internal error")));
    after := r.Unwrap();
    same := r == e;
  }

  /** SetInternal(nil) clears the internal error again: Unwrap yields nil and Error() drops its suffix. */
  method ClearInternal(code: int, msg: string) returns (cleared: Option<Failure>, text: string)
    ensures cleared == None && text == Format(code, msg, None)
  {
    var e := new HTTPError(code, msg);
    var _ := e.SetInternal(Some(Failure("internal error")));
    var r := e.SetInternal(None);
    cleared := r.Unwrap();
    text := r.Error();
  }

  /** SetInternal through any alias of a predefined error changes the shared global. */
  method SharedPredefined() returns (before: string, after: string, other: Option<Failure>)
    ensures before == "code=404, message=Not Found"
    ensures after == "code=404, message=Not Found, internal=db down"
    ensures other == None
  {
    var errs := NewPredefined();
    NotFoundIsPredefined();
    NotFoundText();
    var errNotFound := errs[404];
    FormatNotFoundTitle();
    FormatNotFoundDbDown();
    before := errNotFound.Error();
    var alias := errNotFound;
    var _ := alias.SetInternal(Some(Failure("db down")));
    var again := errs[404];
    after := again.Error();
    assert PredefinedCodes[0] == 400;
    other := errs[400].Unwrap();
  }

  lemma NotFoundIsPredefined()
    ensures 404 in PredefinedCodes
  {
    assert PredefinedCodes[4] == 404;
  }

  lemma NotFoundText()
    ensures StatusText(404) == "Not Found"
  {
  }

  lemma FormatNotFoundTitle()
    ensures Format(404, "Not Found", None) == "code=404, message=Not Found"
  {
    Format404("Not Found", None);
  }

  lemma FormatNotFoundDbDown()
    ensures Format(404, "Not Found", Some(Failure("db down"))) == "code=404, message=Not Found, internal=db down"
  {
    FormatNotFoundTitle();
    FormatInternalExtends(404, "Not Found", Failure("db down"));
  }

  /** TestDefaultErrHandlerFunc: status 400 and the body `{"msg":"bad"}` on a fresh recorder. */
  method DefaultHandlerOnRecorder() returns (status: int, body: string, msg: Option<string>)
    ensures status == 400 && body == "{\"msg\":\"bad\"}\n" && msg == Some("bad")
  {
    var rec := new Sink([]);
    var e := new HTTPError(400, "bad");
    DefaultErrHandlerFunc(HTTP(e), rec);
    status, body := rec.status, rec.body;
    Json.EncodeBad();
    Json.DecodeEncodeMsgMap("bad");
    msg := Json.DecodeMsgMap(body);
  }
}
