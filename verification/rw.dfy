/**
 * ResponseWriter (rw.go): the wrapper ServeHTTP puts around every writer.
 * Besides passing calls through, it records whether WriteHeader was called
 * and the last status code passed to it. The ghost `codes` keeps every code
 * passed to WriteHeader, so that the recorded fields can be stated as a
 * function of that history.
 *
 * The embedded http.Pusher of the Go struct is never set by the core and
 * its Push is shadowed by the wrapper's own, so it does not appear here.
 */
module Rw {
  import opened Capability
  import opened NetHttp

  class ResponseWriter {
    /** The embedded http.ResponseWriter. */
    const w: Sink
    var isCommitted: bool
    var statusCode: int
    /** Every code passed to WriteHeader through this wrapper, oldest first. */
    ghost var codes: seq<int>

    /** The recorded fields summarise the history of WriteHeader calls. */
    ghost predicate Valid()
      reads this
    {
      && isCommitted == (codes != [])
      && statusCode == (if codes == [] then 0 else codes[|codes| - 1])
      && forall i | 0 <= i < |codes| :: ValidStatus(codes[i])
    }

    /** `&ResponseWriter{ResponseWriter: w}` */
    constructor (w: Sink)
      ensures this.w == w && codes == [] && Valid()
    {
      this.w := w;
      isCommitted := false;
      statusCode := 0;
      codes := [];
    }

    /** Records the code and forwards it; the wrapped writer keeps its first code. */
    method WriteHeader(code: int)
      requires Valid() && ValidStatus(code)
      modifies this`isCommitted, this`statusCode, this`codes, w`wroteHeader, w`status
      ensures Valid() && codes == old(codes) + [code]
      ensures w.wroteHeader
      ensures w.status == if old(w.wroteHeader) then old(w.status) else code
    {
      isCommitted := true;
      statusCode := code;
      codes := codes + [code];
      w.WriteHeader(code);
    }

    /** The last code passed to WriteHeader, 0 before the first call. */
    function StatusCode(): (c: int)
      requires Valid()
      reads this
      ensures c == if codes == [] then 0 else codes[|codes| - 1]
      ensures c == 0 <==> codes == []
    {
      statusCode
    }

    /** Promoted from the embedded writer: the recorded fields do not change. */
    method Write(data: string)
      modifies w`wroteHeader, w`status, w`body
      ensures w.wroteHeader && w.body == old(w.body) + data
      ensures w.status == if old(w.wroteHeader) then old(w.status) else StatusOK
    {
      w.Write(data);
    }

    /**
     * Write as the recorded status evidently means it: a Write before any
     * WriteHeader commits status 200, and the wrapper records that too.
     */
    method WriteCommitting(data: string)
      requires Valid()
      modifies this`isCommitted, this`statusCode, this`codes, w`wroteHeader, w`status, w`body
      ensures Valid() && codes == if old(isCommitted) then old(codes) else old(codes) + [StatusOK]
      ensures w.wroteHeader && w.body == old(w.body) + data
      ensures w.status == if old(w.wroteHeader) then old(w.status) else StatusOK
    {
      if !isCommitted {
        WriteHeader(StatusOK);
      }
      w.Write(data);
    }

    method Flush()
      modifies w`flushed
      ensures w.flushed == old(w.flushed) + FlushedBy(w.layers)
    {
      var found := Search(w.layers, Flusher);
      if found.Some? {
        w.FlushLayer(found.value);
      }
    }

    method Hijack() returns (r: HijackResult)
      ensures r.Hijacked? ==> Serves(w.layers, Hijacker, r.layer)
      ensures r.HijackFailed? ==> r.msg == ErrNoHijacker && NoneServes(w.layers, Hijacker)
    {
      r := HijackWalk(w.layers);
    }

    method Push(target: string) returns (r: PushResult)
      ensures r.Pushed? ==> Serves(w.layers, Pusher, r.layer) && r.target == target
      ensures r.PushFailed? ==> r.msg == ErrNoPusher && NoneServes(w.layers, Pusher)
    {
      r := PushWalk(w.layers, target);
    }

    /** The wrapped writer, one layer down. */
    function Unwrap(): Sink
    {
      w
    }

    /** `encoded` is what json.Encoder writes for the data, newline included. */
    method JSON(code: int, encoded: string)
      requires Valid() && ValidStatus(code)
      modifies this`isCommitted, this`statusCode, this`codes, w`header, w`wroteHeader, w`status, w`body
      ensures Valid() && codes == old(codes) + [code]
      ensures Responded(w, MIMEApplicationJSON, code, encoded)
    {
      w.SetHeader(HeaderContentType, MIMEApplicationJSON);
      WriteHeader(code);
      Write(encoded);
    }

    method String(code: int, s: string)
      requires Valid() && ValidStatus(code)
      modifies this`isCommitted, this`statusCode, this`codes, w`header, w`wroteHeader, w`status, w`body
      ensures Valid() && codes == old(codes) + [code]
      ensures Responded(w, MIMETextPlainCharsetUTF8, code, s)
    {
      w.SetHeader(HeaderContentType, MIMETextPlainCharsetUTF8);
      WriteHeader(code);
      Write(s);
    }

    method HTML(code: int, html: string)
      requires Valid() && ValidStatus(code)
      modifies this`isCommitted, this`statusCode, this`codes, w`header, w`wroteHeader, w`status, w`body
      ensures Valid() && codes == old(codes) + [code]
      ensures Responded(w, MIMETextHTMLCharsetUTF8, code, html)
    {
      w.SetHeader(HeaderContentType, MIMETextHTMLCharsetUTF8);
      WriteHeader(code);
      Write(html);
    }

    /** `encode(mode)` is what the xml.Encoder configured as `mode` writes for the data. */
    method XML(code: int, encode: XmlIndent -> string, indent: string)
      requires Valid() && ValidStatus(code)
      modifies this`isCommitted, this`statusCode, this`codes, w`header, w`wroteHeader, w`status, w`body
      ensures Valid() && codes == old(codes) + [code]
      ensures Responded(w, MIMEApplicationXMLCharsetUTF8, code,
                        XMLHeader + encode(if indent == "" then NoIndent else IndentWith(indent)))
    {
      w.SetHeader(HeaderContentType, MIMEApplicationXMLCharsetUTF8);
      WriteHeader(code);
      var mode := NoIndent;
      if indent != "" {
        mode := IndentWith(indent);
      }
      Write(XMLHeader);
      Write(encode(mode));
    }
  }

  /** The wrapper ServeHTTP builds hands back, through Unwrap, exactly the writer it was given. */
  method NewThenUnwrap(s: Sink) returns (r: Sink)
    ensures r == s
  {
    var rw := new ResponseWriter(s);
    r := rw.Unwrap();
  }

  /**
   * A handler that only writes a body: the client receives status 200, yet
   * the wrapper still reports 0, so a logger reading StatusCode() sees a
   * status outside 200..399 for a successful response.
   */
  method BodyOnlyStatus(data: string) returns (recorded: int, sent: int)
    ensures recorded == 0 && sent == StatusOK
  {
    var rec := new Sink([]);
    var rw := new ResponseWriter(rec);
    rw.Write(data);
    recorded, sent := rw.StatusCode(), rec.status;
  }

  /** The same handler through WriteCommitting: the recorded status is the one sent. */
  method BodyOnlyStatusCommitting(data: string) returns (recorded: int, sent: int)
    ensures recorded == sent == StatusOK
  {
    var rec := new Sink([]);
    var rw := new ResponseWriter(rec);
    rw.WriteCommitting(data);
    recorded, sent := rw.StatusCode(), rec.status;
  }

  /** A second WriteHeader is recorded by the wrapper although the writer keeps the first. */
  method SecondWriteHeader(first: int, second: int) returns (recorded: int, sent: int)
    requires ValidStatus(first) && ValidStatus(second)
    ensures recorded == second && sent == first
  {
    var rec := new Sink([]);
    var rw := new ResponseWriter(rec);
    rw.WriteHeader(first);
    rw.WriteHeader(second);
    recorded, sent := rw.StatusCode(), rec.status;
  }
}
