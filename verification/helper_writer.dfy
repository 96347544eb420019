/**
 * HelperResponseWriter (helper_writer.go): a wrapper with no state of its
 * own around the writer it is given. WriteHeader, Write and Header pass
 * straight through; Flush, Hijack and Push walk the Unwrap chain below the
 * wrapped writer; the helpers set Content-Type, commit the status and
 * write the body.
 *
 * The JSON and XML encoders are not part of this model: `JSON` takes the
 * bytes the encoder writes, and `XML` takes the encoder as a function of
 * its indentation setting.
 */
module HelperWriter {
  import opened Capability
  import opened NetHttp

  class HelperResponseWriter {
    /** The embedded http.ResponseWriter. */
    const w: Sink

    /** NewHelperRW */
    constructor (w: Sink)
      ensures this.w == w
    {
      this.w := w;
    }

    /** The wrapped writer, one layer down. */
    function Unwrap(): Sink
    {
      w
    }

    /** Promoted from the embedded writer. */
    method WriteHeader(code: int)
      requires ValidStatus(code)
      modifies w`wroteHeader, w`status
      ensures w.wroteHeader
      ensures w.status == if old(w.wroteHeader) then old(w.status) else code
    {
      w.WriteHeader(code);
    }

    /** Promoted from the embedded writer. */
    method Write(data: string)
      modifies w`wroteHeader, w`status, w`body
      ensures w.wroteHeader && w.body == old(w.body) + data
      ensures w.status == if old(w.wroteHeader) then old(w.status) else StatusOK
    {
      w.Write(data);
    }

    method Flush()
      modifies w`flushed
      ensures w.flushed == old(w.flushed) + FlushedBy(w.layers)
    {
      var found := Search(w.layers, Flusher);
      if found.Some? {
        w.FlushLayer(found.value);
      }
    }

    method Hijack() returns (r: HijackResult)
      ensures r.Hijacked? ==> Serves(w.layers, Hijacker, r.layer)
      ensures r.HijackFailed? ==> r.msg == ErrNoHijacker && NoneServes(w.layers, Hijacker)
    {
      r := HijackWalk(w.layers);
    }

    method Push(target: string) returns (r: PushResult)
      ensures r.Pushed? ==> Serves(w.layers, Pusher, r.layer) && r.target == target
      ensures r.PushFailed? ==> r.msg == ErrNoPusher && NoneServes(w.layers, Pusher)
    {
      r := PushWalk(w.layers, target);
    }

    /** `encoded` is what json.Encoder writes for the data, newline included. */
    method JSON(code: int, encoded: string)
      requires ValidStatus(code)
      modifies w`header, w`wroteHeader, w`status, w`body
      ensures Responded(w, MIMEApplicationJSON, code, encoded)
    {
      w.SetHeader(HeaderContentType, MIMEApplicationJSON);
      WriteHeader(code);
      Write(encoded);
    }

    method String(code: int, s: string)
      requires ValidStatus(code)
      modifies w`header, w`wroteHeader, w`status, w`body
      ensures Responded(w, MIMETextPlainCharsetUTF8, code, s)
    {
      w.SetHeader(HeaderContentType, MIMETextPlainCharsetUTF8);
      WriteHeader(code);
      Write(s);
    }

    method HTML(code: int, html: string)
      requires ValidStatus(code)
      modifies w`header, w`wroteHeader, w`status, w`body
      ensures Responded(w, MIMETextHTMLCharsetUTF8, code, html)
    {
      w.SetHeader(HeaderContentType, MIMETextHTMLCharsetUTF8);
      WriteHeader(code);
      Write(html);
    }

    /** `encode(mode)` is what the xml.Encoder configured as `mode` writes for the data. */
    method XML(code: int, encode: XmlIndent -> string, indent: string)
      requires ValidStatus(code)
      modifies w`header, w`wroteHeader, w`status, w`body
      ensures Responded(w, MIMEApplicationXMLCharsetUTF8, code,
                        XMLHeader + encode(if indent == "" then NoIndent else IndentWith(indent)))
    {
      w.SetHeader(HeaderContentType, MIMEApplicationXMLCharsetUTF8);
      WriteHeader(code);
      var mode := NoIndent;
      if indent != "" {
        mode := IndentWith(indent);
      }
      Write(XMLHeader);
      Write(encode(mode));
    }
  }

  /** NewHelperRW keeps the writer it is given, and Unwrap hands back that same writer. */
  method NewThenUnwrap(s: Sink) returns (r: Sink)
    ensures r == s
  {
    var rw := new HelperResponseWriter(s);
    r := rw.Unwrap();
  }

  /** TestHelperResponseWriter_String: a fresh recorder receives 200, text/plain and the string. */
  method StringOnRecorder(s: string) returns (status: int, contentType: seq<string>, body: string)
    ensures status == StatusOK && contentType == [MIMETextPlainCharsetUTF8] && body == s
  {
    var rec := new Sink([Layer(true, false, false, false)]);
    var rw := new HelperResponseWriter(rec);
    rw.String(StatusOK, s);
    status, contentType, body := rec.status, Values(rec.header, HeaderContentType), rec.body;
  }

  /** TestHelperResponseWriter_XML: the body opens with the XML declaration and a newline. */
  method XmlOnRecorder(code: int, encode: XmlIndent -> string) returns (status: int, body: string)
    requires ValidStatus(code)
    ensures status == code
    ensures body == "<?xml version=\"1.0\" encoding=\"UTF-8\"?>\n" + encode(IndentWith("  "))
  {
    var rec := new Sink([Layer(true, false, false, false)]);
    var rw := new HelperResponseWriter(rec);
    rw.XML(code, encode, "  ");
    status, body := rec.status, rec.body;
  }
}
