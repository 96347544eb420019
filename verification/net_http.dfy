/**
 * The surface of Go's `net/http` package that the core talks to: request
 * methods, status codes and their reason phrases, header maps, the request
 * object and the response writer the core wraps.
 *
 * `Sink` stands for the `http.ResponseWriter` handed to the core, with the
 * rules of `httptest.ResponseRecorder`: the first WriteHeader commits the
 * status and later ones are ignored, and a Write before any WriteHeader
 * commits status 200. A server's writer differs for the informational
 * codes 100, 102 and 103, which it sends without committing; the Sink
 * commits them like any other code.
 */
module NetHttp {
  import opened Common
  import opened Capability

  // Request methods (http.MethodGet, ...)
  const MethodGet := "GET"
  const MethodHead := "HEAD"
  const MethodPost := "POST"
  const MethodPut := "PUT"
  const MethodPatch := "PATCH"
  const MethodDelete := "DELETE"
  const MethodConnect := "CONNECT"
  const MethodOptions := "OPTIONS"
  const MethodTrace := "TRACE"

  // Header names and media types used by the core
  const HeaderContentType := "Content-Type"
  const HeaderContentEncoding := "Content-Encoding"
  const MIMEApplicationJSON := "application/json"
  const MIMEApplicationXMLCharsetUTF8 := "application/xml; charset=UTF-8"
  const MIMETextPlainCharsetUTF8 := "text/plain; charset=UTF-8"
  const MIMETextHTMLCharsetUTF8 := "text/html; charset=UTF-8"

  /** xml.Header: the declaration written before an encoded document. */
  const XMLHeader := "<?xml version=\"1.0\" encoding=\"UTF-8\"?>\n"

  /** How an xml.Encoder was configured: untouched, or Indent("", unit) with a non-empty unit. */
  datatype XmlIndent = NoIndent | IndentWith(unit: string)

  const StatusOK := 200
  const StatusUnsupportedMediaType := 415

  /** WriteHeader panics on codes outside 100..999. */
  predicate ValidStatus(code: int) { 100 <= code <= 999 }

  /** http.StatusText: the reason phrase of a registered status code, "" for any other. */
  function StatusText(code: int): string
  {
    match code
    case 100 => "Continue"
    case 101 => "Switching Protocols"
    case 102 => "Processing"
    case 103 => "Early Hints"
    case 200 => "OK"
    case 201 => "Created"
    case 202 => "Accepted"
    case 203 => "Non-Authoritative Information"
    case 204 => "No Content"
    case 205 => "Reset Content"
    case 206 => "Partial Content"
    case 207 => "Multi-Status"
    case 208 => "Already Reported"
    case 226 => "IM Used"
    case 300 => "Multiple Choices"
    case 301 => "Moved Permanently"
    case 302 => "Found"
    case 303 => "See Other"
    case 304 => "Not Modified"
    case 305 => "Use Proxy"
    case 307 => "Temporary Redirect"
    case 308 => "Permanent Redirect"
    case 400 => "Bad Request"
    case 401 => "Unauthorized"
    case 402 => "Payment Required"
    case 403 => "Forbidden"
    case 404 => "Not Found"
    case 405 => "Method Not Allowed"
    case 406 => "Not Acceptable"
    case 407 => "Proxy Authentication Required"
    case 408 => "Request Timeout"
    case 409 => "Conflict"
    case 410 => "Gone"
    case 411 => "Length Required"
    case 412 => "Precondition Failed"
    case 413 => "Request Entity Too Large"
    case 414 => "Request URI Too Long"
    case 415 => "Unsupported Media Type"
    case 416 => "Requested Range Not Satisfiable"
    case 417 => "Expectation Failed"
    case 418 => "I'm a teapot"
    case 421 => "Misdirected Request"
    case 422 => "Unprocessable Entity"
    case 423 => "Locked"
    case 424 => "Failed Dependency"
    case 425 => "Too Early"
    case 426 => "Upgrade Required"
    case 428 => "Precondition Required"
    case 429 => "Too Many Requests"
    case 431 => "Request Header Fields Too Large"
    case 451 => "Unavailable For Legal Reasons"
    case 500 => "Internal Server Error"
    case 501 => "Not Implemented"
    case 502 => "Bad Gateway"
    case 503 => "Service Unavailable"
    case 504 => "Gateway Timeout"
    case 505 => "HTTP Version Not Supported"
    case 506 => "Variant Also Negotiates"
    case 507 => "Insufficient Storage"
    case 508 => "Loop Detected"
    case 510 => "Not Extended"
    case 511 => "Network Authentication Required"
    case _ => ""
  }

  /** http.Header: each field name maps to its list of values. */
  type Header = map<string, seq<string>>

  /** The values of a field, empty when the field is absent (`h[key]`). */
  function Values(h: Header, key: string): seq<string>
  {
    if key in h then h[key] else []
  }

  /** Header.Set: the field now has exactly this one value. */
  function SetValue(h: Header, key: string, value: string): Header
  {
    h[key := [value]]
  }

  /** Header.Add: the value is appended to the field's existing values. */
  function AddValue(h: Header, key: string, value: string): Header
  {
    h[key := Values(h, key) + [value]]
  }

  /** The part of *http.Request the core and the middleware read or update. */
  class Request {
    var httpMethod: string    // Method
    var path: string          // URL.Path
    var contentLength: int    // -1 when unknown
    var header: Header

    constructor (httpMethod: string, path: string, contentLength: int, header: Header)
      ensures this.httpMethod == httpMethod && this.path == path
      ensures this.contentLength == contentLength && this.header == header
    {
      this.httpMethod := httpMethod;
      this.path := path;
      this.contentLength := contentLength;
      this.header := header;
    }
  }

  /** The http.ResponseWriter the core wraps (see the module comment). */
  class Sink {
    var header: Header
    var wroteHeader: bool
    var status: int
    var body: string
    /** Layers whose own Flush ran, as indexes into `layers`, in call order. */
    var flushed: seq<nat>
    /** This writer (`layers[0]`) and the writers its Unwrap chain leads to. */
    const layers: seq<Layer>

    constructor (layers: seq<Layer>)
      ensures header == map[] && !wroteHeader && status == StatusOK && body == [] && flushed == []
      ensures this.layers == layers
    {
      header := map[];
      wroteHeader := false;
      status := StatusOK;
      body := [];
      flushed := [];
      this.layers := layers;
    }

    method SetHeader(key: string, value: string)
      modifies this`header
      ensures header == SetValue(old(header), key, value)
    {
      header := SetValue(header, key, value);
    }

    method AddHeader(key: string, value: string)
      modifies this`header
      ensures header == AddValue(old(header), key, value)
    {
      header := AddValue(header, key, value);
    }

    /** The first call commits the status; later calls are ignored. */
    method WriteHeader(code: int)
      requires ValidStatus(code)
      modifies this`wroteHeader, this`status
      ensures wroteHeader
      ensures status == if old(wroteHeader) then old(status) else code
    {
      if !wroteHeader {
        wroteHeader := true;
        status := code;
      }
    }

    /** Appends to the body, committing status 200 first when nothing was committed yet. */
    method Write(data: string)
      modifies this`wroteHeader, this`status, this`body
      ensures wroteHeader && body == old(body) + data
      ensures status == if old(wroteHeader) then old(status) else StatusOK
    {
      if !wroteHeader {
        WriteHeader(StatusOK);
      }
      body := body + data;
    }

    /** The Flush of the layer at `layer` runs. */
    method FlushLayer(layer: nat)
      modifies this`flushed
      ensures flushed == old(flushed) + [layer]
    {
      flushed := flushed + [layer];
    }
  }

  /**
   * The effect every response helper has on the writer: Content-Type is set
   * to `contentType`, the status `code` is committed unless an earlier one
   * was, and exactly `data` is appended to the body.
   */
  twostate predicate Responded(w: Sink, contentType: string, code: int, data: string)
    reads w
  {
    && w.header == SetValue(old(w.header), HeaderContentType, contentType)
    && w.wroteHeader
    && w.status == (if old(w.wroteHeader) then old(w.status) else code)
    && w.body == old(w.body) + data
  }
}
