/**
 * The one JSON document the core produces itself: `Map{"msg": m}` passed to
 * a `json.Encoder` (error.go:22). The encoder writes an object with the one
 * key, the message as a JSON string escaped the way encoding/json escapes
 * (HTML-safe: `<`, `>` and `&` become `\u003c`, `\u003e`, `\u0026`), and a
 * trailing newline. A reader of that body is defined beside it, and reading
 * back what the encoder wrote recovers the message exactly.
 */
module Json {
  import opened Common
  import opened Text

  const HexDigits := "0123456789abcdef"

  function HexDigit(n: nat): char
    requires n < 16
  {
    HexDigits[n]
  }

  /** The escape encoding/json writes for one character of a string. */
  function EscapeChar(c: char): string
  {
    var n := c as int;
    if c == '"' || c == '\\' then ['\\', c]
    else if n == 8 then "\\b"
    else if n == 12 then "\\f"
    else if n == 10 then "\\n"
    else if n == 13 then "\\r"
    else if n == 9 then "\\t"
    else if n < 0x20 || c == '<' || c == '>' || c == '&' then
      "\\u00" + [HexDigit(n / 16), HexDigit(n % 16)]
    else if n == 0x2028 then "\\u2028"
    else if n == 0x2029 then "\\u2029"
    else [c]
  }

  function Escape(s: string): string
    decreases |s|
  {
    if s == [] then [] else EscapeChar(s[0]) + Escape(s[1..])
  }

  /** json.NewEncoder(w).Encode(Map{"msg": msg}): the bytes written. */
  /** The body never contains '<', '>' or '&', whatever the message holds. */
  function EncodeMsgMap(msg: string): (body: string)
    ensures forall i | 0 <= i < |body| :: body[i] != '<' && body[i] != '>' && body[i] != '&'
  {
    var e := Escape(msg);
    EscapeIsHtmlSafe(msg);
    var body := "{\"msg\":\"" + e + "\"}\n";
    assert forall i | 8 <= i < 8 + |e| :: body[i] == e[i - 8];
    body
  }

  // ---------------------------------------------------------------------------
  // Reading a JSON string body back
  // ---------------------------------------------------------------------------

  function HexValue(c: char): (r: Option<nat>)
    ensures r.Some? ==> r.value < 16
  {
    if '0' <= c <= '9' then Some(c as int - 48)
    else if 'a' <= c <= 'f' then Some(c as int - 87)
    else if 'A' <= c <= 'F' then Some(c as int - 55)
    else None
  }

  /** The code point written by `\uXXXX`; surrogate halves are not accepted. */
  function Hex4(t: string): Option<char>
    requires |t| == 4
  {
    var a := HexValue(t[0]);
    var b := HexValue(t[1]);
    var c := HexValue(t[2]);
    var d := HexValue(t[3]);
    if a.None? || b.None? || c.None? || d.None? then None
    else
      var v := a.value * 4096 + b.value * 256 + c.value * 16 + d.value;
      if 0xD800 <= v < 0xE000 then None else Some(v as char)
  }

  /** The meaning of a two-character escape `\x`. */
  function ShortEscape(x: char): Option<char>
  {
    match x
    case '"' => Some('"')
    case '\\' => Some('\\')
    case '/' => Some('/')
    case 'b' => Some(8 as char)
    case 'f' => Some(12 as char)
    case 'n' => Some(10 as char)
    case 'r' => Some(13 as char)
    case 't' => Some(9 as char)
    case _ => None
  }

  /** Decodes the inside of a JSON string literal; None when it is not well formed. */
  function Unescape(t: string): Option<string>
    decreases |t|
  {
    if t == [] then Some([])
    else if t[0] == '"' || (t[0] as int) < 0x20 then None
    else if t[0] != '\\' then
      match Unescape(t[1..])
      case None => None
      case Some(rest) => Some([t[0]] + rest)
    else if |t| >= 2 && ShortEscape(t[1]).Some? then
      match Unescape(t[2..])
      case None => None
      case Some(rest) => Some([ShortEscape(t[1]).value] + rest)
    else if |t| >= 6 && t[1] == 'u' && Hex4(t[2..6]).Some? then
      match Unescape(t[6..])
      case None => None
      case Some(rest) => Some([Hex4(t[2..6]).value] + rest)
    else None
  }

  /** Reads the body of a `{"msg": ...}` response back into the message. */
  function DecodeMsgMap(body: string): Option<string>
  {
    var open := "{\"msg\":\"";
    var close := "\"}\n";
    if |body| >= |open| + |close| && HasPrefix(body, open) && HasSuffix(body, close) then
      Unescape(body[|open|..|body| - |close|])
    else None
  }

  lemma HexDigitValue(n: nat)
    requires n < 16
    ensures HexValue(HexDigit(n)) == Some(n)
  {
    assert HexDigits[n] as int == if n < 10 then 48 + n else 87 + n;
  }

  /** One escaped character reads back as that character. */
  lemma UnescapeChar(c: char, rest: string)
    ensures Unescape(EscapeChar(c) + rest) ==
              match Unescape(rest)
              case None => None
              case Some(r) => Some([c] + r)
  {
    var n := c as int;
    if c == '"' || c == '\\' || n == 8 || n == 12 || n == 10 || n == 13 || n == 9 {
      UnescapeShort(c, rest);
    } else if n < 0x20 || c == '<' || c == '>' || c == '&' {
      UnescapeLow(c, rest);
    } else if n == 0x2028 || n == 0x2029 {
      UnescapeSeparator(c, rest);
    } else {
      var t := EscapeChar(c) + rest;
      assert t[0] == c && t[1..] == rest;
    }
  }

  lemma UnescapeShort(c: char, rest: string)
    requires c == '"' || c == '\\' || c as int in {8, 12, 10, 13, 9}
    ensures Unescape(EscapeChar(c) + rest) ==
              match Unescape(rest)
              case None => None
              case Some(r) => Some([c] + r)
  {
    var e := EscapeChar(c);
    var t := e + rest;
    assert |e| == 2 && t[0] == '\\' && t[1] == e[1];
    assert t[2..] == rest;
  }

  lemma UnescapeLow(c: char, rest: string)
    requires (c as int < 0x20 || c == '<' || c == '>' || c == '&') && !(c as int in {8, 12, 10, 13, 9})
    ensures Unescape(EscapeChar(c) + rest) ==
              match Unescape(rest)
              case None => None
              case Some(r) => Some([c] + r)
  {
    var n := c as int;
    var t := EscapeChar(c) + rest;
    HexDigitValue(n / 16);
    HexDigitValue(n % 16);
    assert t[0] == '\\' && t[1] == 'u';
    assert t[2..6] == ['0', '0', HexDigit(n / 16), HexDigit(n % 16)];
    assert Hex4(t[2..6]) == Some(c);
    assert t[6..] == rest;
  }

  lemma UnescapeSeparator(c: char, rest: string)
    requires c as int == 0x2028 || c as int == 0x2029
    ensures Unescape(EscapeChar(c) + rest) ==
              match Unescape(rest)
              case None => None
              case Some(r) => Some([c] + r)
  {
    var e := EscapeChar(c);
    var t := e + rest;
    assert t[2..6] == e[2..6];
    assert Hex4(t[2..6]) == Some(c);
    assert t[6..] == rest;
  }

  /** Unescape reverses Escape on every string. */
  lemma {:induction false} UnescapeEscape(s: string)
    ensures Unescape(Escape(s)) == Some(s)
    decreases |s|
  {
    if s != [] {
      UnescapeEscape(s[1..]);
      UnescapeChar(s[0], Escape(s[1..]));
      assert [s[0]] + s[1..] == s;
    }
  }

  /** The round trip a client relies on: reading the error body yields the message. */
  lemma DecodeEncodeMsgMap(msg: string)
    ensures DecodeMsgMap(EncodeMsgMap(msg)) == Some(msg)
  {
    var body := EncodeMsgMap(msg);
    assert body[8..|body| - 3] == Escape(msg);
    UnescapeEscape(msg);
  }

  /** The body TestErrorHandler expects for the message "bad". */
  lemma EncodeBad()
    ensures EncodeMsgMap("bad") == "{\"msg\":\"bad\"}\n"
  {
    assert Escape("bad") == "bad" by {
      assert Escape("bad") == EscapeChar('b') + Escape("ad");
      assert Escape("ad") == EscapeChar('a') + Escape("d");
      assert Escape("d") == EscapeChar('d') + Escape("");
    }
  }

  /** HTML-significant characters never reach the body unescaped. */
  lemma {:induction false} EscapeIsHtmlSafe(s: string)
    ensures forall i | 0 <= i < |Escape(s)| :: Escape(s)[i] != '<' && Escape(s)[i] != '>' && Escape(s)[i] != '&'
    decreases |s|
  {
    if s != [] {
      EscapeIsHtmlSafe(s[1..]);
      EscapeCharIsHtmlSafe(s[0]);
      assert Escape(s) == EscapeChar(s[0]) + Escape(s[1..]);
    }
  }

  lemma EscapeCharIsHtmlSafe(c: char)
    ensures forall i | 0 <= i < |EscapeChar(c)| :: EscapeChar(c)[i] != '<' && EscapeChar(c)[i] != '>' && EscapeChar(c)[i] != '&'
  {
  }
}
