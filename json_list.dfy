/** The text form of a list of strings in a storage column: what
    `serde_json::to_string::<Vec<String>>` writes (compact, no whitespace)
    and what `serde_json::from_str::<Vec<String>>` accepts back
    (sections 2, 5 and 7 of RFC 8259). */
module JsonList {
  import opened Base

  /** serde_json writes `\u00XX` escapes with lower-case hex digits. */
  function HexDigit(n: nat): (c: char)
    requires n < 16
    ensures IsHexDigit(c) && HexValue(c) == n
  {
    if n < 10 then (('0' as int) + n) as char else (('a' as int) + n - 10) as char
  }

  predicate IsHexDigit(c: char) {
    '0' <= c <= '9' || 'a' <= c <= 'f' || 'A' <= c <= 'F'
  }

  function HexValue(c: char): (n: nat)
    requires IsHexDigit(c)
    ensures n < 16
  {
    if '0' <= c <= '9' then (c as int) - ('0' as int)
    else if 'a' <= c <= 'f' then (c as int) - ('a' as int) + 10
    else (c as int) - ('A' as int) + 10
  }

  predicate IsHex4(s: string) {
    |s| == 4 && IsHexDigit(s[0]) && IsHexDigit(s[1]) && IsHexDigit(s[2]) && IsHexDigit(s[3])
  }

  function Hex4Value(s: string): (n: nat)
    requires IsHex4(s)
    ensures n < 0x10000
  {
    0x1000 * HexValue(s[0]) + 0x100 * HexValue(s[1]) + 0x10 * HexValue(s[2]) + HexValue(s[3])
  }

  /** How serde_json writes one character inside a string literal: quote
      and backslash escaped, the five short control escapes, other control
      characters as `\u00XX`, everything else as itself. */
  function EscapeChar(c: char): (e: string)
    ensures |e| >= 1
    ensures e[0] != '"'
    ensures |e| == 1 <==> e == [c]
  {
    if c == '"' then "\\\""
    else if c == '\\' then "\\\\"
    else if c == '\U{8}' then "\\b"
    else if c == '\t' then "\\t"
    else if c == '\n' then "\\n"
    else if c == '\U{C}' then "\\f"
    else if c == '\r' then "\\r"
    else if (c as int) < 0x20 then "\\u00" + [HexDigit((c as int) / 16), HexDigit((c as int) % 16)]
    else [c]
  }

  function EscapeString(s: string): string {
    if s == [] then "" else EscapeChar(s[0]) + EscapeString(s[1..])
  }

  function QuoteString(s: string): string {
    "\"" + EscapeString(s) + "\""
  }

  function EncodeTail(xs: seq<string>): string {
    if xs == [] then "" else "," + QuoteString(xs[0]) + EncodeTail(xs[1..])
  }

  /** `serde_json::to_string(&xs)` for `xs: Vec<String>`: `["a","b"]`.
      Never empty, so it never collides with the empty-string sentinel
      that stands for an absent list. */
  function EncodeList(xs: seq<string>): (s: string)
    ensures |s| >= 2 && s[0] == '[' && s[|s| - 1] == ']'
  {
    "[" + (if xs == [] then "" else QuoteString(xs[0]) + EncodeTail(xs[1..])) + "]"
  }

  predicate IsJsonWhitespace(c: char) {
    c == ' ' || c == '\t' || c == '\n' || c == '\r'
  }

  function SkipWhitespace(s: string): (r: string)
    ensures |r| <= |s|
    ensures r == s[|s| - |r|..]
    ensures r != [] ==> !IsJsonWhitespace(r[0])
  {
    if s != [] && IsJsonWhitespace(s[0]) then SkipWhitespace(s[1..]) else s
  }

  /** One escape sequence, read after its backslash: the character it
      stands for and the text after it. A `\u` escape of a surrogate must
      be a leading surrogate followed by a `\u` trailing one. */
  function ParseEscape(s: string): (r: Option<(char, string)>)
    ensures r.Some? ==> |r.value.1| < |s|
  {
    if s == [] then None
    else if s[0] == '"' then Some(('"', s[1..]))
    else if s[0] == '\\' then Some(('\\', s[1..]))
    else if s[0] == '/' then Some(('/', s[1..]))
    else if s[0] == 'b' then Some(('\U{8}', s[1..]))
    else if s[0] == 'f' then Some(('\U{C}', s[1..]))
    else if s[0] == 'n' then Some(('\n', s[1..]))
    else if s[0] == 'r' then Some(('\r', s[1..]))
    else if s[0] == 't' then Some(('\t', s[1..]))
    else if s[0] == 'u' && |s| >= 5 && IsHex4(s[1..5]) then
      var hi := Hex4Value(s[1..5]);
      if hi < 0xD800 || 0xDFFF < hi then Some((hi as char, s[5..]))
      else if hi <= 0xDBFF && |s| >= 11 && s[5] == '\\' && s[6] == 'u' && IsHex4(s[7..11]) then
        var lo := Hex4Value(s[7..11]);
        if 0xDC00 <= lo <= 0xDFFF then
          Some(((0x10000 + (hi - 0xD800) * 0x400 + (lo - 0xDC00)) as char, s[11..]))
        else None
      else None
    else None
  }

  /** The rest of a string literal after its opening quote: the decoded
      contents and the text after the closing quote. Raw control
      characters are refused. */
  function ParseStringBody(s: string): (r: Option<(string, string)>)
    ensures r.Some? ==> |r.value.1| < |s|
    decreases |s|
  {
    if s == [] then None
    else if s[0] == '"' then Some(("", s[1..]))
    else if s[0] == '\\' then
      match ParseEscape(s[1..])
      case None => None
      case Some((c, rest)) =>
        match ParseStringBody(rest)
        case None => None
        case Some((t, after)) => Some(([c] + t, after))
    else if (s[0] as int) < 0x20 then None
    else
      match ParseStringBody(s[1..])
      case None => None
      case Some((t, after)) => Some(([s[0]] + t, after))
  }

  /** One or more string elements and the closing bracket, starting at an
      element: the elements and the text after the bracket. */
  function ParseElements(s: string): (r: Option<(seq<string>, string)>)
    ensures r.Some? ==> |r.value.1| < |s| && |r.value.0| >= 1
    decreases |s|
  {
    if s == [] || s[0] != '"' then None
    else
      match ParseStringBody(s[1..])
      case None => None
      case Some((x, rest)) =>
        var t := SkipWhitespace(rest);
        if t != [] && t[0] == ']' then Some(([x], t[1..]))
        else if t != [] && t[0] == ',' then
          match ParseElements(SkipWhitespace(t[1..]))
          case None => None
          case Some((xs, after)) => Some(([x] + xs, after))
        else None
  }

  /** `serde_json::from_str::<Vec<String>>(s).ok()`: a JSON array of
      strings with optional whitespace around the tokens and nothing else. */
  function DecodeList(s: string): (r: Option<seq<string>>)
    ensures r.Some? ==> s != []
  {
    var t := SkipWhitespace(s);
    if t == [] || t[0] != '[' then None
    else
      var u := SkipWhitespace(t[1..]);
      if u != [] && u[0] == ']' then (if SkipWhitespace(u[1..]) == [] then Some([]) else None)
      else
        match ParseElements(u)
        case None => None
        case Some((xs, rest)) => if SkipWhitespace(rest) == [] then Some(xs) else None
  }

  lemma EscapeCharParse(c: char, tail: string)
    requires |EscapeChar(c)| > 1
    ensures EscapeChar(c)[0] == '\\'
    ensures ParseEscape(EscapeChar(c)[1..] + tail) == Some((c, tail))
  {
    var e := EscapeChar(c);
    var s := e[1..] + tail;
    if (c as int) < 0x20 && c != '\U{8}' && c != '\t' && c != '\n' && c != '\U{C}' && c != '\r' {
      var v := c as int;
      assert s[0] == 'u';
      assert s[1..5] == ['0', '0', HexDigit(v / 16), HexDigit(v % 16)];
      assert Hex4Value(s[1..5]) == v;
      assert s[5..] == tail;
    }
  }

  /** A character written as itself is read back as itself. */
  lemma PlainCharStep(c: char, rest: string, t: string, tail: string)
    requires |EscapeChar(c)| == 1
    requires ParseStringBody(rest) == Some((t, tail))
    ensures ParseStringBody(EscapeChar(c) + rest) == Some(([c] + t, tail))
  {
    var s := EscapeChar(c) + rest;
    assert s[0] == c && s[1..] == rest;
  }

  /** A character written as an escape sequence is read back as itself. */
  lemma EscapedCharStep(c: char, rest: string, t: string, tail: string)
    requires |EscapeChar(c)| > 1
    requires ParseStringBody(rest) == Some((t, tail))
    ensures ParseStringBody(EscapeChar(c) + rest) == Some(([c] + t, tail))
  {
    var s := EscapeChar(c) + rest;
    EscapeCharParse(c, rest);
    assert s[0] == '\\' && s[1..] == EscapeChar(c)[1..] + rest;
  }

  /** Reading back an escaped string literal gives the string and stops
      right after its closing quote. */
  lemma {:induction false} EscapeStringParse(x: string, tail: string)
    ensures ParseStringBody(EscapeString(x) + "\"" + tail) == Some((x, tail))
  {
    if x == [] {
      assert EscapeString(x) + "\"" + tail == "\"" + tail;
    } else {
      var c := x[0];
      var rest := EscapeString(x[1..]) + "\"" + tail;
      assert EscapeString(x) + "\"" + tail == EscapeChar(c) + rest;
      EscapeStringParse(x[1..], tail);
      if |EscapeChar(c)| == 1 {
        PlainCharStep(c, rest, x[1..], tail);
      } else {
        EscapedCharStep(c, rest, x[1..], tail);
      }
      assert [c] + x[1..] == x;
    }
  }

  lemma SkipNothing(s: string)
    requires s != [] && !IsJsonWhitespace(s[0])
    ensures SkipWhitespace(s) == s
  {
  }

  lemma ElementsLast(s: string, x: string, after: string)
    requires s != [] && s[0] == '"'
    requires ParseStringBody(s[1..]) == Some((x, after))
    requires after != [] && after[0] == ']'
    ensures ParseElements(s) == Some(([x], after[1..]))
  {
    SkipNothing(after);
  }

  lemma ElementsMore(s: string, x: string, after: string, xs: seq<string>, tail: string)
    requires s != [] && s[0] == '"'
    requires ParseStringBody(s[1..]) == Some((x, after))
    requires after != [] && after[0] == ','
    requires after[1..] != [] && after[1] == '"'
    requires ParseElements(after[1..]) == Some((xs, tail))
    ensures ParseElements(s) == Some(([x] + xs, tail))
  {
    SkipNothing(after);
    SkipNothing(after[1..]);
  }

  lemma {:induction false} ElementsParse(xs: seq<string>, tail: string)
    requires xs != []
    ensures ParseElements(QuoteString(xs[0]) + EncodeTail(xs[1..]) + "]" + tail) == Some((xs, tail))
  {
    if xs[1..] == [] {
      ElementsParseOne(xs, tail);
    } else {
      ElementsParse(xs[1..], tail);
      ElementsParseCons(xs, tail);
    }
  }

  lemma ElementsParseOne(xs: seq<string>, tail: string)
    requires |xs| == 1
    ensures ParseElements(QuoteString(xs[0]) + EncodeTail(xs[1..]) + "]" + tail) == Some((xs, tail))
  {
    var s := QuoteString(xs[0]) + EncodeTail(xs[1..]) + "]" + tail;
    var after := "]" + tail;
    assert s == "\"" + EscapeString(xs[0]) + "\"" + after;
    AfterOpeningQuote(EscapeString(xs[0]), after);
    EscapeStringParse(xs[0], after);
    ElementsLast(s, xs[0], after);
    assert after[1..] == tail;
    assert [xs[0]] == xs;
  }

  /** Splitting `"e"rest` after its opening quote. */
  lemma AfterOpeningQuote(e: string, rest: string)
    ensures ("\"" + e + "\"" + rest)[0] == '"'
    ensures ("\"" + e + "\"" + rest)[1..] == e + "\"" + rest
  {
    assert ("\"" + e + "\"" + rest) == "\"" + (e + "\"" + rest);
  }

  lemma Regroup(q: string, a: string, b: string, tail: string)
    ensures q + ("," + a + b) + "]" + tail == q + ("," + (a + b + "]" + tail))
  {
  }

  /** The text of a list of two or more strings, cut after its first
      element: opening quote, escaped first element, closing quote, and a
      comma before the text of the rest. */
  lemma ConsShape(xs: seq<string>, tail: string)
    requires |xs| >= 2
    ensures QuoteString(xs[0]) + EncodeTail(xs[1..]) + "]" + tail
      == "\"" + EscapeString(xs[0]) + "\"" + ("," + (QuoteString(xs[1]) + EncodeTail(xs[2..]) + "]" + tail))
  {
    var ys := xs[1..];
    assert ys[0] == xs[1] && ys[1..] == xs[2..];
    assert EncodeTail(ys) == "," + QuoteString(xs[1]) + EncodeTail(xs[2..]);
    Regroup(QuoteString(xs[0]), QuoteString(xs[1]), EncodeTail(xs[2..]), tail);
  }

  lemma ElementsParseCons(xs: seq<string>, tail: string)
    requires |xs| >= 2
    requires ParseElements(QuoteString(xs[1]) + EncodeTail(xs[2..]) + "]" + tail) == Some((xs[1..], tail))
    ensures ParseElements(QuoteString(xs[0]) + EncodeTail(xs[1..]) + "]" + tail) == Some((xs, tail))
  {
    var t := QuoteString(xs[1]) + EncodeTail(xs[2..]) + "]" + tail;
    var after := "," + t;
    var e := EscapeString(xs[0]);
    var s := QuoteString(xs[0]) + EncodeTail(xs[1..]) + "]" + tail;
    ConsShape(xs, tail);
    AfterOpeningQuote(e, after);
    EscapeStringParse(xs[0], after);
    assert t[0] == '"' by {
      assert QuoteString(xs[1])[0] == '"';
    }
    assert after[1..] == t;
    ElementsMore(s, xs[0], after, xs[1..], tail);
    assert [xs[0]] + xs[1..] == xs;
  }

  /** Decoding what the encoder wrote gives the list back, the empty list
      included. */
  lemma EncodeDecodeRoundTrip(xs: seq<string>)
    ensures DecodeList(EncodeList(xs)) == Some(xs)
  {
    var s := EncodeList(xs);
    SkipNothing(s);
    if xs == [] {
      assert s == "[]";
      assert s[1..] == "]";
      SkipNothing(s[1..]);
      assert s[1..][1..] == [];
    } else {
      var body := QuoteString(xs[0]) + EncodeTail(xs[1..]) + "]" + "";
      assert s == "[" + body;
      assert s[1..] == body;
      assert QuoteString(xs[0])[0] == '"';
      assert body[0] == '"';
      SkipNothing(body);
      ElementsParse(xs, "");
    }
  }

  /** Two lists with the same column text are the same list. */
  lemma EncodeListInjective(xs: seq<string>, ys: seq<string>)
    requires EncodeList(xs) == EncodeList(ys)
    ensures xs == ys
  {
    EncodeDecodeRoundTrip(xs);
    EncodeDecodeRoundTrip(ys);
  }

  /** Text that is not an array does not decode: after any leading
      whitespace it must open with `[` (so `null`, a number, an object or
      a bare string is refused). */
  lemma DecodeRejectsNonArray(s: string)
    requires s != [] && !IsJsonWhitespace(s[0]) && s[0] != '['
    ensures DecodeList(s) == None
  {
    SkipNothing(s);
  }

  /** An array whose first element is not a string does not decode (a
      number, `null`, `true`, a nested array or an object). */
  lemma DecodeRejectsNonStringElement(s: string)
    requires |s| >= 2 && s[0] == '['
    requires !IsJsonWhitespace(s[1]) && s[1] != '"' && s[1] != ']'
    ensures DecodeList(s) == None
  {
    SkipNothing(s);
    SkipNothing(s[1..]);
  }
}
