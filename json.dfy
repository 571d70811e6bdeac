/**
  `JSON.stringify` of the generated list: an array of `{"name":…,"url":…}` objects,
  without whitespace, with strings escaped as ECMAScript's QuoteJSONString does.
 */
module Json {
  import opened Wrappers
  import opened Assets

  /** The lower-case hexadecimal digit for 0 <= n < 16. */
  function HexDigit(n: nat): (c: char)
    requires n < 16
  {
    "0123456789abcdef"[n]
  }

  /** The value of a lower-case hexadecimal digit. */
  function HexValue(c: char): (v: Option<nat>)
  {
    if '0' <= c <= '9' then Some(c as int - '0' as int)
    else if 'a' <= c <= 'f' then Some(c as int - 'a' as int + 10)
    else None
  }

  lemma HexRoundTrip(n: nat)
    requires n < 16
    ensures HexValue(HexDigit(n)) == Some(n)
  {
  }

  /** The escape of one character inside a JSON string literal. */
  function EscapeChar(c: char): (e: string)
    ensures |e| >= 1
  {
    if c == '"' then "\\\""
    else if c == '\\' then "\\\\"
    else if c == '\U{8}' then "\\b"
    else if c == '\t' then "\\t"
    else if c == '\n' then "\\n"
    else if c == '\U{C}' then "\\f"
    else if c == '\r' then "\\r"
    else if (c as int) < 0x20 then ['\\', 'u', '0', '0', HexDigit((c as int) / 16), HexDigit((c as int) % 16)]
    else [c]
  }

  /** The body of a JSON string literal for s. */
  function Escape(s: string): (e: string)
  {
    if s == [] then [] else EscapeChar(s[0]) + Escape(s[1..])
  }

  /** The decoder of the escapes that Escape emits. */
  function Unescape(t: string): (r: Option<string>)
    decreases |t|
  {
    if t == [] then Some([])
    else if t[0] != '\\' then
      match Unescape(t[1..])
      case Some(rest) => Some([t[0]] + rest)
      case None => None
    else if |t| < 2 then None
    else
      var c := t[1];
      var simple :=
        if c == '"' then Some('"') else if c == '\\' then Some('\\')
        else if c == 'b' then Some('\U{8}') else if c == 't' then Some('\t')
        else if c == 'n' then Some('\n') else if c == 'f' then Some('\U{C}')
        else if c == 'r' then Some('\r') else None;
      if simple.Some? then
        match Unescape(t[2..])
        case Some(rest) => Some([simple.value] + rest)
        case None => None
      else if c == 'u' && |t| >= 6 && t[2] == '0' && t[3] == '0'
              && HexValue(t[4]).Some? && HexValue(t[5]).Some? && HexValue(t[4]).value < 2 then
        var code := HexValue(t[4]).value * 16 + HexValue(t[5]).value;
        match Unescape(t[6..])
        case Some(rest) => Some([code as char] + rest)
        case None => None
      else None
  }

  /** Decoding the escape of one character, followed by anything, gives back the character. */
  lemma UnescapeChar(c: char, t: string)
    ensures Unescape(EscapeChar(c) + t) ==
      match Unescape(t) case Some(rest) => Some([c] + rest) case None => None
  {
    var e := EscapeChar(c);
    if (c as int) < 0x20 && c != '\U{8}' && c != '\t' && c != '\n' && c != '\U{C}' && c != '\r' {
      var n := c as int;
      HexRoundTrip(n / 16);
      HexRoundTrip(n % 16);
      assert (e + t)[6..] == t;
      assert (n / 16 * 16 + n % 16) as char == c;
    } else if |e| == 2 {
      assert (e + t)[2..] == t;
    } else {
      assert (e + t)[1..] == t;
    }
  }

  /** Escaping is reversible, so distinct strings have distinct JSON literals. */
  lemma {:induction false} UnescapeEscape(s: string)
    ensures Unescape(Escape(s)) == Some(s)
  {
    if s != [] {
      UnescapeEscape(s[1..]);
      UnescapeChar(s[0], Escape(s[1..]));
      assert [s[0]] + s[1..] == s;
    }
  }

  lemma EscapeInjective(s1: string, s2: string)
    requires Escape(s1) == Escape(s2)
    ensures s1 == s2
  {
    UnescapeEscape(s1);
    UnescapeEscape(s2);
  }

  /** A character JSON.stringify writes as itself. */
  predicate Plain(c: char)
  {
    c != '"' && c != '\\' && (c as int) >= 0x20
  }

  /** Strings of plain characters, such as object keys and URLs, appear verbatim. */
  lemma {:induction false} EscapePlain(s: string)
    requires forall c :: c in s ==> Plain(c)
    ensures Escape(s) == s
  {
    if s != [] {
      assert s[0] in s && forall c :: c in s[1..] ==> c in s;
      assert EscapeChar(s[0]) == [s[0]];
      EscapePlain(s[1..]);
      assert [s[0]] + s[1..] == s;
    }
  }

  /** A JSON string literal. */
  function Quote(s: string): (literal: string)
  {
    "\"" + Escape(s) + "\""
  }

  /** `{"name":…,"url":…}`. */
  function Record(a: Asset): (json: string)
  {
    "{\"name\":" + Quote(a.name) + ",\"url\":" + Quote(a.url) + "}"
  }

  /** The comma-separated records. */
  function Records(assets: seq<Asset>): (json: string)
  {
    if assets == [] then []
    else if |assets| == 1 then Record(assets[0])
    else Record(assets[0]) + "," + Records(assets[1..])
  }

  /** `JSON.stringify(assets)`; the empty list is `[]`. */
  function Serialize(assets: seq<Asset>): (json: string)
    ensures |json| >= 2 && json[0] == '[' && json[|json| - 1] == ']'
    ensures json == "[]" <==> assets == []
  {
    "[" + Records(assets) + "]"
  }

  /** A record whose fields need no escaping is written with its fields verbatim. */
  lemma RecordPlain(a: Asset)
    requires forall c :: c in a.name ==> Plain(c)
    requires forall c :: c in a.url ==> Plain(c)
    ensures Record(a) == "{\"name\":\"" + a.name + "\",\"url\":\"" + a.url + "\"}"
  {
    EscapePlain(a.name);
    EscapePlain(a.url);
  }

  /** Two records are written comma-separated inside brackets. */
  lemma SerializePair(a: Asset, b: Asset)
    ensures Serialize([a, b]) == "[" + Record(a) + "," + Record(b) + "]"
  {
    var x, y := Record(a), Record(b);
    assert [a, b][1..] == [b];
    assert Records([a, b]) == x + "," + y;
    assert "[" + (x + "," + y) + "]" == "[" + x + "," + y + "]";
  }
}
