/**
 * The parts of serde_json the client uses: the dynamic `Value` with its
 * forgiving index operators, and the escaping of strings when a value is
 * written out. Parsing JSON text is an oracle of the callers; the string
 * reader below exists only as the inverse of the writer.
 */
module Json {
  import opened Wrappers

  /** `serde_json::Value`; numbers are kept abstract as integers. */
  datatype Value =
    | Null
    | Bool(b: bool)
    | Number(n: int)
    | String(s: string)
    | Array(items: seq<Value>)
    | Object(fields: map<string, Value>)
  {
    /** `value[i]`: the element, or `Null` out of bounds or on a non-array. */
    function At(i: nat): (r: Value)
      ensures Array? && i < |items| ==> r == items[i]
      ensures !(Array? && i < |items|) ==> r == Null
    {
      if Array? && i < |items| then items[i] else Null
    }

    /** `value["k"]`: the member, or `Null` when absent or on a non-object. */
    function Get(k: string): (r: Value)
      ensures Object? && k in fields ==> r == fields[k]
      ensures !(Object? && k in fields) ==> r == Null
    {
      if Object? && k in fields then fields[k] else Null
    }

    /** The text of a string value, and nothing for every other kind of value. */
    function AsStr(): (r: Option<string>)
      ensures r.Some? <==> String?
      ensures r.Some? ==> r.value == s
    {
      if String? then Some(s) else None
    }

    /** The number of elements `At` can return besides `Null`. */
    function Length(): nat {
      if Array? then |items| else 0
    }
  }

  // ----- Writing strings (serde_json's `format_escaped_str`) -----

  function HexDigit(d: nat): (c: char)
    requires d < 16
  {
    if d < 10 then ('0' as int + d) as char else ('a' as int + d - 10) as char
  }

  /**
   * The text serde_json writes for one character inside a string literal:
   * quote and backslash are escaped, the control characters below U+0020
   * use the short escapes `\b \t \n \f \r` or else `\u00XX` with lower-case
   * hex, and every other character is written as it is.
   */
  function EscapeChar(c: char): (e: string)
    ensures |e| > 0
    ensures e == [c] <==> c != '"' && c != '\\' && c as int >= 0x20
    ensures e != [c] ==> e[0] == '\\'
  {
    if c == '"' then "\\\""
    else if c == '\\' then "\\\\"
    else if c as int == 0x08 then "\\b"
    else if c as int == 0x09 then "\\t"
    else if c as int == 0x0A then "\\n"
    else if c as int == 0x0C then "\\f"
    else if c as int == 0x0D then "\\r"
    else if c as int < 0x20 then "\\u00" + [HexDigit(c as int / 16), HexDigit(c as int % 16)]
    else [c]
  }

  /**
   * The body of a string literal (without the surrounding quotes). Reading
   * it never meets an unescaped quote: the literal cannot end inside it.
   */
  function Escape(s: string): (e: string)
    ensures |e| >= |s|
    ensures ReadString(e) == None
  {
    if s == [] then []
    else
      var t := Escape(s[1..]);
      ReadEscapedChar(s[0], t);
      EscapeChar(s[0]) + t
  }

  // ----- Reading strings back (the writer's inverse) -----

  function HexValue(c: char): Option<nat> {
    if '0' <= c <= '9' then Some(c as int - '0' as int)
    else if 'a' <= c <= 'f' then Some(c as int - 'a' as int + 10)
    else if 'A' <= c <= 'F' then Some(c as int - 'A' as int + 10)
    else None
  }

  lemma HexRoundTrip(d: nat)
    requires d < 16
    ensures HexValue(HexDigit(d)) == Some(d)
  {
  }

  /** The character a `\uXXXX` escape denotes, when it denotes one by itself. */
  function UnicodeEscape(h: string): (r: Option<char>)
    requires |h| == 4
  {
    match (HexValue(h[0]), HexValue(h[1]), HexValue(h[2]), HexValue(h[3]))
    case (Some(a), Some(b), Some(c), Some(d)) =>
      var v := ((a * 16 + b) * 16 + c) * 16 + d;
      if 0xD800 <= v < 0xE000 then None else Some(v as char)
    case _ => None
  }

  /** The character and the length of the escape that follows a backslash. */
  function Unescape(s: string): (r: Option<(char, nat)>)
    ensures r.Some? ==> 0 < r.value.1 <= |s|
  {
    if s == [] then None
    else if s[0] == '"' then Some(('"', 1))
    else if s[0] == '\\' then Some(('\\', 1))
    else if s[0] == '/' then Some(('/', 1))
    else if s[0] == 'b' then Some((0x08 as char, 1))
    else if s[0] == 't' then Some((0x09 as char, 1))
    else if s[0] == 'n' then Some((0x0A as char, 1))
    else if s[0] == 'f' then Some((0x0C as char, 1))
    else if s[0] == 'r' then Some((0x0D as char, 1))
    else if s[0] == 'u' && |s| >= 5 then
      match UnicodeEscape(s[1..5])
      case Some(c) => Some((c, 5))
      case None => None
    else None
  }

  /**
   * Reads a string body up to its closing quote: the decoded text and what
   * follows the quote. Raw control characters are rejected, as in JSON.
   */
  function ReadString(s: string): (r: Option<(string, string)>)
    ensures r.Some? ==> |r.value.1| < |s|
    decreases |s|
  {
    if s == [] then None
    else if s[0] == '"' then Some(([], s[1..]))
    else if s[0] == '\\' then
      match Unescape(s[1..])
      case None => None
      case Some((c, n)) =>
        match ReadString(s[1 + n..])
        case None => None
        case Some((body, rest)) => Some(([c] + body, rest))
    else if s[0] as int < 0x20 then None
    else
      match ReadString(s[1..])
      case None => None
      case Some((body, rest)) => Some(([s[0]] + body, rest))
  }

  /** Reading one escaped character back yields it in front of what follows. */
  lemma ReadEscapedChar(c: char, t: string)
    ensures ReadString(EscapeChar(c) + t) ==
      match ReadString(t)
      case None => None
      case Some((body, rest)) => Some(([c] + body, rest))
  {
    var s := EscapeChar(c) + t;
    if c as int < 0x20 && !(c as int in {0x08, 0x09, 0x0A, 0x0C, 0x0D}) {
      var hi, lo := c as int / 16, c as int % 16;
      HexRoundTrip(hi);
      HexRoundTrip(lo);
      assert s[1..][1..5] == ['0', '0', HexDigit(hi), HexDigit(lo)];
      assert s[6..] == t;
    } else if c == '"' || c == '\\' || c as int in {0x08, 0x09, 0x0A, 0x0C, 0x0D} {
      assert s[2..] == t;
    } else {
      assert s[1..] == t;
    }
  }

  /** The writer's round trip: an escaped body and its closing quote read back as the original. */
  lemma {:induction false} ReadEscape(x: string, rest: string)
    ensures ReadString(Escape(x) + "\"" + rest) == Some((x, rest))
  {
    if x == [] {
      assert Escape(x) + "\"" + rest == "\"" + rest;
    } else {
      var t := Escape(x[1..]) + "\"" + rest;
      assert Escape(x) + "\"" + rest == EscapeChar(x[0]) + t;
      ReadEscapedChar(x[0], t);
      ReadEscape(x[1..], rest);
      assert [x[0]] + x[1..] == x;
    }
  }
}
