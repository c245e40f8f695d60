/**
  The text form in which the settings record is kept in the browser store: what
  `JSON.stringify(config)` writes for a record of three strings, and the part of
  `JSON.parse` that reads such a text back.

  JavaScript strings are sequences of UTF-16 code units; a Dafny `char` is a Unicode scalar
  value, so a string here never holds a lone surrogate and `JSON.stringify` never has to
  write a `\u` escape for one.
 */
module JsonConfig {
  import opened Wrappers
  import opened ApiConfigs

  const Backspace: char := 8 as char
  const FormFeed: char := 12 as char

  /** Lower-case hexadecimal digits, as `JSON.stringify` writes them in `\u00XX`. */
  const HexDigits: string := "0123456789abcdef"

  /** How `JSON.stringify` writes one character inside a string literal. */
  function EscapeChar(c: char): (r: string)
    ensures |r| >= 1
  {
    if c == '"' then "\\\""
    else if c == '\\' then "\\\\"
    else if c == Backspace then "\\b"
    else if c == '\t' then "\\t"
    else if c == '\n' then "\\n"
    else if c == FormFeed then "\\f"
    else if c == '\r' then "\\r"
    else if (c as int) < 0x20 then "\\u00" + [HexDigits[c as int / 16], HexDigits[c as int % 16]]
    else [c]
  }

  /** The body of the string literal `JSON.stringify` writes for `s`. */
  function Escape(s: string): string
  {
    if s == [] then [] else EscapeChar(s[0]) + Escape(s[1..])
  }

  /** The complete string literal, quotes included. */
  function Literal(s: string): string
  {
    "\"" + Escape(s) + "\""
  }

  const BaseUrlKey: string := "{\"baseUrl\":"
  const ApiKeyKey: string := ",\"apiKey\":"
  const InstanceNameKey: string := ",\"instanceName\":"
  const CloseBrace: string := "}"

  /**
    `JSON.stringify(config)`: the keys in the order the form's record holds them
    (the initial state and every `{ ...prev, [field]: value }` keep that order), no spaces.
   */
  function Stringify(c: ApiConfig): (t: string)
    ensures |t| > 0 && t[0] == '{'
  {
    BaseUrlKey + (Literal(c.baseUrl) + (ApiKeyKey + (Literal(c.apiKey)
      + (InstanceNameKey + (Literal(c.instanceName) + CloseBrace)))))
  }

  /** The value of one hexadecimal digit of a `\u` escape; `JSON.parse` takes either case. */
  function HexValue(d: char): (r: Option<nat>)
    ensures r.Some? ==> r.value < 16
  {
    if '0' <= d <= '9' then Some(d as int - '0' as int)
    else if 'a' <= d <= 'f' then Some(d as int - 'a' as int + 10)
    else if 'A' <= d <= 'F' then Some(d as int - 'A' as int + 10)
    else None
  }

  /**
    Reads the escape that follows a backslash: the character it stands for and how many
    characters of `t` it takes. A `\u` escape naming a surrogate is refused (it would need
    the pair of escapes that only an outside writer produces).
   */
  function DecodeEscape(t: string): (r: Option<(char, nat)>)
    ensures r.Some? ==> 1 <= r.value.1 <= |t|
  {
    if |t| == 0 then None
    else if t[0] == '"' then Some(('"', 1))
    else if t[0] == '\\' then Some(('\\', 1))
    else if t[0] == '/' then Some(('/', 1))
    else if t[0] == 'b' then Some((Backspace, 1))
    else if t[0] == 'f' then Some((FormFeed, 1))
    else if t[0] == 'n' then Some(('\n', 1))
    else if t[0] == 'r' then Some(('\r', 1))
    else if t[0] == 't' then Some(('\t', 1))
    else if t[0] == 'u' && |t| >= 5 then
      match (HexValue(t[1]), HexValue(t[2]), HexValue(t[3]), HexValue(t[4]))
      case (Some(a), Some(b), Some(c), Some(d)) =>
        var v := a * 4096 + b * 256 + c * 16 + d;
        if 0xD800 <= v < 0xE000 then None else Some((v as char, 5))
      case _ => None
    else None
  }

  /**
    Reads the rest of a string literal whose opening quote is already consumed: the decoded
    value and the text after the closing quote. A raw control character is refused, as
    `JSON.parse` refuses it.
   */
  function ParseBody(t: string): (r: Option<(string, string)>)
    ensures r.Some? ==> |r.value.1| < |t|
    decreases |t|
  {
    if |t| == 0 then None
    else if t[0] == '"' then Some(("", t[1..]))
    else if t[0] == '\\' then
      match DecodeEscape(t[1..])
      case None => None
      case Some((c, k)) =>
        match ParseBody(t[1 + k..])
        case None => None
        case Some((v, rest)) => Some(([c] + v, rest))
    else if (t[0] as int) < 0x20 then None
    else
      match ParseBody(t[1..])
      case None => None
      case Some((v, rest)) => Some(([t[0]] + v, rest))
  }

  /** Reads one string literal at the start of `t`. */
  function ParseLiteral(t: string): Option<(string, string)>
  {
    if |t| > 0 && t[0] == '"' then ParseBody(t[1..]) else None
  }

  /** `t` with the prefix `p` removed, when `t` starts with `p`. */
  function StripPrefix(t: string, p: string): (r: Option<string>)
    ensures r.Some? ==> t == p + r.value
  {
    if |p| <= |t| && t[..|p|] == p then Some(t[|p|..]) else None
  }

  /** Reads the key `key` and the string literal after it, at the start of `t`. */
  function ParseField(t: string, key: string): Option<(string, string)>
  {
    match StripPrefix(t, key)
    case None => None
    case Some(t1) => ParseLiteral(t1)
  }

  /**
    `JSON.parse` of a stored record in the layout `Stringify` writes; `None` for any other
    text.
   */
  function ParseConfig(t: string): Option<ApiConfig>
  {
    match ParseField(t, BaseUrlKey)
    case None => None
    case Some((baseUrl, t2)) =>
      match ParseField(t2, ApiKeyKey)
      case None => None
      case Some((apiKey, t4)) =>
        match ParseField(t4, InstanceNameKey)
        case None => None
        case Some((instanceName, t6)) =>
          if t6 == CloseBrace then Some(ApiConfig(baseUrl, apiKey, instanceName)) else None
  }

  lemma StripPrefixOf(p: string, x: string)
    ensures StripPrefix(p + x, p) == Some(x)
  {
    assert (p + x)[..|p|] == p;
    assert (p + x)[|p|..] == x;
  }

  lemma HexDigitValue(n: nat)
    requires n < 16
    ensures HexValue(HexDigits[n]) == Some(n)
  {
  }

  /** Every escape `EscapeChar` writes is read back as the character it came from. */
  lemma DecodeEscapeChar(c: char, tail: string)
    requires EscapeChar(c) != [c]
    ensures EscapeChar(c)[0] == '\\'
    ensures DecodeEscape(EscapeChar(c)[1..] + tail) == Some((c, |EscapeChar(c)| - 1))
  {
    var e := EscapeChar(c);
    if (c as int) < 0x20 && c != Backspace && c != '\t' && c != '\n' && c != FormFeed && c != '\r' {
      var hi, lo := c as int / 16, c as int % 16;
      HexDigitValue(0);
      HexDigitValue(hi);
      HexDigitValue(lo);
      var t := e[1..] + tail;
      assert t[..5] == ['u', '0', '0', HexDigits[hi], HexDigits[lo]];
      assert 0 * 4096 + 0 * 256 + hi * 16 + lo == c as int;
    }
  }

  /** One written character in front of a readable body is read along with it. */
  lemma ParseBodyStep(c: char, after: string, v: string, rest: string)
    requires ParseBody(after) == Some((v, rest))
    ensures ParseBody(EscapeChar(c) + after) == Some(([c] + v, rest))
  {
    var e := EscapeChar(c);
    var t := e + after;
    if e == [c] {
      assert t[0] == c && t[1..] == after;
    } else {
      DecodeEscapeChar(c, after);
      assert t[1..] == e[1..] + after;
      assert t[1 + (|e| - 1)..] == after;
    }
  }

  /** Reading back the body `Escape` writes yields the original string and the text after it. */
  lemma {:induction false} ParseBodyEscape(s: string, rest: string)
    ensures ParseBody(Escape(s) + "\"" + rest) == Some((s, rest))
  {
    if s == [] {
      assert Escape(s) + "\"" + rest == "\"" + rest;
    } else {
      var after := Escape(s[1..]) + "\"" + rest;
      assert Escape(s) + "\"" + rest == EscapeChar(s[0]) + after;
      ParseBodyEscape(s[1..], rest);
      ParseBodyStep(s[0], after, s[1..], rest);
      assert [s[0]] + s[1..] == s;
    }
  }

  lemma ParseLiteralOf(s: string, rest: string)
    ensures ParseLiteral(Literal(s) + rest) == Some((s, rest))
  {
    var t := Literal(s) + rest;
    assert t[1..] == Escape(s) + "\"" + rest;
    ParseBodyEscape(s, rest);
  }

  /** A key followed by the literal `JSON.stringify` writes for `s` reads back as `s`. */
  lemma ParseFieldOf(key: string, s: string, rest: string)
    ensures ParseField(key + (Literal(s) + rest), key) == Some((s, rest))
  {
    StripPrefixOf(key, Literal(s) + rest);
    ParseLiteralOf(s, rest);
  }

  /** The stored text of a record parses back to that record, whatever its strings hold. */
  lemma ParseStringify(c: ApiConfig)
    ensures ParseConfig(Stringify(c)) == Some(c)
  {
    var r2 := Literal(c.instanceName) + CloseBrace;
    var r1 := Literal(c.apiKey) + (InstanceNameKey + r2);
    ParseFieldOf(BaseUrlKey, c.baseUrl, ApiKeyKey + r1);
    ParseFieldOf(ApiKeyKey, c.apiKey, InstanceNameKey + r2);
    ParseFieldOf(InstanceNameKey, c.instanceName, CloseBrace);
  }
}
