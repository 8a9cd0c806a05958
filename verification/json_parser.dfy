/** The grammar of a JSON text, as Python's `json.loads` reads it into a dict in key order. How a
    number is read from its characters is a parameter; a lone surrogate is refused, because no
    character stands for it. */
module JsonParser {
  import opened StrictJson

  /** What a run of number characters stands for, if it is a number at all. */
  type Numbers = string -> Option<Json>

  predicate IsSpace(c: char) { c in {' ', '\t', '\n', '\r'} }
  predicate IsNumberChar(c: char) { IsNumeric(c) || c == 'E' }

  function Skip(s: string): (rest: string)
    ensures |rest| <= |s|
  {
    if |s| > 0 && IsSpace(s[0]) then Skip(s[1..]) else s
  }

  /** The text starts with this character. */
  predicate At(s: string, c: char) { |s| > 0 && s[0] == c }

  /** How far the number characters at the start of a text extend. */
  function NumberRun(s: string): (n: nat)
    ensures n <= |s|
  {
    if |s| > 0 && IsNumberChar(s[0]) then 1 + NumberRun(s[1..]) else 0
  }

  // ---------------------------------------------------------------- strings

  function HexValue(c: char): Option<nat>
  {
    if '0' <= c <= '9' then Some(c as int - '0' as int)
    else if 'a' <= c <= 'f' then Some(c as int - 'a' as int + 10)
    else if 'A' <= c <= 'F' then Some(c as int - 'A' as int + 10)
    else None
  }

  /** Four hexadecimal digits. */
  function HexCode(s: string): (code: Option<nat>)
    ensures code.Some? ==> |s| >= 4 && code.value < 0x1_0000
  {
    if |s| < 4 then None
    else
      var a, b, c, d := HexValue(s[0]), HexValue(s[1]), HexValue(s[2]), HexValue(s[3]);
      if a.None? || b.None? || c.None? || d.None? then None
      else Some(0x1000 * a.value + 0x100 * b.value + 0x10 * c.value + d.value)
  }

  predicate IsHigh(code: nat) { 0xD800 <= code < 0xDC00 }
  predicate IsLow(code: nat) { 0xDC00 <= code < 0xE000 }

  /** The character behind `\u`; two surrogates make one character. */
  function Unicode(s: string): (r: Option<(char, string)>)
    ensures r.Some? ==> |r.value.1| < |s|
  {
    match HexCode(s)
    case None => None
    case Some(code) =>
      if IsHigh(code) && |s| >= 6 && s[4] == '\\' && s[5] == 'u' && HexCode(s[6..]).Some? && IsLow(HexCode(s[6..]).value)
      then Some(((0x1_0000 + 0x400 * (code - 0xD800) + (HexCode(s[6..]).value - 0xDC00)) as char, s[10..]))
      else if IsHigh(code) || IsLow(code) then None
      else Some((code as char, s[4..]))
  }

  /** The character behind a backslash. */
  function Unescape(s: string): (r: Option<(char, string)>)
    ensures r.Some? ==> |r.value.1| < |s|
  {
    if |s| == 0 then None
    else if s[0] in {'\"', '\\', '/'} then Some((s[0], s[1..]))
    else if s[0] == 'n' then Some(('\n', s[1..]))
    else if s[0] == 'r' then Some(('\r', s[1..]))
    else if s[0] == 't' then Some(('\t', s[1..]))
    else if s[0] == 'b' then Some((8 as char, s[1..]))
    else if s[0] == 'f' then Some((12 as char, s[1..]))
    else if s[0] == 'u' then Unicode(s[1..])
    else None
  }

  /** The rest of a string, up to and with its closing quote. */
  function ParseString(s: string): (r: Option<(string, string)>)
    ensures r.Some? ==> |r.value.1| < |s|
    decreases |s|
  {
    if |s| == 0 then None
    else if s[0] == '\"' then Some(("", s[1..]))
    else if s[0] == '\\' then
      match Unescape(s[1..])
      case None => None
      case Some(step) => Prepend(step.0, ParseString(step.1))
    else if s[0] as int < 32 then None
    else Prepend(s[0], ParseString(s[1..]))
  }

  function Prepend(c: char, r: Option<(string, string)>): (p: Option<(string, string)>)
    ensures r.Some? <==> p.Some?
    ensures r.Some? ==> p.value.1 == r.value.1
  {
    if r.None? then None else Some(([c] + r.value.0, r.value.1))
  }

  // ---------------------------------------------------------------- values

  /** A later value of a key replaces an earlier one. */
  function Insert(entries: seq<Entry>, key: string, v: Json): seq<Entry>
  {
    if |entries| == 0 then [Entry(key, v)]
    else if entries[0].key == key then [Entry(key, v)] + entries[1..]
    else if StringLess(key, entries[0].key) then [Entry(key, v)] + entries
    else [entries[0]] + Insert(entries[1..], key, v)
  }

  function ParseValue(numbers: Numbers, s: string): (r: Option<(Json, string)>)
    ensures r.Some? ==> |r.value.1| < |s|
    decreases |s|, 1
  {
    var t := Skip(s);
    if At(t, '\"') then
      match ParseString(t[1..])
      case None => None
      case Some(r) => Some((JString(r.0), r.1))
    else if At(t, '[') then
      if At(Skip(t[1..]), ']') then Some((JList([]), Skip(t[1..])[1..]))
      else
        match ParseItems(numbers, t[1..])
        case None => None
        case Some(r) => Some((JList(r.0), r.1))
    else if At(t, '{') then
      if At(Skip(t[1..]), '}') then Some((JDict([]), Skip(t[1..])[1..]))
      else
        match ParseEntries(numbers, t[1..], [])
        case None => None
        case Some(r) => Some((JDict(r.0), r.1))
    else if "null" <= t then Some((JNull, t[4..]))
    else if "true" <= t then Some((JBool(true), t[4..]))
    else if "false" <= t then Some((JBool(false), t[5..]))
    else if NumberRun(t) == 0 then None
    else
      match numbers(t[..NumberRun(t)])
      case None => None
      case Some(v) => Some((v, t[NumberRun(t)..]))
  }

  /** The items up to and with the closing bracket. */
  function ParseItems(numbers: Numbers, s: string): (r: Option<(seq<Json>, string)>)
    ensures r.Some? ==> |r.value.1| < |s|
    decreases |s|, 2
  {
    match ParseValue(numbers, s)
    case None => None
    case Some(first) =>
      var t := Skip(first.1);
      if At(t, ']') then Some(([first.0], t[1..]))
      else if !At(t, ',') then None
      else
        match ParseItems(numbers, t[1..])
        case None => None
        case Some(rest) => Some(([first.0] + rest.0, rest.1))
  }

  /** A key and its colon. */
  function ParseKey(s: string): (r: Option<(string, string)>)
    ensures r.Some? ==> |r.value.1| < |s|
  {
    var t := Skip(s);
    if !At(t, '\"') then None
    else
      match ParseString(t[1..])
      case None => None
      case Some(key) => if At(Skip(key.1), ':') then Some((key.0, Skip(key.1)[1..])) else None
  }

  /** The entries up to and with the closing brace, added to those before. */
  function ParseEntries(numbers: Numbers, s: string, before: seq<Entry>): (r: Option<(seq<Entry>, string)>)
    ensures r.Some? ==> |r.value.1| < |s|
    decreases |s|, 2
  {
    match ParseKey(s)
    case None => None
    case Some(key) =>
      match ParseValue(numbers, key.1)
      case None => None
      case Some(first) =>
        var t, entries := Skip(first.1), Insert(before, key.0, first.0);
        if At(t, '}') then Some((entries, t[1..]))
        else if !At(t, ',') then None
        else ParseEntries(numbers, t[1..], entries)
  }

  /** The value of a whole text. */
  function ParseText(numbers: Numbers, s: string): Option<Json>
  {
    match ParseValue(numbers, s)
    case None => None
    case Some(r) => if Skip(r.1) == "" then Some(r.0) else None
  }
}
