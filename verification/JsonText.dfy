/** The compact ASCII text of `json.dumps(value, separators=(",", ":"), ensure_ascii=True)` and
    a parser for the grammar of RFC 8259, sections 3 to 7, without white space. */
module JsonText {
  import opened PyText
  import opened Json

  // ----- surrogates -----

  predicate IsHigh(c: CodePoint) { 0xD800 <= c < 0xDC00 }
  predicate IsLow(c: CodePoint) { 0xDC00 <= c < 0xE000 }

  function Combined(high: CodePoint, low: CodePoint): (c: CodePoint)
    requires IsHigh(high) && IsLow(low)
    ensures c >= 0x1_0000
  {
    0x1_0000 + (high - 0xD800) * 0x400 + (low - 0xDC00)
  }

  function HighOf(c: CodePoint): (h: CodePoint)
    requires c >= 0x1_0000
    ensures IsHigh(h)
  {
    0xD800 + (c - 0x1_0000) / 0x400
  }

  function LowOf(c: CodePoint): (l: CodePoint)
    requires c >= 0x1_0000
    ensures IsLow(l) && Combined(HighOf(c), l) == c
  {
    0xDC00 + (c - 0x1_0000) % 0x400
  }

  /** Reads every high surrogate directly followed by a low one as the code point they encode. */
  function Joined(s: PyStr): PyStr {
    if |s| >= 2 && IsHigh(s[0]) && IsLow(s[1]) then [Combined(s[0], s[1])] + Joined(s[2..])
    else if s == [] then []
    else [s[0]] + Joined(s[1..])
  }

  predicate PairFreeText(s: PyStr) {
    forall i :: 0 <= i < |s| - 1 ==> !(IsHigh(s[i]) && IsLow(s[i + 1]))
  }

  // ----- printing -----

  function HexDigit(n: nat): (c: char)
    requires n < 16
    ensures HexValue(c) == Some(n)
  {
    if n < 10 then ('0' as int + n) as char else ('a' as int + n - 10) as char
  }

  function HexValue(c: char): (r: Option<nat>)
    ensures r.Some? ==> r.value < 16
  {
    if '0' <= c <= '9' then Some(c as int - '0' as int)
    else if 'a' <= c <= 'f' then Some(c as int - 'a' as int + 10)
    else if 'A' <= c <= 'F' then Some(c as int - 'A' as int + 10)
    else None
  }

  function Hex4(n: nat): (s: string)
    requires n < 0x1_0000
    ensures |s| == 4
  {
    [HexDigit(n / 16 / 16 / 16), HexDigit(n / 16 / 16 % 16), HexDigit(n / 16 % 16), HexDigit(n % 16)]
  }

  function UnicodeEscape(n: nat): (s: string)
    requires n < 0x1_0000
    ensures |s| == 6
  {
    "\\u" + Hex4(n)
  }

  function Escape(c: CodePoint): (s: string)
    ensures s != ""
  {
    if c == '\"' as int then "\\\""
    else if c == '\\' as int then "\\\\"
    else if c == 10 then "\\n"
    else if c == 13 then "\\r"
    else if c == 9 then "\\t"
    else if c == 12 then "\\f"
    else if c == 8 then "\\b"
    else if 0x20 <= c <= 0x7E then [c as char]
    else if c < 0x1_0000 then UnicodeEscape(c)
    else UnicodeEscape(HighOf(c)) + UnicodeEscape(LowOf(c))
  }

  function Escaped(s: PyStr): string {
    if s == [] then "" else Escape(s[0]) + Escaped(s[1..])
  }

  function Quoted(s: PyStr): string {
    "\"" + Escaped(s) + "\""
  }

  function Print(v: Json): string
    decreases v, 1
  {
    match v
    case Null => "null"
    case Bool(b) => if b then "true" else "false"
    case Int(i) => IntText(i)
    case Float(text) => text
    case Str(s) => Quoted(s)
    case Arr(items) => if items == [] then "[]" else "[" + PrintItems(items) + "]"
    case Obj(fields) => if fields == [] then "{}" else "{" + PrintFields(fields) + "}"
  }

  function PrintItems(items: seq<Json>): string
    requires items != []
    decreases items, 0
  {
    if |items| == 1 then Print(items[0]) else Print(items[0]) + "," + PrintItems(items[1..])
  }

  function PrintField(f: Field): string
    decreases f, 2
  {
    Quoted(f.key) + ":" + Print(f.val)
  }

  function PrintFields(fields: seq<Field>): string
    requires fields != []
    decreases fields, 0
  {
    if |fields| == 1 then PrintField(fields[0]) else PrintField(fields[0]) + "," + PrintFields(fields[1..])
  }

  // ----- parsing -----

  function ReadHex4(s: string): (r: Option<CodePoint>)
    ensures r.Some? ==> |s| >= 4 && r.value < 0x1_0000
  {
    if |s| < 4 then None
    else match (HexValue(s[0]), HexValue(s[1]), HexValue(s[2]), HexValue(s[3]))
      case (Some(a), Some(b), Some(c), Some(d)) => Some(a * 0x1000 + b * 0x100 + c * 16 + d)
      case _ => None
  }

  // the `\uXXXX` escape at the head of `s`
  function ReadUnicodeEscape(s: string): (r: Option<CodePoint>)
    ensures r.Some? ==> |s| >= 6 && r.value < 0x1_0000
  {
    if |s| >= 2 && s[0] == '\\' && s[1] == 'u' then ReadHex4(s[2..]) else None
  }

  function ShortEscape(c: char): Option<CodePoint> {
    if c == '\"' || c == '\\' || c == '/' then Some(c as int)
    else if c == 'n' then Some(10)
    else if c == 'r' then Some(13)
    else if c == 't' then Some(9)
    else if c == 'f' then Some(12)
    else if c == 'b' then Some(8)
    else None
  }

  // A pair of surrogate escapes stands for one character.
  function ReadEscapedUnit(s: string): (r: Option<(CodePoint, string)>)
    requires ReadUnicodeEscape(s).Some?
    ensures r.Some? && |r.value.1| < |s|
  {
    var high := ReadUnicodeEscape(s).value;
    var low := ReadUnicodeEscape(s[6..]);
    if IsHigh(high) && low.Some? && IsLow(low.value) then
      Some((Combined(high, low.value), s[6..][6..]))
    else
      Some((high, s[6..]))
  }

  // one character of a string body and what follows it
  function ReadChar(s: string): (r: Option<(CodePoint, string)>)
    requires s != ""
    ensures r.Some? ==> |r.value.1| < |s|
  {
    if s[0] != '\\' then
      if s[0] as int < 0x20 then None else Some((s[0] as int, s[1..]))
    else if ReadUnicodeEscape(s).Some? then
      ReadEscapedUnit(s)
    else if |s| >= 2 && ShortEscape(s[1]).Some? then
      Some((ShortEscape(s[1]).value, s[2..]))
    else
      None
  }

  // a string body up to and including its closing quote
  function ReadString(s: string): (r: Option<(PyStr, string)>)
    ensures r.Some? ==> |r.value.1| < |s|
    decreases |s|
  {
    if s == "" then None
    else if s[0] == '\"' then Some(([], s[1..]))
    else match ReadChar(s)
      case None => None
      case Some((c, rest)) =>
        match ReadString(rest)
        case None => None
        case Some((cs, rest')) => Some(([c] + cs, rest'))
  }

  predicate IsTokenChar(c: char) {
    IsDigit(c) || 'a' <= c <= 'z' || 'A' <= c <= 'Z' || c == '+' || c == '-' || c == '.'
  }

  function TokenLength(s: string): (n: nat)
    ensures n <= |s|
  {
    if s != "" && IsTokenChar(s[0]) then 1 + TokenLength(s[1..]) else 0
  }

  function TokenJson(t: string): Option<Json> {
    if t == "null" then Some(Null)
    else if t == "true" then Some(Bool(true))
    else if t == "false" then Some(Bool(false))
    else if IsIntText(t) then Some(Int(IntValue(t)))
    else if IsFloatText(t) then Some(Float(t))
    else None
  }

  function ReadToken(s: string): (r: Option<(Json, string)>)
    ensures r.Some? ==> |r.value.1| < |s|
  {
    var n := TokenLength(s);
    if n == 0 then None
    else match TokenJson(s[..n])
      case None => None
      case Some(v) => Some((v, s[n..]))
  }

  function ReadValue(s: string): (r: Option<(Json, string)>)
    ensures r.Some? ==> |r.value.1| < |s|
    decreases |s|, 0
  {
    if s == "" then None
    else if s[0] == '\"' then
      match ReadString(s[1..])
      case None => None
      case Some((text, rest)) => Some((Str(text), rest))
    else if s[0] == '[' then
      if |s| > 1 && s[1] == ']' then Some((Arr([]), s[2..]))
      else match ReadItems(s[1..])
        case None => None
        case Some((items, rest)) => Some((Arr(items), rest))
    else if s[0] == '{' then
      if |s| > 1 && s[1] == '}' then Some((Obj([]), s[2..]))
      else match ReadFields(s[1..])
        case None => None
        case Some((fields, rest)) => Some((Obj(fields), rest))
    else ReadToken(s)
  }

  // the items of an array up to and including the closing bracket
  function ReadItems(s: string): (r: Option<(seq<Json>, string)>)
    ensures r.Some? ==> |r.value.1| < |s|
    decreases |s|, 1
  {
    match ReadValue(s)
    case None => None
    case Some((v, rest)) =>
      if rest == "" then None
      else if rest[0] == ']' then Some(([v], rest[1..]))
      else if rest[0] == ',' then
        match ReadItems(rest[1..])
        case None => None
        case Some((vs, rest')) => Some(([v] + vs, rest'))
      else None
  }

  function ReadField(s: string): (r: Option<(Field, string)>)
    ensures r.Some? ==> |r.value.1| < |s|
    decreases |s|, 1
  {
    if s == "" || s[0] != '\"' then None
    else match ReadString(s[1..])
      case None => None
      case Some((key, rest)) =>
        if rest == "" || rest[0] != ':' then None
        else match ReadValue(rest[1..])
          case None => None
          case Some((v, rest')) => Some((Field(key, v), rest'))
  }

  // the members of an object up to and including the closing brace
  function ReadFields(s: string): (r: Option<(seq<Field>, string)>)
    ensures r.Some? ==> |r.value.1| < |s|
    decreases |s|, 2
  {
    match ReadField(s)
    case None => None
    case Some((f, rest)) =>
      if rest == "" then None
      else if rest[0] == '}' then Some(([f], rest[1..]))
      else if rest[0] == ',' then
        match ReadFields(rest[1..])
        case None => None
        case Some((fs, rest')) => Some(([f] + fs, rest'))
      else None
  }

  /** A whole JSON text. */
  function Parse(s: string): Option<Json> {
    match ReadValue(s)
    case None => None
    case Some((v, rest)) => if rest == "" then Some(v) else None
  }

  // ----- surrogate pairs in values -----

  /** `v` with the surrogate pairs of all its strings and keys joined. */
  function JoinedJson(v: Json): Json
    decreases v, 1
  {
    match v
    case Str(s) => Str(Joined(s))
    case Arr(items) => Arr(JoinedItems(items))
    case Obj(fields) => Obj(JoinedFields(fields))
    case _ => v
  }

  function JoinedItems(items: seq<Json>): (r: seq<Json>)
    ensures |r| == |items|
    decreases items, 0
  {
    if items == [] then [] else [JoinedJson(items[0])] + JoinedItems(items[1..])
  }

  function JoinedFields(fields: seq<Field>): (r: seq<Field>)
    ensures |r| == |fields|
    decreases fields, 0
  {
    if fields == [] then []
    else [Field(Joined(fields[0].key), JoinedJson(fields[0].val))] + JoinedFields(fields[1..])
  }

  /** No string or key holds a high surrogate directly followed by a low one. */
  predicate PairFree(v: Json) {
    match v
    case Str(s) => PairFreeText(s)
    case Arr(items) => forall i :: 0 <= i < |items| ==> PairFree(items[i])
    case Obj(fields) => forall i :: 0 <= i < |fields| ==> PairFreeText(fields[i].key) && PairFree(fields[i].val)
    case _ => true
  }
}
