/** JSON values as Python's `json` module holds them. */
module Json {
  import opened PyText

  // A float is carried as the text Python prints for it; no arithmetic is done on it.
  type FloatText = t: string | IsFloatText(t) witness "NaN"

  datatype Field = Field(key: PyStr, val: Json)

  // The fields of an object are in insertion order.
  datatype Json =
    | Null
    | Bool(b: bool)
    | Int(i: int)
    | Float(text: FloatText)
    | Str(s: PyStr)
    | Arr(items: seq<Json>)
    | Obj(fields: seq<Field>)

  // ----- number lexemes: section 6 of RFC 8259, plus the three names Python adds -----

  function DigitRun(s: string): (n: nat)
    ensures n <= |s| && AllDigits(s[..n])
    ensures n < |s| ==> !IsDigit(s[n])
  {
    if s != "" && IsDigit(s[0]) then 1 + DigitRun(s[1..]) else 0
  }

  function Unsigned(t: string): string {
    if t != "" && t[0] == '-' then t[1..] else t
  }

  predicate IsIntText(t: string) {
    var u := Unsigned(t);
    u != "" && AllDigits(u) && (u[0] == '0' ==> |u| == 1)
  }

  function IntValue(t: string): int
    requires IsIntText(t)
  {
    if t[0] == '-' then 0 - NatValue(t[1..]) else NatValue(t)
  }

  predicate IsExponent(s: string) {
    && |s| >= 2 && (s[0] == 'e' || s[0] == 'E')
    && var d := if s[1] == '+' || s[1] == '-' then s[2..] else s[1..]; d != "" && AllDigits(d)
  }

  // what follows the integer part: a fraction, an exponent or both
  predicate IsFloatTail(s: string) {
    && s != ""
    && if s[0] == '.' then
         var m := DigitRun(s[1..]);
         m > 0 && (s[1..][m..] == "" || IsExponent(s[1..][m..]))
       else
         IsExponent(s)
  }

  predicate IsDecimalFloat(u: string) {
    var n := DigitRun(u);
    n > 0 && (u[0] == '0' ==> n == 1) && IsFloatTail(u[n..])
  }

  predicate IsFloatText(t: string) {
    t == "NaN" || t == "Infinity" || t == "-Infinity" || IsDecimalFloat(Unsigned(t))
  }

  // ----- objects as dictionaries -----

  function Lookup(fields: seq<Field>, key: PyStr): (r: Option<Json>)
    ensures r.Some? <==> exists i :: 0 <= i < |fields| && fields[i].key == key
    ensures r.Some? ==> exists i :: 0 <= i < |fields| && fields[i].key == key && fields[i].val == r.value
  {
    if fields == [] then None
    else if fields[0].key == key then Some(fields[0].val)
    else Lookup(fields[1..], key)
  }

  // `mapping.get(key)`, with `None` for a missing key
  function Get(fields: seq<Field>, key: string): (r: Json)
    ensures Lookup(fields, U(key)).Some? ==> r == Lookup(fields, U(key)).value
    ensures Lookup(fields, U(key)).None? ==> r == Null
  {
    match Lookup(fields, U(key))
    case Some(v) => v
    case None => Null
  }

  predicate DistinctKeys(fields: seq<Field>) {
    forall i, j :: 0 <= i < j < |fields| ==> fields[i].key != fields[j].key
  }

  // With distinct keys, every entry is found under its key.
  lemma {:induction false} LookupAt(d: seq<Field>, i: nat)
    requires DistinctKeys(d) && i < |d|
    ensures Lookup(d, d[i].key) == Some(d[i].val)
  {
    if i > 0 {
      LookupAt(d[1..], i - 1);
      assert d[0].key != d[i].key;
    }
  }

  // A Python value: no dictionary holds a key twice.
  predicate WellFormed(v: Json) {
    match v
    case Arr(items) => forall i :: 0 <= i < |items| ==> WellFormed(items[i])
    case Obj(fields) => DistinctKeys(fields) && forall i :: 0 <= i < |fields| ==> WellFormed(fields[i].val)
    case _ => true
  }

  // `bool(value)`
  predicate Truthy(v: Json) {
    match v
    case Null => false
    case Bool(b) => b
    case Int(i) => i != 0
    case Float(text) => text != "0.0" && text != "-0.0"
    case Str(s) => s != []
    case Arr(items) => items != []
    case Obj(fields) => fields != []
  }
}
