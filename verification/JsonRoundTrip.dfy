/** Reading back what was printed. */
module JsonRoundTrip {
  import opened PyText
  import opened Json
  import opened JsonText

  // ----- strings -----

  lemma ReadPrintedHex4(n: nat, k: string)
    requires n < 0x1_0000
    ensures ReadHex4(Hex4(n) + k) == Some(n)
  {
    var s := Hex4(n) + k;
    assert s[0] == HexDigit(n / 16 / 16 / 16) && s[1] == HexDigit(n / 16 / 16 % 16);
    assert s[2] == HexDigit(n / 16 % 16) && s[3] == HexDigit(n % 16);
  }

  lemma ReadPrintedUnicodeEscape(n: nat, k: string)
    requires n < 0x1_0000
    ensures ReadUnicodeEscape(UnicodeEscape(n) + k) == Some(n)
    ensures (UnicodeEscape(n) + k)[6..] == k
  {
    ReadPrintedHex4(n, k);
    assert (UnicodeEscape(n) + k)[2..] == Hex4(n) + k;
  }

  // the text that closes a string whose remaining characters are `s`
  function Body(s: PyStr, k: string): (r: string)
    ensures r != ""
  {
    Escaped(s) + ("\"" + k)
  }

  lemma BodyStep(s: PyStr, k: string)
    requires s != []
    ensures Body(s, k) == Escape(s[0]) + Body(s[1..], k)
  {
  }

  // Only a low surrogate prints as the escape of one.
  lemma HeadEscape(s: PyStr, k: string)
    ensures var r := ReadUnicodeEscape(Body(s, k));
            if s != [] && IsLow(s[0]) then r == Some(s[0]) else r.Some? ==> !IsLow(r.value)
  {
    if s != [] {
      BodyStep(s, k);
      var c, rest := s[0], Body(s[1..], k);
      if c >= 0x1_0000 {
        var low := UnicodeEscape(LowOf(c));
        assert Escape(c) + rest == UnicodeEscape(HighOf(c)) + (low + rest);
        ReadPrintedUnicodeEscape(HighOf(c), low + rest);
      } else if Escape(c) == UnicodeEscape(c) {
        ReadPrintedUnicodeEscape(c, rest);
      }
    }
  }

  lemma ReadPrintedPair(high: CodePoint, low: CodePoint, k: string)
    requires IsHigh(high) && IsLow(low)
    ensures ReadChar(UnicodeEscape(high) + (UnicodeEscape(low) + k)) == Some((Combined(high, low), k))
  {
    ReadPrintedUnicodeEscape(high, UnicodeEscape(low) + k);
    ReadPrintedUnicodeEscape(low, k);
  }

  lemma ReadPrintedUnit(c: CodePoint, k: string)
    requires c < 0x1_0000
    requires IsHigh(c) ==> var r := ReadUnicodeEscape(k); r.Some? ==> !IsLow(r.value)
    ensures ReadChar(UnicodeEscape(c) + k) == Some((c, k))
  {
    ReadPrintedUnicodeEscape(c, k);
  }

  lemma ReadPrintedShort(c: CodePoint, k: string)
    requires c < 0x1_0000 && Escape(c) != UnicodeEscape(c)
    ensures ReadChar(Escape(c) + k) == Some((c, k))
  {
    var t := Escape(c) + k;
    if |Escape(c)| == 2 {
      assert t[0] == '\\' && t[1] == Escape(c)[1] && t[2..] == k;
      assert ReadUnicodeEscape(t).None?;
    } else {
      assert t[1..] == k;
    }
  }

  lemma ReadPrintedAstral(c: CodePoint, k: string)
    requires c >= 0x1_0000
    ensures ReadChar(Escape(c) + k) == Some((c, k))
  {
    Assoc(UnicodeEscape(HighOf(c)), UnicodeEscape(LowOf(c)), k);
    ReadPrintedPair(HighOf(c), LowOf(c), k);
  }

  lemma Assoc(a: string, b: string, c: string)
    ensures (a + b) + c == a + (b + c)
  {
  }

  lemma EscapeHead(c: CodePoint, k: string)
    ensures (Escape(c) + k)[0] != '\"'
  {
  }

  lemma SurrogateEscape(c: CodePoint)
    requires IsHigh(c) || IsLow(c)
    ensures Escape(c) == UnicodeEscape(c)
  {
  }

  // The reader undoes a character that does not start a pair of surrogates.
  lemma ReadPrintedSingle(s: PyStr, k: string)
    requires s != [] && !(|s| >= 2 && IsHigh(s[0]) && IsLow(s[1]))
    ensures ReadChar(Escape(s[0]) + Body(s[1..], k)) == Some((s[0], Body(s[1..], k)))
  {
    var c, rest := s[0], Body(s[1..], k);
    if c >= 0x1_0000 {
      ReadPrintedAstral(c, rest);
    } else if Escape(c) == UnicodeEscape(c) {
      HeadEscape(s[1..], k);
      ReadPrintedUnit(c, rest);
    } else {
      ReadPrintedShort(c, rest);
    }
  }

  // One step of the reader undoes one character, or one pair of surrogates.
  lemma ReadPrintedChar(s: PyStr, k: string)
    requires s != []
    ensures Body(s, k)[0] != '\"'
    ensures ReadChar(Body(s, k)) ==
            if |s| >= 2 && IsHigh(s[0]) && IsLow(s[1]) then Some((Combined(s[0], s[1]), Body(s[2..], k)))
            else Some((s[0], Body(s[1..], k)))
  {
    BodyStep(s, k);
    EscapeHead(s[0], Body(s[1..], k));
    if |s| >= 2 && IsHigh(s[0]) && IsLow(s[1]) {
      BodyStep(s[1..], k);
      assert s[1..][1..] == s[2..];
      SurrogateEscape(s[0]);
      SurrogateEscape(s[1]);
      ReadPrintedPair(s[0], s[1], Body(s[2..], k));
    } else {
      ReadPrintedSingle(s, k);
    }
  }

  lemma {:induction false} ReadPrintedString(s: PyStr, k: string)
    ensures ReadString(Body(s, k)) == Some((Joined(s), k))
    decreases |s|
  {
    if s == [] {
      assert Body(s, k) == "\"" + k && Body(s, k)[1..] == k;
    } else {
      ReadPrintedChar(s, k);
      ReadPrintedString(if |s| >= 2 && IsHigh(s[0]) && IsLow(s[1]) then s[2..] else s[1..], k);
    }
  }

  lemma QuotedIsBody(s: PyStr, k: string)
    ensures Quoted(s) + k == "\"" + Body(s, k)
    ensures (Quoted(s) + k)[1..] == Body(s, k)
  {
    Assoc("\"" + Escaped(s), "\"", k);
    Assoc("\"", Escaped(s), "\"" + k);
  }

  lemma ReadQuoted(s: PyStr, k: string)
    ensures Quoted(s) + k != "" && (Quoted(s) + k)[0] == '\"'
    ensures ReadString((Quoted(s) + k)[1..]) == Some((Joined(s), k))
  {
    ReadPrintedString(s, k);
    QuotedIsBody(s, k);
  }

  // ----- scalar tokens -----

  lemma {:induction false} TokenEnds(t: string, k: string)
    requires AllTokenChars(t)
    requires k != "" ==> !IsTokenChar(k[0])
    ensures TokenLength(t + k) == |t|
  {
    if t == "" {
      assert t + k == k;
    } else {
      TokenEnds(t[1..], k);
      assert (t + k)[1..] == t[1..] + k;
    }
  }

  lemma ReadPrintedToken(t: string, v: Json, k: string)
    requires t != "" && AllTokenChars(t)
    requires k != "" ==> !IsTokenChar(k[0])
    requires TokenJson(t) == Some(v)
    ensures ReadValue(t + k) == Some((v, k))
  {
    TokenEnds(t, k);
    TokenCut(t, k);
    TokenIsRead(t + k);
  }

  lemma TokenCut(t: string, k: string)
    ensures (t + k)[..|t|] == t && (t + k)[|t|..] == k
  {
  }

  lemma TokenIsRead(s: string)
    requires s != "" && IsTokenChar(s[0])
    ensures ReadValue(s) == ReadToken(s)
  {
  }

  lemma IntTextReads(i: int)
    ensures TokenJson(IntText(i)) == Some(Int(i))
    ensures AllTokenChars(IntText(i))
  {
    var t := IntText(i);
    NatValueDecimal(if i < 0 then -i else i);
    if i < 0 {
      assert t[1..] == Decimal(-i);
    }
  }

  lemma UnsignedFloatCharacters(u: string)
    requires IsDecimalFloat(u)
    ensures u != "" && IsDigit(u[0]) && AllTokenChars(u) && !AllDigits(u)
  {
    var n := DigitRun(u);
    FloatTailCharacters(u[n..]);
    TokenCharsConcat(u[..n], u[n..]);
    assert u == u[..n] + u[n..];
    assert u[n] == u[n..][0] && !IsDigit(u[n]);
    assert u[..n][0] == u[0];
  }

  lemma DecimalFloatCharacters(t: string)
    requires IsDecimalFloat(Unsigned(t))
    ensures t != "" && (t[0] == '-' || IsDigit(t[0])) && AllTokenChars(t) && !IsIntText(t)
  {
    var u := Unsigned(t);
    UnsignedFloatCharacters(u);
    FloatIsNoInt(t);
    if u != t {
      assert t == t[..1] + u;
      TokenCharsConcat(t[..1], u);
    }
  }

  lemma FloatIsNoInt(t: string)
    requires IsDecimalFloat(Unsigned(t))
    ensures !IsIntText(t)
  {
    UnsignedFloatCharacters(Unsigned(t));
  }

  lemma FloatTextReads(t: FloatText)
    ensures t != "" && TokenJson(t) == Some(Float(t))
    ensures AllTokenChars(t)
  {
    if IsDecimalFloat(Unsigned(t)) {
      DecimalFloatCharacters(t);
      assert t[0] != 'n' && t[0] != 't' && t[0] != 'f';
    } else {
      assert !IsDigit(Unsigned(t)[0]);
      assert AllTokenChars(t);
    }
  }

  predicate AllTokenChars(s: string) {
    forall i :: 0 <= i < |s| ==> IsTokenChar(s[i])
  }

  lemma TokenCharsConcat(a: string, b: string)
    requires AllTokenChars(a) && AllTokenChars(b)
    ensures AllTokenChars(a + b)
  {
  }

  lemma ExponentCharacters(s: string)
    requires IsExponent(s)
    ensures AllTokenChars(s)
  {
    if s[1] == '+' || s[1] == '-' {
      TokenCharsConcat(s[..2], s[2..]);
      assert s == s[..2] + s[2..];
    } else {
      TokenCharsConcat(s[..1], s[1..]);
      assert s == s[..1] + s[1..];
    }
  }

  lemma FloatTailCharacters(s: string)
    requires IsFloatTail(s)
    ensures AllTokenChars(s) && !IsDigit(s[0])
  {
    if s[0] == '.' {
      var r, m := s[1..], DigitRun(s[1..]);
      if r[m..] != "" {
        ExponentCharacters(r[m..]);
      }
      TokenCharsConcat(r[..m], r[m..]);
      assert r == r[..m] + r[m..];
      TokenCharsConcat(s[..1], r);
      assert s == s[..1] + r;
    } else {
      ExponentCharacters(s);
    }
  }

  // ----- values -----

  // what may follow a printed value without running into it
  predicate Delimited(k: string) {
    k != "" ==> !IsTokenChar(k[0])
  }

  lemma ReadPrintedScalar(v: Json, k: string)
    requires Delimited(k)
    requires !v.Arr? && !v.Obj?
    ensures ReadValue(Print(v) + k) == Some((JoinedJson(v), k))
  {
    match v
    case Null => ReadPrintedToken("null", v, k);
    case Bool(b) => ReadPrintedToken(Print(v), v, k);
    case Int(i) => IntTextReads(i); ReadPrintedToken(Print(v), v, k);
    case Float(text) => FloatTextReads(text); ReadPrintedToken(text, v, k);
    case Str(s) => ReadQuoted(s, k);
  }

  lemma ReadArray(inner: string, items: seq<Json>, k: string)
    requires inner != "" && inner[0] != ']'
    requires ReadItems(inner + ("]" + k)) == Some((items, k))
    ensures ReadValue(("[" + inner + "]") + k) == Some((Arr(items), k))
  {
    var t := ("[" + inner + "]") + k;
    assert t[1..] == inner + ("]" + k);
    assert t[1] == inner[0];
  }

  lemma ReadObject(inner: string, fields: seq<Field>, k: string)
    requires inner != "" && inner[0] != '}'
    requires ReadFields(inner + ("}" + k)) == Some((fields, k))
    ensures ReadValue(("{" + inner + "}") + k) == Some((Obj(fields), k))
  {
    var t := ("{" + inner + "}") + k;
    assert t[1..] == inner + ("}" + k);
    assert t[1] == inner[0];
  }

  /** Every printed value reads back as itself, up to the joining of surrogate pairs. */
  lemma {:induction false} ReadPrinted(v: Json, k: string)
    requires Delimited(k)
    ensures ReadValue(Print(v) + k) == Some((JoinedJson(v), k))
    decreases v, 1
  {
    match v
    case Arr(items) =>
      if items == [] {
        assert ("[]" + k)[2..] == k;
      } else {
        ReadPrintedItems(items, k);
        PrintItemsHead(items);
        ReadArray(PrintItems(items), JoinedItems(items), k);
      }
    case Obj(fields) =>
      if fields == [] {
        assert ("{}" + k)[2..] == k;
      } else {
        ReadPrintedFields(fields, k);
        PrintFieldsHead(fields);
        ReadObject(PrintFields(fields), JoinedFields(fields), k);
      }
    case _ => ReadPrintedScalar(v, k);
  }

  lemma PrintHead(v: Json)
    ensures Print(v) != "" && Print(v)[0] != ']'
  {
    match v
    case Int(i) => IntTextReads(i);
    case Float(text) => FloatTextReads(text);
    case _ =>
  }

  lemma PrintItemsHead(items: seq<Json>)
    requires items != []
    ensures PrintItems(items) != "" && PrintItems(items)[0] != ']'
  {
    PrintHead(items[0]);
  }

  lemma PrintFieldsHead(fields: seq<Field>)
    requires fields != []
    ensures PrintFields(fields) != "" && PrintFields(fields)[0] == '\"'
  {
  }

  lemma ReadLastItem(text: string, v: Json, k: string)
    requires ReadValue(text + ("]" + k)) == Some((v, "]" + k))
    ensures ReadItems(text + ("]" + k)) == Some(([v], k))
  {
    assert ("]" + k)[1..] == k;
  }

  lemma ReadNextItem(text: string, v: Json, others: string, vs: seq<Json>, k: string)
    requires ReadValue(text + ("," + others)) == Some((v, "," + others))
    requires ReadItems(others) == Some((vs, k))
    ensures ReadItems(text + ("," + others)) == Some(([v] + vs, k))
  {
    assert ("," + others)[1..] == others;
  }

  lemma Regroup(first: string, others: string, k: string)
    ensures (first + "," + others) + k == first + ("," + (others + k))
  {
  }

  lemma {:induction false} ReadPrintedItems(items: seq<Json>, k: string)
    requires items != []
    ensures ReadItems(PrintItems(items) + ("]" + k)) == Some((JoinedItems(items), k))
    decreases items, 0
  {
    var text := Print(items[0]);
    if |items| == 1 {
      ReadPrinted(items[0], "]" + k);
      ReadLastItem(text, JoinedJson(items[0]), k);
      assert JoinedItems(items) == [JoinedJson(items[0])];
    } else {
      var others := PrintItems(items[1..]) + ("]" + k);
      ReadPrintedItems(items[1..], k);
      ReadPrinted(items[0], "," + others);
      ReadNextItem(text, JoinedJson(items[0]), others, JoinedItems(items[1..]), k);
      assert PrintItems(items) + ("]" + k) == text + ("," + others) by {
        Regroup(text, PrintItems(items[1..]), "]" + k);
      }
    }
  }

  lemma ReadFieldParts(text: string, key: PyStr, valueText: string, v: Json, k: string)
    requires text != "" && text[0] == '\"'
    requires ReadString(text[1..]) == Some((key, ":" + valueText))
    requires ReadValue(valueText) == Some((v, k))
    ensures ReadField(text) == Some((Field(key, v), k))
  {
    assert (":" + valueText)[1..] == valueText;
  }

  lemma {:induction false} ReadPrintedField(f: Field, k: string)
    requires Delimited(k)
    ensures ReadField(PrintField(f) + k) == Some((Field(Joined(f.key), JoinedJson(f.val)), k))
    decreases f, 2
  {
    ReadPrinted(f.val, k);
    ReadQuoted(f.key, ":" + (Print(f.val) + k));
    ReadFieldParts(Quoted(f.key) + (":" + (Print(f.val) + k)), Joined(f.key), Print(f.val) + k, JoinedJson(f.val), k);
    Assoc(Quoted(f.key) + ":", Print(f.val), k);
    Assoc(Quoted(f.key), ":", Print(f.val) + k);
  }

  lemma ReadLastField(text: string, f: Field, k: string)
    requires ReadField(text + ("}" + k)) == Some((f, "}" + k))
    ensures ReadFields(text + ("}" + k)) == Some(([f], k))
  {
    assert ("}" + k)[1..] == k;
  }

  lemma ReadNextField(text: string, f: Field, others: string, fs: seq<Field>, k: string)
    requires ReadField(text + ("," + others)) == Some((f, "," + others))
    requires ReadFields(others) == Some((fs, k))
    ensures ReadFields(text + ("," + others)) == Some(([f] + fs, k))
  {
    assert ("," + others)[1..] == others;
  }

  lemma {:induction false} ReadPrintedFields(fields: seq<Field>, k: string)
    requires fields != []
    ensures ReadFields(PrintFields(fields) + ("}" + k)) == Some((JoinedFields(fields), k))
    decreases fields, 0
  {
    var text := PrintField(fields[0]);
    var f := Field(Joined(fields[0].key), JoinedJson(fields[0].val));
    if |fields| == 1 {
      ReadPrintedField(fields[0], "}" + k);
      ReadLastField(text, f, k);
      assert JoinedFields(fields) == [f];
    } else {
      var others := PrintFields(fields[1..]) + ("}" + k);
      ReadPrintedFields(fields[1..], k);
      ReadPrintedField(fields[0], "," + others);
      ReadNextField(text, f, others, JoinedFields(fields[1..]), k);
      assert PrintFields(fields) + ("}" + k) == text + ("," + others) by {
        Regroup(text, PrintFields(fields[1..]), "}" + k);
      }
    }
  }

  /** The parser inverts the printer, up to the joining of surrogate pairs. */
  lemma ParsePrint(v: Json)
    ensures Parse(Print(v)) == Some(JoinedJson(v))
  {
    ReadPrinted(v, "");
    assert Print(v) + "" == Print(v);
  }

  // ----- what joining changes -----

  lemma {:induction false} JoinedIsIdentity(s: PyStr)
    ensures Joined(s) == s <==> PairFreeText(s)
    ensures |Joined(s)| <= |s|
    decreases |s|
  {
    if |s| >= 2 && IsHigh(s[0]) && IsLow(s[1]) {
      JoinedIsIdentity(s[2..]);
    } else if s != [] {
      JoinedIsIdentity(s[1..]);
      assert s == [s[0]] + s[1..];
      if PairFreeText(s[1..]) {
        forall i | 0 <= i < |s| - 1 ensures !(IsHigh(s[i]) && IsLow(s[i + 1])) {
          if i > 0 {
            assert s[i] == s[1..][i - 1] && s[i + 1] == s[1..][i];
          }
        }
      } else {
        var i :| 0 <= i < |s[1..]| - 1 && IsHigh(s[1..][i]) && IsLow(s[1..][i + 1]);
        assert IsHigh(s[i + 1]) && IsLow(s[i + 1 + 1]);
        assert Joined(s)[1..] == Joined(s[1..]);
      }
    }
  }

  lemma {:induction false} JoinedItemsAt(items: seq<Json>, i: nat)
    requires i < |items|
    ensures JoinedItems(items)[i] == JoinedJson(items[i])
  {
    if i > 0 {
      JoinedItemsAt(items[1..], i - 1);
    }
  }

  lemma {:induction false} JoinedFieldsAt(fields: seq<Field>, i: nat)
    requires i < |fields|
    ensures JoinedFields(fields)[i] == Field(Joined(fields[i].key), JoinedJson(fields[i].val))
  {
    if i > 0 {
      JoinedFieldsAt(fields[1..], i - 1);
    }
  }

  /** Joining changes exactly the values that hold a surrogate pair. */
  lemma {:induction false} JoinedJsonIsIdentity(v: Json)
    ensures JoinedJson(v) == v <==> PairFree(v)
  {
    match v
    case Str(s) => JoinedIsIdentity(s);
    case Arr(items) =>
      forall i | 0 <= i < |items|
        ensures JoinedItems(items)[i] == items[i] <==> PairFree(items[i])
      {
        JoinedItemsAt(items, i);
        JoinedJsonIsIdentity(items[i]);
      }
      assert JoinedItems(items) == items <==> PairFree(v);
    case Obj(fields) =>
      forall i | 0 <= i < |fields|
        ensures JoinedFields(fields)[i] == fields[i] <==> PairFreeText(fields[i].key) && PairFree(fields[i].val)
      {
        JoinedFieldsAt(fields, i);
        JoinedIsIdentity(fields[i].key);
        JoinedJsonIsIdentity(fields[i].val);
      }
      assert JoinedFields(fields) == fields <==> PairFree(v);
    case _ =>
  }

  // ----- the text depends on the joined value only -----

  lemma EscapeCombined(high: CodePoint, low: CodePoint)
    requires IsHigh(high) && IsLow(low)
    ensures Escape(Combined(high, low)) == Escape(high) + Escape(low)
  {
    var c := Combined(high, low);
    assert HighOf(c) == high && LowOf(c) == low;
  }

  lemma EscapedCons(c: CodePoint, s: PyStr)
    ensures Escaped([c] + s) == Escape(c) + Escaped(s)
  {
    assert ([c] + s)[1..] == s;
  }

  lemma EscapedPair(a: CodePoint, b: CodePoint, rest: PyStr)
    ensures Escaped([a] + ([b] + rest)) == (Escape(a) + Escape(b)) + Escaped(rest)
  {
    EscapedCons(a, [b] + rest);
    EscapedCons(b, rest);
    Assoc(Escape(a), Escape(b), Escaped(rest));
  }

  lemma {:induction false} EscapedJoined(s: PyStr)
    ensures Escaped(Joined(s)) == Escaped(s)
    decreases |s|
  {
    if |s| >= 2 && IsHigh(s[0]) && IsLow(s[1]) {
      EscapedJoined(s[2..]);
      EscapeCombined(s[0], s[1]);
      EscapedCons(Combined(s[0], s[1]), Joined(s[2..]));
      EscapedPair(s[0], s[1], s[2..]);
      assert s == [s[0]] + ([s[1]] + s[2..]);
    } else if s != [] {
      EscapedJoined(s[1..]);
      EscapedCons(s[0], Joined(s[1..]));
    }
  }

  lemma {:induction false} PrintJoined(v: Json)
    ensures Print(JoinedJson(v)) == Print(v)
    decreases v, 1
  {
    match v
    case Str(s) => EscapedJoined(s);
    case Arr(items) => if items != [] { PrintItemsJoined(items); }
    case Obj(fields) => if fields != [] { PrintFieldsJoined(fields); }
    case _ =>
  }

  lemma {:induction false} PrintItemsJoined(items: seq<Json>)
    requires items != []
    ensures PrintItems(JoinedItems(items)) == PrintItems(items)
    decreases items, 0
  {
    PrintJoined(items[0]);
    assert JoinedItems(items)[1..] == JoinedItems(items[1..]);
    if |items| > 1 {
      PrintItemsJoined(items[1..]);
    }
  }

  lemma {:induction false} PrintFieldsJoined(fields: seq<Field>)
    requires fields != []
    ensures PrintFields(JoinedFields(fields)) == PrintFields(fields)
    decreases fields, 0
  {
    EscapedJoined(fields[0].key);
    PrintJoined(fields[0].val);
    assert JoinedFields(fields)[1..] == JoinedFields(fields[1..]);
    if |fields| > 1 {
      PrintFieldsJoined(fields[1..]);
    }
  }

  /** Two values print alike exactly when they are equal once surrogate pairs are joined. */
  lemma PrintInjective(a: Json, b: Json)
    ensures Print(a) == Print(b) <==> JoinedJson(a) == JoinedJson(b)
  {
    ParsePrint(a);
    ParsePrint(b);
    PrintJoined(a);
    PrintJoined(b);
  }

  // ----- the characters of a printed value -----

  const HEX := "0123456789abcdef"

  predicate IsHexOf(s: string, n: nat) {
    exists a: nat, b: nat, c: nat, d: nat ::
      a < 16 && b < 16 && c < 16 && d < 16
      && s == [HEX[a], HEX[b], HEX[c], HEX[d]] && n == ((a * 16 + b) * 16 + c) * 16 + d
  }

  // `\u` and four lower-case hexadecimal digits that stand for `n`
  predicate IsUnicodeEscape(s: string, n: nat) {
    |s| == 6 && s[0] == '\\' && s[1] == 'u' && IsHexOf(s[2..], n)
  }

  // the short escape of a character that has one
  function ShortName(c: CodePoint): Option<char> {
    if c == 0x22 then Some('"')
    else if c == 0x5C then Some('\\')
    else if c == 0x0A then Some('n')
    else if c == 0x0D then Some('r')
    else if c == 0x09 then Some('t')
    else if c == 0x0C then Some('f')
    else if c == 0x08 then Some('b')
    else None
  }

  lemma HexDigitIs(n: nat)
    requires n < 16
    ensures HexDigit(n) == HEX[n]
  {
  }

  lemma UnicodeEscapeIs(n: nat)
    requires n < 0x1_0000
    ensures IsUnicodeEscape(UnicodeEscape(n), n)
  {
    var a, b, c, d := n / 16 / 16 / 16, n / 16 / 16 % 16, n / 16 % 16, n % 16;
    HexDigitIs(a);
    HexDigitIs(b);
    HexDigitIs(c);
    HexDigitIs(d);
    assert UnicodeEscape(n)[2..] == Hex4(n);
    assert n == ((a * 16 + b) * 16 + c) * 16 + d;
  }

  /** How each code point is written: seven have a short escape, the rest of printable ASCII stands for
      itself, and everything else is written as one `\u` escape, or as two that encode it as a pair. */
  lemma EscapeIs(c: CodePoint)
    ensures ShortName(c).Some? ==> Escape(c) == ['\\', ShortName(c).value]
    ensures ShortName(c).None? && 0x20 <= c <= 0x7E ==> Escape(c) == [c as char]
    ensures ShortName(c).None? && !(0x20 <= c <= 0x7E) && c < 0x1_0000 ==> IsUnicodeEscape(Escape(c), c)
    ensures c >= 0x1_0000 ==>
              exists high: nat, low: nat ::
                && 0xD800 <= high < 0xDC00 && 0xDC00 <= low < 0xE000
                && c == 0x1_0000 + (high - 0xD800) * 0x400 + (low - 0xDC00)
                && |Escape(c)| == 12 && IsUnicodeEscape(Escape(c)[..6], high) && IsUnicodeEscape(Escape(c)[6..], low)
  {
    if c >= 0x1_0000 {
      UnicodeEscapeIs(HighOf(c));
      UnicodeEscapeIs(LowOf(c));
      assert Escape(c)[..6] == UnicodeEscape(HighOf(c)) && Escape(c)[6..] == UnicodeEscape(LowOf(c));
    } else if ShortName(c).None? && !(0x20 <= c <= 0x7E) {
      UnicodeEscapeIs(c);
    }
  }

  predicate IsAscii(s: string) {
    forall i :: 0 <= i < |s| ==> ' ' <= s[i] <= '~'
  }

  lemma AsciiAppend(a: string, b: string)
    requires IsAscii(a) && IsAscii(b)
    ensures IsAscii(a + b)
  {
  }

  lemma EscapeIsAscii(c: CodePoint)
    ensures IsAscii(Escape(c))
  {
  }

  lemma {:induction false} QuotedIsAscii(s: PyStr)
    ensures IsAscii(Escaped(s)) && IsAscii(Quoted(s))
  {
    if s != [] {
      EscapeIsAscii(s[0]);
      QuotedIsAscii(s[1..]);
      AsciiAppend(Escape(s[0]), Escaped(s[1..]));
    }
    AsciiAppend("\"", Escaped(s));
    AsciiAppend("\"" + Escaped(s), "\"");
  }

  /** The payload is printable ASCII throughout. */
  lemma {:induction false} PrintIsAscii(v: Json)
    ensures IsAscii(Print(v))
    decreases v, 1
  {
    match v
    case Null =>
    case Bool(b) =>
    case Int(i) => IntTextReads(i);
    case Float(text) => FloatTextReads(text);
    case Str(s) => QuotedIsAscii(s);
    case Arr(items) =>
      if items != [] {
        PrintItemsIsAscii(items);
        AsciiAppend("[", PrintItems(items));
        AsciiAppend("[" + PrintItems(items), "]");
      }
    case Obj(fields) =>
      if fields != [] {
        PrintFieldsIsAscii(fields);
        AsciiAppend("{", PrintFields(fields));
        AsciiAppend("{" + PrintFields(fields), "}");
      }
  }

  lemma {:induction false} PrintItemsIsAscii(items: seq<Json>)
    requires items != []
    ensures IsAscii(PrintItems(items))
    decreases items, 0
  {
    PrintIsAscii(items[0]);
    if |items| > 1 {
      PrintItemsIsAscii(items[1..]);
      AsciiAppend(Print(items[0]), ",");
      AsciiAppend(Print(items[0]) + ",", PrintItems(items[1..]));
    }
  }

  lemma {:induction false} PrintFieldIsAscii(f: Field)
    ensures IsAscii(PrintField(f))
    decreases f, 2
  {
    QuotedIsAscii(f.key);
    PrintIsAscii(f.val);
    AsciiAppend(Quoted(f.key), ":");
    AsciiAppend(Quoted(f.key) + ":", Print(f.val));
  }

  lemma {:induction false} PrintFieldsIsAscii(fields: seq<Field>)
    requires fields != []
    ensures IsAscii(PrintFields(fields))
    decreases fields, 0
  {
    PrintFieldIsAscii(fields[0]);
    if |fields| > 1 {
      PrintFieldsIsAscii(fields[1..]);
      AsciiAppend(PrintField(fields[0]), ",");
      AsciiAppend(PrintField(fields[0]) + ",", PrintFields(fields[1..]));
    }
  }
}
