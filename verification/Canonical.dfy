/** The canonical configuration and the text its hash is computed from. */
module Canonical {
  import opened PyText
  import opened Json
  import opened JsonText
  import opened JsonRoundTrip

  // `a < b` on Python strings
  predicate Less(a: PyStr, b: PyStr) {
    b != [] && (a == [] || a[0] < b[0] || (a[0] == b[0] && Less(a[1..], b[1..])))
  }

  lemma {:induction false} LessTrichotomy(a: PyStr, b: PyStr)
    ensures a != b <==> Less(a, b) || Less(b, a)
    ensures !(Less(a, b) && Less(b, a))
  {
    if a != [] && b != [] {
      LessTrichotomy(a[1..], b[1..]);
      assert a == [a[0]] + a[1..] && b == [b[0]] + b[1..];
    }
  }

  lemma {:induction false} LessTransitive(a: PyStr, b: PyStr, c: PyStr)
    requires Less(a, b) && Less(b, c)
    ensures Less(a, c)
  {
    if a != [] && a[0] == b[0] && b[0] == c[0] {
      LessTransitive(a[1..], b[1..], c[1..]);
    }
  }

  /** `a` comes before `b` in code point order: it is a proper prefix, or smaller at the first difference. */
  predicate Precedes(a: PyStr, b: PyStr) {
    || (|a| < |b| && b[..|a|] == a)
    || exists n :: 0 <= n < |a| && n < |b| && a[..n] == b[..n] && a[n] < b[n]
  }

  lemma {:induction false} LessIff(a: PyStr, b: PyStr)
    ensures Less(a, b) <==> Precedes(a, b)
  {
    if a != [] && b != [] && a[0] == b[0] {
      LessIff(a[1..], b[1..]);
      if Precedes(a[1..], b[1..]) {
        PrecedesLonger(a, b);
      }
      if Precedes(a, b) {
        PrecedesShorter(a, b);
      }
    } else if a != [] && b != [] && a[0] < b[0] {
      assert a[..0] == b[..0];
    }
  }

  lemma PrecedesLonger(a: PyStr, b: PyStr)
    requires a != [] && b != [] && a[0] == b[0] && Precedes(a[1..], b[1..])
    ensures Precedes(a, b)
  {
    var x, y := a[1..], b[1..];
    assert a == [a[0]] + x && b == [b[0]] + y;
    if |x| < |y| && y[..|x|] == x {
      assert b[..|a|] == [b[0]] + y[..|x|];
    } else {
      var n :| 0 <= n < |x| && n < |y| && x[..n] == y[..n] && x[n] < y[n];
      assert a[..n + 1] == [a[0]] + x[..n] && b[..n + 1] == [b[0]] + y[..n];
      assert a[n + 1] < b[n + 1];
    }
  }

  lemma PrecedesShorter(a: PyStr, b: PyStr)
    requires a != [] && b != [] && a[0] == b[0] && Precedes(a, b)
    ensures Precedes(a[1..], b[1..])
  {
    var x, y := a[1..], b[1..];
    if |a| < |b| && b[..|a|] == a {
      assert y[..|x|] == b[..|a|][1..];
    } else {
      var n :| 0 <= n < |a| && n < |b| && a[..n] == b[..n] && a[n] < b[n];
      assert x[..n - 1] == a[..n][1..] && y[..n - 1] == b[..n][1..];
      assert x[n - 1] < y[n - 1];
    }
  }

  // ----- `_normalize_config` -----

  function InsertByKey(f: Field, sorted: seq<Field>): (r: seq<Field>)
    ensures |r| == |sorted| + 1
    ensures multiset(r) == multiset(sorted) + multiset{f}
  {
    if sorted == [] || Less(f.key, sorted[0].key) then [f] + sorted
    else
      assert sorted == [sorted[0]] + sorted[1..];
      [sorted[0]] + InsertByKey(f, sorted[1..])
  }

  /** Every object of `v` rebuilt with its keys in ascending order. */
  function Normalize(v: Json): Json
    decreases v, 1
  {
    match v
    case Arr(items) => Arr(NormalizeItems(items))
    case Obj(fields) => Obj(NormalizeFields(fields))
    case _ => v
  }

  function NormalizeItems(items: seq<Json>): (r: seq<Json>)
    ensures |r| == |items|
    decreases items, 0
  {
    if items == [] then [] else [Normalize(items[0])] + NormalizeItems(items[1..])
  }

  function NormalizeFields(fields: seq<Field>): (r: seq<Field>)
    ensures |r| == |fields|
    decreases fields, 0
  {
    if fields == [] then []
    else InsertByKey(Field(fields[0].key, Normalize(fields[0].val)), NormalizeFields(fields[1..]))
  }

  /** The text `_compute_config_hash` hashes: sorting happens once more while printing. */
  function HashPayload(value: Json): string {
    Print(Normalize(value))
  }

  /** The payload of a submitted configuration, which `create_run` normalises first. */
  function ConfigPayload(config: Json): string {
    HashPayload(Normalize(config))
  }

  // ----- sorted objects -----

  predicate SortedByKey(fields: seq<Field>) {
    forall i, j :: 0 <= i < j < |fields| ==> Less(fields[i].key, fields[j].key)
  }

  predicate IsCanonical(v: Json) {
    match v
    case Arr(items) => forall i :: 0 <= i < |items| ==> IsCanonical(items[i])
    case Obj(fields) => SortedByKey(fields) && forall i :: 0 <= i < |fields| ==> IsCanonical(fields[i].val)
    case _ => true
  }

  function MapNormalize(v: Option<Json>): Option<Json> {
    match v
    case None => None
    case Some(x) => Some(Normalize(x))
  }

  // A field below all others may stand in front of them.
  lemma SortedCons(f: Field, sorted: seq<Field>)
    requires SortedByKey(sorted) && forall i :: 0 <= i < |sorted| ==> Less(f.key, sorted[i].key)
    ensures SortedByKey([f] + sorted)
  {
    var r := [f] + sorted;
    forall i, j | 0 <= i < j < |r| ensures Less(r[i].key, r[j].key) {
      assert r[j] == sorted[j - 1] && (i > 0 ==> r[i] == sorted[i - 1]);
    }
  }

  lemma {:induction false} InsertByKeySorts(f: Field, sorted: seq<Field>)
    requires SortedByKey(sorted)
    requires forall i :: 0 <= i < |sorted| ==> sorted[i].key != f.key
    ensures SortedByKey(InsertByKey(f, sorted))
  {
    if sorted == [] {
    } else if Less(f.key, sorted[0].key) {
      forall i | 0 <= i < |sorted| ensures Less(f.key, sorted[i].key) {
        if i > 0 {
          LessTransitive(f.key, sorted[0].key, sorted[i].key);
        }
      }
      SortedCons(f, sorted);
    } else {
      var tail := InsertByKey(f, sorted[1..]);
      InsertByKeySorts(f, sorted[1..]);
      LessTrichotomy(f.key, sorted[0].key);
      forall i | 0 <= i < |tail| ensures Less(sorted[0].key, tail[i].key) {
        assert tail[i] in multiset(tail);
        assert tail[i] == f || tail[i] in sorted[1..];
      }
      SortedCons(sorted[0], tail);
    }
  }

  lemma {:induction false} InsertByKeyLookup(f: Field, sorted: seq<Field>, key: PyStr)
    requires forall i :: 0 <= i < |sorted| ==> sorted[i].key != f.key
    ensures Lookup(InsertByKey(f, sorted), key) == if key == f.key then Some(f.val) else Lookup(sorted, key)
  {
    if sorted != [] && !Less(f.key, sorted[0].key) {
      InsertByKeyLookup(f, sorted[1..], key);
    }
  }

  lemma DistinctTail(fields: seq<Field>)
    requires DistinctKeys(fields) && fields != []
    ensures DistinctKeys(fields[1..]) && Lookup(fields[1..], fields[0].key).None?
  {
    forall i | 0 <= i < |fields[1..]| ensures fields[1..][i].key != fields[0].key {
      assert fields[1..][i] == fields[i + 1];
    }
  }

  /** Normalising keeps every dictionary entry, with its value normalised. */
  lemma {:induction false} NormalizeFieldsLookup(fields: seq<Field>, key: PyStr)
    requires DistinctKeys(fields)
    ensures Lookup(NormalizeFields(fields), key) == MapNormalize(Lookup(fields, key))
  {
    if fields != [] {
      var f := Field(fields[0].key, Normalize(fields[0].val));
      NormalizeFieldsLookup(fields[1..], key);
      NormalizeFieldsLookup(fields[1..], f.key);
      DistinctTail(fields);
      InsertByKeyLookup(f, NormalizeFields(fields[1..]), key);
    }
  }

  lemma {:induction false} NormalizeFieldsSorted(fields: seq<Field>)
    requires DistinctKeys(fields)
    ensures SortedByKey(NormalizeFields(fields))
  {
    if fields != [] {
      var f := Field(fields[0].key, Normalize(fields[0].val));
      NormalizeFieldsSorted(fields[1..]);
      NormalizeFieldsLookup(fields[1..], f.key);
      DistinctTail(fields);
      InsertByKeySorts(f, NormalizeFields(fields[1..]));
    }
  }

  // Sorted objects with the same entries are the same sequence.
  lemma {:induction false} SortedUnique(a: seq<Field>, b: seq<Field>)
    requires SortedByKey(a) && SortedByKey(b)
    requires forall k: PyStr :: Lookup(a, k) == Lookup(b, k)
    ensures a == b
  {
    BothEmpty(a, b);
    if a != [] {
      SameHead(a, b);
      forall k: PyStr ensures Lookup(a[1..], k) == Lookup(b[1..], k) {
        assert Lookup(a, k) == Lookup(b, k);
        if k == a[0].key {
          HeadOnlyOnce(a);
          HeadOnlyOnce(b);
        }
      }
      SortedUnique(a[1..], b[1..]);
      assert a == [a[0]] + a[1..] && b == [b[0]] + b[1..];
    }
  }

  lemma BothEmpty(a: seq<Field>, b: seq<Field>)
    requires forall k: PyStr :: Lookup(a, k) == Lookup(b, k)
    ensures a == [] <==> b == []
  {
    if a != [] {
      assert Lookup(a, a[0].key).Some?;
    }
    if b != [] {
      assert Lookup(b, b[0].key).Some?;
    }
  }

  lemma HeadOnlyOnce(a: seq<Field>)
    requires SortedByKey(a) && a != []
    ensures Lookup(a[1..], a[0].key).None?
  {
    forall i | 0 <= i < |a[1..]| ensures a[1..][i].key != a[0].key {
      assert Less(a[0].key, a[i + 1].key);
      LessTrichotomy(a[0].key, a[i + 1].key);
    }
  }

  lemma SameHead(a: seq<Field>, b: seq<Field>)
    requires SortedByKey(a) && SortedByKey(b) && a != [] && b != []
    requires forall k: PyStr :: Lookup(a, k) == Lookup(b, k)
    ensures a[0] == b[0]
  {
    assert Lookup(a, a[0].key) == Lookup(b, a[0].key) == Some(a[0].val);
    assert Lookup(a, b[0].key) == Lookup(b, b[0].key) == Some(b[0].val);
    var i :| 0 <= i < |b| && b[i].key == a[0].key;
    var j :| 0 <= j < |a| && a[j].key == b[0].key;
    if i > 0 && j > 0 {
      assert Less(b[0].key, b[i].key) && Less(a[0].key, a[j].key);
      LessTrichotomy(a[0].key, b[0].key);
    }
  }

  // ----- equality of configurations as Python sees them -----

  /** Equal up to the order of keys at any depth. Unlike Python's `==`, this keeps `true`, `1` and `1.0`
      apart, as the program and the payload do. */
  ghost predicate SameConfig(a: Json, b: Json)
    decreases a
  {
    match (a, b)
    case (Arr(xs), Arr(ys)) => |xs| == |ys| && forall i :: 0 <= i < |xs| ==> SameConfig(xs[i], ys[i])
    case (Obj(f), Obj(g)) =>
      forall k: PyStr ::
        && Lookup(f, k).Some? == Lookup(g, k).Some?
        && (Lookup(f, k).Some? ==> SameConfig(Lookup(f, k).value, Lookup(g, k).value))
    case _ => a == b
  }

  lemma {:induction false} NormalizeItemsAt(items: seq<Json>, i: nat)
    requires i < |items|
    ensures NormalizeItems(items)[i] == Normalize(items[i])
  {
    if i > 0 {
      NormalizeItemsAt(items[1..], i - 1);
    }
  }

  lemma LookupWellFormed(fields: seq<Field>, k: PyStr)
    requires WellFormed(Obj(fields)) && Lookup(fields, k).Some?
    ensures WellFormed(Lookup(fields, k).value)
    ensures Lookup(fields, k).value < Obj(fields)
  {
    var i :| 0 <= i < |fields| && fields[i].key == k && fields[i].val == Lookup(fields, k).value;
    assert fields[i] < Obj(fields);
  }

  /** The canonical form decides equality of configurations. */
  lemma {:induction false} CanonicalIff(a: Json, b: Json)
    requires WellFormed(a) && WellFormed(b)
    ensures Normalize(a) == Normalize(b) <==> SameConfig(a, b)
    decreases a
  {
    match (a, b)
    case (Arr(xs), Arr(ys)) =>
      if |xs| == |ys| {
        forall i | 0 <= i < |xs|
          ensures NormalizeItems(xs)[i] == NormalizeItems(ys)[i] <==> SameConfig(xs[i], ys[i])
        {
          NormalizeItemsAt(xs, i);
          NormalizeItemsAt(ys, i);
          CanonicalIff(xs[i], ys[i]);
        }
        assert NormalizeItems(xs) == NormalizeItems(ys) <==> SameConfig(a, b);
      }
    case (Obj(f), Obj(g)) => CanonicalIffObjects(f, g);
    case _ =>
  }

  lemma {:induction false} CanonicalIffObjects(f: seq<Field>, g: seq<Field>)
    requires WellFormed(Obj(f)) && WellFormed(Obj(g))
    ensures NormalizeFields(f) == NormalizeFields(g) <==> SameConfig(Obj(f), Obj(g))
    decreases Obj(f), 0
  {
    forall k: PyStr
      ensures Lookup(NormalizeFields(f), k) == Lookup(NormalizeFields(g), k) <==>
              && Lookup(f, k).Some? == Lookup(g, k).Some?
              && (Lookup(f, k).Some? ==> SameConfig(Lookup(f, k).value, Lookup(g, k).value))
    {
      NormalizeFieldsLookup(f, k);
      NormalizeFieldsLookup(g, k);
      if Lookup(f, k).Some? && Lookup(g, k).Some? {
        LookupWellFormed(f, k);
        LookupWellFormed(g, k);
        CanonicalIff(Lookup(f, k).value, Lookup(g, k).value);
      }
    }
    NormalizeFieldsSorted(f);
    NormalizeFieldsSorted(g);
    if SameConfig(Obj(f), Obj(g)) {
      SortedUnique(NormalizeFields(f), NormalizeFields(g));
    }
  }

  // ----- canonical values are the fixed points -----

  lemma {:induction false} NormalizeFieldsEach(fields: seq<Field>, g: Field)
    ensures g in NormalizeFields(fields) <==> exists i :: 0 <= i < |fields| && g == Field(fields[i].key, Normalize(fields[i].val))
  {
    if fields != [] {
      var f := Field(fields[0].key, Normalize(fields[0].val));
      NormalizeFieldsEach(fields[1..], g);
      assert g in NormalizeFields(fields) <==> g in multiset(NormalizeFields(fields));
      if i :| 0 <= i < |fields| && g == Field(fields[i].key, Normalize(fields[i].val)) {
        assert i > 0 ==> fields[1..][i - 1] == fields[i];
      }
    }
  }

  /** In every object, at any depth, each key precedes the next one. */
  predicate KeysAscend(v: Json) {
    match v
    case Arr(items) => forall i :: 0 <= i < |items| ==> KeysAscend(items[i])
    case Obj(fields) =>
      && (forall i :: 0 <= i < |fields| - 1 ==> Precedes(fields[i].key, fields[i + 1].key))
      && forall i :: 0 <= i < |fields| ==> KeysAscend(fields[i].val)
    case _ => true
  }

  lemma {:induction false} CanonicalAscends(v: Json)
    requires IsCanonical(v)
    ensures KeysAscend(v)
  {
    match v
    case Arr(items) =>
      forall i | 0 <= i < |items| ensures KeysAscend(items[i]) {
        CanonicalAscends(items[i]);
      }
    case Obj(fields) =>
      forall i | 0 <= i < |fields| ensures KeysAscend(fields[i].val) {
        CanonicalAscends(fields[i].val);
      }
      forall i | 0 <= i < |fields| - 1 ensures Precedes(fields[i].key, fields[i + 1].key) {
        LessIff(fields[i].key, fields[i + 1].key);
      }
    case _ =>
  }

  /** The canonical form of a value has its keys in strictly ascending code point order at every depth. */
  lemma NormalizeAscends(v: Json)
    requires WellFormed(v)
    ensures KeysAscend(Normalize(v))
  {
    NormalizeIsCanonical(v);
    CanonicalAscends(Normalize(v));
  }

  lemma {:induction false} CanonicalIsWellFormed(v: Json)
    requires IsCanonical(v)
    ensures WellFormed(v)
  {
    match v
    case Arr(items) =>
      forall i | 0 <= i < |items| ensures WellFormed(items[i]) {
        CanonicalIsWellFormed(items[i]);
      }
    case Obj(fields) =>
      forall i | 0 <= i < |fields| ensures WellFormed(fields[i].val) {
        CanonicalIsWellFormed(fields[i].val);
      }
      forall i, j | 0 <= i < j < |fields| ensures fields[i].key != fields[j].key {
        LessTrichotomy(fields[i].key, fields[j].key);
      }
    case _ =>
  }

  /** Normalising changes nothing but the order of keys. */
  lemma NormalizeKeepsConfig(v: Json)
    requires WellFormed(v)
    ensures SameConfig(v, Normalize(v)) && WellFormed(Normalize(v))
  {
    NormalizeIsCanonical(v);
    CanonicalIsWellFormed(Normalize(v));
    CanonicalFixed(Normalize(v));
    CanonicalIff(v, Normalize(v));
  }

  lemma {:induction false} NormalizeIsCanonical(v: Json)
    requires WellFormed(v)
    ensures IsCanonical(Normalize(v))
  {
    match v
    case Arr(items) =>
      forall i | 0 <= i < |items| ensures IsCanonical(NormalizeItems(items)[i]) {
        NormalizeItemsAt(items, i);
        NormalizeIsCanonical(items[i]);
      }
    case Obj(fields) =>
      NormalizeFieldsSorted(fields);
      var r := NormalizeFields(fields);
      forall i | 0 <= i < |r| ensures IsCanonical(r[i].val) {
        NormalizeFieldsEach(fields, r[i]);
        var j :| 0 <= j < |fields| && r[i] == Field(fields[j].key, Normalize(fields[j].val));
        NormalizeIsCanonical(fields[j].val);
      }
    case _ =>
  }

  lemma {:induction false} CanonicalFieldsFixed(fields: seq<Field>)
    requires SortedByKey(fields)
    requires forall i :: 0 <= i < |fields| ==> Normalize(fields[i].val) == fields[i].val
    ensures NormalizeFields(fields) == fields
  {
    if fields != [] {
      CanonicalFieldsFixed(fields[1..]);
      assert |fields| > 1 ==> Less(fields[0].key, fields[1].key);
    }
  }

  /** Normalising twice is normalising once. */
  lemma {:induction false} CanonicalFixed(v: Json)
    requires IsCanonical(v)
    ensures Normalize(v) == v
  {
    match v
    case Arr(items) =>
      forall i | 0 <= i < |items| ensures NormalizeItems(items)[i] == items[i] {
        NormalizeItemsAt(items, i);
        CanonicalFixed(items[i]);
      }
      assert NormalizeItems(items) == items;
    case Obj(fields) =>
      forall i | 0 <= i < |fields| ensures Normalize(fields[i].val) == fields[i].val {
        CanonicalFixed(fields[i].val);
      }
      CanonicalFieldsFixed(fields);
    case _ =>
  }

  lemma {:induction false} NormalizePairFree(v: Json)
    ensures PairFree(Normalize(v)) <==> PairFree(v)
  {
    match v
    case Arr(items) =>
      forall i | 0 <= i < |items| ensures PairFree(NormalizeItems(items)[i]) <==> PairFree(items[i]) {
        NormalizeItemsAt(items, i);
        NormalizePairFree(items[i]);
      }
    case Obj(fields) =>
      var r := NormalizeFields(fields);
      forall i | 0 <= i < |fields|
        ensures Field(fields[i].key, Normalize(fields[i].val)) in r
        ensures PairFree(Normalize(fields[i].val)) <==> PairFree(fields[i].val)
      {
        NormalizeFieldsEach(fields, Field(fields[i].key, Normalize(fields[i].val)));
        NormalizePairFree(fields[i].val);
      }
      if PairFree(v) {
        forall i | 0 <= i < |r| ensures PairFreeText(r[i].key) && PairFree(r[i].val) {
          NormalizeFieldsEach(fields, r[i]);
        }
      }
    case _ =>
  }

  // ----- main results -----

  /** Printing sorts the keys itself: a configuration has the same payload whether it was normalised
      before or not. */
  lemma HashPayloadSorts(value: Json)
    requires WellFormed(value)
    ensures HashPayload(value) == HashPayload(Normalize(value)) == ConfigPayload(value)
  {
    NormalizeIsCanonical(value);
    CanonicalFixed(Normalize(value));
  }

  lemma ConfigPayloadIsPrint(config: Json)
    requires WellFormed(config)
    ensures ConfigPayload(config) == Print(Normalize(config))
  {
    NormalizeIsCanonical(config);
    CanonicalFixed(Normalize(config));
  }

  /** The payload reads back as the canonical configuration, for exactly the configurations
      in which no string holds a high surrogate directly followed by a low one. */
  lemma PayloadRoundTrip(config: Json)
    requires WellFormed(config)
    ensures Parse(ConfigPayload(config)) == Some(Normalize(config)) <==> PairFree(config)
  {
    ConfigPayloadIsPrint(config);
    ParsePrint(Normalize(config));
    JoinedJsonIsIdentity(Normalize(config));
    NormalizePairFree(config);
  }

  /** For every two configurations, payloads agree exactly when the canonical forms agree up to
      the joining of surrogate pairs. */
  lemma PayloadsAgree(a: Json, b: Json)
    requires WellFormed(a) && WellFormed(b)
    ensures ConfigPayload(a) == ConfigPayload(b) <==> JoinedJson(Normalize(a)) == JoinedJson(Normalize(b))
  {
    ConfigPayloadIsPrint(a);
    ConfigPayloadIsPrint(b);
    PrintInjective(Normalize(a), Normalize(b));
  }

  /** Equal configurations always have the same payload; different ones have different payloads
      when neither holds a surrogate pair. */
  lemma PayloadDecidesSameConfig(a: Json, b: Json)
    requires WellFormed(a) && WellFormed(b)
    ensures SameConfig(a, b) ==> ConfigPayload(a) == ConfigPayload(b)
    ensures PairFree(a) && PairFree(b) ==> (ConfigPayload(a) == ConfigPayload(b) <==> SameConfig(a, b))
  {
    CanonicalIff(a, b);
    PayloadsAgree(a, b);
    NormalizePairFree(a);
    NormalizePairFree(b);
    JoinedJsonIsIdentity(Normalize(a));
    JoinedJsonIsIdentity(Normalize(b));
  }

  lemma OneStringConfig(key: PyStr, s: PyStr)
    ensures var v := Obj([Field(key, Str(s))]);
            && WellFormed(v) && Lookup(v.fields, key) == Some(Str(s))
            && JoinedJson(Normalize(v)) == Obj([Field(Joined(key), Str(Joined(s)))])
  {
    var f := Field(key, Str(s));
    assert [f][1..] == [];
    assert NormalizeFields([f]) == [f];
    assert JoinedFields([f]) == [Field(Joined(key), Str(Joined(s)))];
  }

  /** Two different configurations with one payload: a string of two surrogates and the single
      character they encode. */
  lemma PayloadCollision(key: PyStr)
    ensures var pair := Obj([Field(key, Str([0xD800, 0xDC00]))]);
            var single := Obj([Field(key, Str([0x1_0000]))]);
            && WellFormed(pair) && WellFormed(single)
            && !SameConfig(pair, single)
            && ConfigPayload(pair) == ConfigPayload(single)
  {
    OneStringConfig(key, [0xD800, 0xDC00]);
    OneStringConfig(key, [0x1_0000]);
    assert Joined([0xD800, 0xDC00]) == [0x1_0000] + Joined([]);
    assert Joined([0x1_0000]) == [0x1_0000] + Joined([]);
    PayloadsAgree(Obj([Field(key, Str([0xD800, 0xDC00]))]), Obj([Field(key, Str([0x1_0000]))]));
  }
}
