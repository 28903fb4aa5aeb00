/**
 * Decoded payloads as PHP holds them after `json_decode($body, true)`:
 * JSON objects become ordered string-keyed arrays and JSON lists become
 * index-keyed arrays. An entity's dynamic properties are a map from property
 * name to value, filled by a `foreach ($record as $key => $value)` loop.
 */
module Json {
  import opened Wrappers

  /** A decoded JSON value. Floating-point numbers are not modelled. */
  datatype Value =
    | Null
    | Bool(b: bool)
    | Num(n: int)
    | Str(s: string)
    | List(items: seq<Value>)
    | Object(members: seq<(string, Value)>)

  /** An ordered PHP array with string keys: one decoded JSON object. */
  type Record = seq<(string, Value)>

  /** A value that PHP can pass where an `array` parameter is declared. */
  predicate IsArray(v: Value) {
    v.List? || v.Object?
  }

  function Digit(d: nat): char
    requires d < 10
  {
    "0123456789"[d]
  }

  /** The decimal spelling of a list index, the name a list element gets as a property. */
  function NatToString(n: nat): (r: string)
    ensures |r| >= 1
  {
    if n < 10 then [Digit(n)] else NatToString(n / 10) + [Digit(n % 10)]
  }

  /** The key/value pairs `foreach` visits, in order. */
  function Entries(v: Value): (r: Record)
    requires IsArray(v)
    ensures |r| == |Values(v)|
    ensures forall i :: 0 <= i < |r| ==> r[i].1 == Values(v)[i]
  {
    match v
    case List(items) => seq(|items|, i requires 0 <= i < |items| => (NatToString(i), items[i]))
    case Object(members) => members
  }

  /** The values `foreach` visits, in order; a scalar yields nothing (PHP only warns). */
  function Values(v: Value): (r: seq<Value>)
    ensures v.List? ==> r == v.items
    ensures v.Object? ==> |r| == |v.members| && forall i :: 0 <= i < |r| ==> r[i] == v.members[i].1
    ensures !IsArray(v) ==> r == []
  {
    match v
    case List(items) => items
    case Object(members) => seq(|members|, i requires 0 <= i < |members| => members[i].1)
    case _ => []
  }

  /**
   * The string PHP passes to a string function when handed this value in
   * coercive mode: null and false read as "", true as "1", integers in
   * decimal. An array cannot be passed at all (`TypeError`).
   */
  function StringOf(v: Value): (r: Option<string>)
    ensures r.None? <==> IsArray(v)
    ensures v.Str? ==> r == Some(v.s)
    ensures v.Null? ==> r == Some("")
  {
    match v
    case Null => Some("")
    case Bool(b) => Some(if b then "1" else "")
    case Num(n) => Some(if n >= 0 then NatToString(n) else "-" + NatToString(-n))
    case Str(s) => Some(s)
    case _ => None
  }

  /** PHP's `empty()`: null, false, 0, "", "0" and the empty array. */
  predicate Empty(v: Value) {
    match v
    case Null => true
    case Bool(b) => !b
    case Num(n) => n == 0
    case Str(s) => s == "" || s == "0"
    case List(items) => items == []
    case Object(members) => members == []
  }

  function Keys(rec: Record): set<string> {
    set i | 0 <= i < |rec| :: rec[i].0
  }

  predicate UniqueKeys(rec: Record) {
    forall i, j :: 0 <= i < j < |rec| ==> rec[i].0 != rec[j].0
  }

  /** `$rec[$key]`: the value of the last pair with that key (later pairs win). */
  function Lookup(rec: Record, key: string): (r: Option<Value>)
    ensures r.Some? <==> key in Keys(rec)
  {
    if rec == [] then None
    else if rec[|rec| - 1].0 == key then Some(rec[|rec| - 1].1)
    else
      var r := Lookup(rec[..|rec| - 1], key);
      assert Keys(rec) == Keys(rec[..|rec| - 1]) + {rec[|rec| - 1].0};
      r
  }

  /** In an array with distinct keys, each pair's key reads as that pair's value. */
  lemma {:induction false} LookupUnique(rec: Record, i: nat)
    requires UniqueKeys(rec) && i < |rec|
    ensures Lookup(rec, rec[i].0) == Some(rec[i].1)
  {
    if i < |rec| - 1 {
      var pre := rec[..|rec| - 1];
      assert pre[i] == rec[i];
      LookupUnique(pre, i);
    }
  }

  /** A pair put in front of an array does not affect lookups of other keys. */
  lemma {:induction false} LookupUnderPrefix(p: (string, Value), rest: Record, k: string)
    requires p.0 != k
    ensures Lookup([p] + rest, k) == Lookup(rest, k)
    decreases |rest|
  {
    if rest != [] {
      var ps := [p] + rest;
      assert ps[..|ps| - 1] == [p] + rest[..|rest| - 1];
      LookupUnderPrefix(p, rest[..|rest| - 1], k);
    } else {
      assert [p] + rest == [p];
      assert [p][..0] == [];
    }
  }

  /** `$rec[$key]` read as a value: a missing key reads as null. */
  function LookupOrNull(rec: Record, key: string): Value {
    match Lookup(rec, key)
    case Some(v) => v
    case None => Null
  }

  /** Every pair with `key` given `value`; the other pairs and the order are kept. */
  function Replace(rec: Record, key: string, value: Value): (r: Record)
    ensures |r| == |rec|
    ensures forall i :: 0 <= i < |rec| ==> r[i] == (if rec[i].0 == key then (key, value) else rec[i])
  {
    seq(|rec|, i requires 0 <= i < |rec| => if rec[i].0 == key then (key, value) else rec[i])
  }

  /** `$array[$key] = $value`: an existing key keeps its position, a new key is appended. */
  function Put(rec: Record, key: string, value: Value): (r: Record)
    ensures key in Keys(rec) ==> r == Replace(rec, key, value)
    ensures key !in Keys(rec) ==> r == rec + [(key, value)]
  {
    if key in Keys(rec) then Replace(rec, key, value) else rec + [(key, value)]
  }

  /** After the assignment the key reads as the new value and every other key as before. */
  lemma {:induction false} LookupPut(rec: Record, key: string, value: Value, k: string)
    ensures Lookup(Put(rec, key, value), k) == if k == key then Some(value) else Lookup(rec, k)
  {
    if key in Keys(rec) {
      LookupReplace(rec, key, value, k);
    } else {
      var r := rec + [(key, value)];
      assert r[..|r| - 1] == rec;
    }
  }

  lemma {:induction false} LookupReplace(rec: Record, key: string, value: Value, k: string)
    requires key in Keys(rec)
    ensures Lookup(Replace(rec, key, value), k) == if k == key then Some(value) else Lookup(rec, k)
    decreases |rec|
  {
    var n := |rec|;
    var r := Replace(rec, key, value);
    var pre := rec[..n - 1];
    assert r[..n - 1] == Replace(pre, key, value);
    if rec[n - 1].0 != key {
      assert Keys(rec) == Keys(pre) + {rec[n - 1].0};
      LookupReplace(pre, key, value, k);
    } else if k != key {
      LookupSkips(r, k);
      LookupSkips(rec, k);
      if key in Keys(pre) {
        LookupReplace(pre, key, value, k);
      } else {
        assert Replace(pre, key, value) == pre;
      }
    }
  }

  /** A last pair under another key does not affect a lookup. */
  lemma LookupSkips(rec: Record, k: string)
    requires rec != [] && rec[|rec| - 1].0 != k
    ensures Lookup(rec, k) == Lookup(rec[..|rec| - 1], k)
  {
  }

  /** The assignment adds exactly its key. */
  lemma PutKeys(rec: Record, key: string, value: Value)
    ensures Keys(Put(rec, key, value)) == Keys(rec) + {key}
  {
    var r := Put(rec, key, value);
    forall k | k in Keys(rec) + {key} ensures k in Keys(r) {
      LookupPut(rec, key, value, k);
    }
    forall k | k in Keys(r) ensures k in Keys(rec) + {key} {
      LookupPut(rec, key, value, k);
    }
  }

  /** An array with distinct keys keeps them distinct through an assignment. */
  lemma PutUnique(rec: Record, key: string, value: Value)
    requires UniqueKeys(rec)
    ensures UniqueKeys(Put(rec, key, value))
  {
    var r := Put(rec, key, value);
    if key !in Keys(rec) {
      forall i, j | 0 <= i < j < |r| ensures r[i].0 != r[j].0 {
        if j == |rec| {
          assert r[i].0 == rec[i].0 && rec[i].0 in Keys(rec);
        }
      }
    }
  }

  lemma KeysCons(p: (string, Value), rest: Record)
    ensures Keys([p] + rest) == {p.0} + Keys(rest)
  {
    var r := [p] + rest;
    forall k | k in Keys(r) ensures k in {p.0} + Keys(rest) {
      var i :| 0 <= i < |r| && r[i].0 == k;
      if i > 0 { assert rest[i - 1] == r[i]; }
    }
    forall k | k in Keys(rest) ensures k in Keys(r) {
      var i :| 0 <= i < |rest| && rest[i].0 == k;
      assert r[i + 1] == rest[i];
    }
    assert r[0] == p;
  }

  /**
   * The dynamic properties left by `foreach ($rec as $k => $v) { ...writes($k, $v)... }`
   * when each pair writes the properties `writes(k, v)`: later writes overwrite earlier ones.
   */
  function Fold(rec: Record, writes: (string, Value) -> map<string, Value>): (attrs: map<string, Value>)
    ensures rec != [] ==> writes(rec[|rec| - 1].0, rec[|rec| - 1].1).Keys <= attrs.Keys
    ensures rec != [] ==> forall k :: k in writes(rec[|rec| - 1].0, rec[|rec| - 1].1) ==>
                             attrs[k] == writes(rec[|rec| - 1].0, rec[|rec| - 1].1)[k]
  {
    if rec == [] then map[]
    else Fold(rec[..|rec| - 1], writes) + writes(rec[|rec| - 1].0, rec[|rec| - 1].1)
  }

  /** The plain `$this->$key = $value;` loop body. */
  function Single(key: string, value: Value): map<string, Value> {
    map[key := value]
  }

  /** The properties of an object whose constructor copies every key of the record: exactly its keys. */
  function CopyAll(rec: Record): (attrs: map<string, Value>)
    ensures attrs.Keys == Keys(rec)
  {
    var attrs := Fold(rec, Single);
    assert attrs.Keys == Keys(rec) by {
      forall k ensures k in attrs <==> k in Keys(rec) {
        FoldKeys(rec, Single, k);
        if k in Keys(rec) {
          var i :| 0 <= i < |rec| && rec[i].0 == k;
          assert k in Single(rec[i].0, rec[i].1);
        }
      }
    }
    attrs
  }

  /** A property read: an undefined property reads as null. */
  function Prop(attrs: map<string, Value>, name: string): Value {
    if name in attrs then attrs[name] else Null
  }

  lemma {:induction false} FoldAppend(a: Record, b: Record, writes: (string, Value) -> map<string, Value>)
    ensures Fold(a + b, writes) == Fold(a, writes) + Fold(b, writes)
    decreases |b|
  {
    if b == [] {
      assert a + b == a;
    } else {
      var b' := b[..|b| - 1];
      assert (a + b)[..|a + b| - 1] == a + b';
      assert (a + b)[|a + b| - 1] == b[|b| - 1];
      FoldAppend(a, b', writes);
    }
  }

  /** A property exists exactly when some pair of the record writes it. */
  lemma {:induction false} FoldKeys(rec: Record, writes: (string, Value) -> map<string, Value>, k: string)
    ensures k in Fold(rec, writes) <==> exists i :: 0 <= i < |rec| && k in writes(rec[i].0, rec[i].1)
  {
    if rec != [] {
      var pre := rec[..|rec| - 1];
      FoldKeys(pre, writes, k);
      if k in Fold(rec, writes) && k !in writes(rec[|rec| - 1].0, rec[|rec| - 1].1) {
        var i :| 0 <= i < |pre| && k in writes(pre[i].0, pre[i].1);
        assert rec[i] == pre[i];
      }
      if exists i :: 0 <= i < |rec| && k in writes(rec[i].0, rec[i].1) {
        var i :| 0 <= i < |rec| && k in writes(rec[i].0, rec[i].1);
        if i < |pre| {
          assert pre[i] == rec[i];
        }
      }
    }
  }

  /**
   * The last writer wins: a property written by pair `p` and by no later pair
   * holds the value `p` wrote.
   */
  lemma LastWriterWins(pre: Record, p: (string, Value), post: Record,
                       writes: (string, Value) -> map<string, Value>, k: string)
    requires k in writes(p.0, p.1)
    requires forall i :: 0 <= i < |post| ==> k !in writes(post[i].0, post[i].1)
    ensures k in Fold(pre + [p] + post, writes)
    ensures Fold(pre + [p] + post, writes)[k] == writes(p.0, p.1)[k]
  {
    FoldAppend(pre + [p], post, writes);
    FoldKeys(post, writes, k);
    assert (pre + [p])[..|pre + [p]| - 1] == pre;
  }

  /**
   * A property that each pair writes only under its own key, with its own
   * value, reads exactly as the record's (last) value for that key.
   */
  lemma {:induction false} FoldCopiesKey(rec: Record, writes: (string, Value) -> map<string, Value>, k: string)
    requires forall i :: 0 <= i < |rec| ==> (k in writes(rec[i].0, rec[i].1) <==> rec[i].0 == k)
    requires forall i :: 0 <= i < |rec| && rec[i].0 == k ==> writes(rec[i].0, rec[i].1)[k] == rec[i].1
    ensures Prop(Fold(rec, writes), k) == LookupOrNull(rec, k)
  {
    if rec != [] {
      var pre := rec[..|rec| - 1];
      assert forall i :: 0 <= i < |pre| ==> pre[i] == rec[i];
      FoldCopiesKey(pre, writes, k);
    }
  }

  /** Copying every key gives exactly the record's keys, each with its (last) value. */
  lemma {:induction false} CopyAllLookup(rec: Record)
    ensures CopyAll(rec).Keys == Keys(rec)
    ensures forall k :: k in Keys(rec) ==> CopyAll(rec)[k] == Lookup(rec, k).value
  {
    if rec != [] {
      var pre := rec[..|rec| - 1];
      CopyAllLookup(pre);
      assert Keys(rec) == Keys(pre) + {rec[|rec| - 1].0};
    }
  }

  /** Reading a copied property gives the record's value, or null for a missing key. */
  lemma CopyAllProp(rec: Record, name: string)
    ensures Prop(CopyAll(rec), name) == LookupOrNull(rec, name)
  {
    CopyAllLookup(rec);
  }

  /**
   * The `foreach ($user as $key => $value) { $this->$key = $value; }` loop shared
   * by the constructors of the project entity and of the user record.
   */
  method Assign(rec: Record) returns (attrs: map<string, Value>)
    ensures attrs == CopyAll(rec)
  {
    attrs := map[];
    for i := 0 to |rec|
      invariant attrs == CopyAll(rec[..i])
    {
      var (key, value) := rec[i];
      assert rec[..i + 1][..i] == rec[..i];
      attrs := attrs[key := value];
    }
    assert rec[..|rec|] == rec;
  }
}
