/**
 * JavaScript values as the console sees them: records from the backend, form
 * state, request bodies. An object is its own enumerable properties in
 * enumeration order; a browser `File` is an opaque tagged value.
 */
module Json {
  import opened Strings

  /** A browser `File`: only its name and its size in bytes matter here. */
  datatype FileRef = FileRef(name: string, size: nat)

  datatype Value =
    | Undefined
    | Null
    | Bool(b: bool)
    | Num(n: int)
    | Str(s: string)
    | Arr(items: seq<Value>)
    | Obj(entries: seq<Entry>)
    | File(file: FileRef)

  datatype Entry = Entry(key: string, val: Value)

  /** JavaScript truthiness: `undefined`, `null`, `false`, `0` and `''` are falsy. */
  predicate Truthy(v: Value) {
    match v
    case Undefined => false
    case Null => false
    case Bool(b) => b
    case Num(n) => n != 0
    case Str(s) => s != ""
    case _ => true
  }

  /** `v === null || v === undefined`. */
  predicate Nullish(v: Value) {
    v.Undefined? || v.Null?
  }

  /** `typeof v === 'object' && v !== null`: objects, arrays and files. */
  predicate IsObjectLike(v: Value) {
    v.Obj? || v.Arr? || v.File?
  }

  /** `a || b`. */
  function Or(a: Value, b: Value): Value {
    if Truthy(a) then a else b
  }

  /** `a ?? b`. */
  function Coalesce(a: Value, b: Value): Value {
    if Nullish(a) then b else a
  }

  function Keys(es: seq<Entry>): (ks: seq<string>)
    ensures |ks| == |es|
    ensures forall i :: 0 <= i < |es| ==> ks[i] == es[i].key
  {
    seq(|es|, i requires 0 <= i < |es| => es[i].key)
  }

  function Values(es: seq<Entry>): (vs: seq<Value>)
    ensures |vs| == |es|
    ensures forall i :: 0 <= i < |es| ==> vs[i] == es[i].val
  {
    seq(|es|, i requires 0 <= i < |es| => es[i].val)
  }

  /** No key is listed twice, as in every JavaScript object. */
  predicate DistinctKeys(es: seq<Entry>) {
    forall i, j :: 0 <= i < j < |es| ==> es[i].key != es[j].key
  }

  /** `o[k]` on an object's entries: the property's value, or `undefined`. */
  function Lookup(es: seq<Entry>, k: string): Value {
    if es == [] then Undefined
    else if es[0].key == k then es[0].val
    else Lookup(es[1..], k)
  }

  lemma {:induction false} LookupAbsent(es: seq<Entry>, k: string)
    requires k !in Keys(es)
    ensures Lookup(es, k) == Undefined
  {
    if es != [] {
      assert Keys(es[1..]) == Keys(es)[1..];
      LookupAbsent(es[1..], k);
    }
  }

  /** With distinct keys, the value of `o[k]` is the one stored under `k`. */
  lemma {:induction false} LookupAt(es: seq<Entry>, i: nat)
    requires DistinctKeys(es) && i < |es|
    ensures Lookup(es, es[i].key) == es[i].val
  {
    if i > 0 {
      LookupAt(es[1..], i - 1);
    }
  }

  /** A property read is `undefined` or one of the object's own values. */
  lemma {:induction false} LookupValue(es: seq<Entry>, k: string)
    ensures Lookup(es, k) == Undefined || Lookup(es, k) in Values(es)
  {
    if es != [] && es[0].key != k {
      LookupValue(es[1..], k);
      assert Values(es[1..]) == Values(es)[1..];
    }
  }

  /** `v?.[k]`: a property of an object; anything else has none. */
  function Get(v: Value, k: string): Value {
    if v.Obj? then Lookup(v.entries, k) else Undefined
  }

  /**
   * The entries of `{...o, [k]: v}`: an existing property keeps its place and
   * takes the new value; a new one is appended.
   */
  function Put(es: seq<Entry>, k: string, v: Value): seq<Entry> {
    if es == [] then [Entry(k, v)]
    else if es[0].key == k then [Entry(k, v)] + es[1..]
    else [es[0]] + Put(es[1..], k, v)
  }

  /** After `{...o, [k]: v}`, `k` holds `v` and every other property is as before. */
  lemma {:induction false} PutLookup(es: seq<Entry>, k: string, v: Value, k': string)
    ensures Lookup(Put(es, k, v), k') == if k' == k then v else Lookup(es, k')
  {
    if es != [] && es[0].key != k {
      PutLookup(es[1..], k, v, k');
    }
  }

  lemma KeysCons(e: Entry, es: seq<Entry>)
    ensures Keys([e] + es) == [e.key] + Keys(es)
  {
  }

  /** `{...o, [k]: v}` keeps the key order, appending `k` only when it is new. */
  lemma {:induction false} PutKeys(es: seq<Entry>, k: string, v: Value)
    ensures Keys(Put(es, k, v)) == if k in Keys(es) then Keys(es) else Keys(es) + [k]
  {
    if es != [] {
      var rest := es[1..];
      assert es == [es[0]] + rest;
      KeysCons(es[0], rest);
      if es[0].key == k {
        KeysCons(Entry(k, v), rest);
      } else {
        PutKeys(rest, k, v);
        KeysCons(es[0], Put(rest, k, v));
        assert (k in Keys(es)) == (k in Keys(rest));
      }
    }
  }

  lemma PutDistinct(es: seq<Entry>, k: string, v: Value)
    requires DistinctKeys(es)
    ensures DistinctKeys(Put(es, k, v))
  {
    PutKeys(es, k, v);
    var ks := Keys(Put(es, k, v));
    forall i, j | 0 <= i < j < |Put(es, k, v)| ensures ks[i] != ks[j] {
      if k !in Keys(es) && j == |es| {
        assert ks[i] == es[i].key;
      } else {
        assert ks[i] == es[i].key && ks[j] == es[j].key;
      }
    }
  }

  /** The entries `{...o}` copies from `o`: an array or a string gives index-keyed entries. */
  function SpreadEntries(v: Value): seq<Entry> {
    match v
    case Obj(es) => es
    case Arr(items) => seq(|items|, i requires 0 <= i < |items| => Entry(NatToString(i), items[i]))
    case Str(s) => seq(|s|, i requires 0 <= i < |s| => Entry(NatToString(i), Str([s[i]])))
    case _ => []
  }

  /** `{...a, ...b}`: the properties of `b` written over those of `a`, in order. */
  function Merge(a: seq<Entry>, b: seq<Entry>): seq<Entry>
    decreases |b|
  {
    if b == [] then a else Merge(Put(a, b[0].key, b[0].val), b[1..])
  }

  /** In `{...a, ...b}` a key of `b` reads `b`'s value and every other key reads `a`'s. */
  lemma {:induction false} MergeLookup(a: seq<Entry>, b: seq<Entry>, k: string)
    requires DistinctKeys(b)
    ensures Lookup(Merge(a, b), k) == if k in Keys(b) then Lookup(b, k) else Lookup(a, k)
    decreases |b|
  {
    if b != [] {
      assert Keys(b) == [b[0].key] + Keys(b[1..]);
      MergeLookup(Put(a, b[0].key, b[0].val), b[1..], k);
      PutLookup(a, b[0].key, b[0].val, k);
      if k == b[0].key {
        assert k !in Keys(b[1..]);
      }
    }
  }

  /** `Object.values(v)` (for a value that is not `null` or `undefined`). */
  function ObjectValues(v: Value): seq<Value> {
    match v
    case Obj(es) => Values(es)
    case Arr(items) => items
    case Str(s) => seq(|s|, i requires 0 <= i < |s| => Str([s[i]]))
    case _ => []
  }

  /** `String(v)`, also what a template literal inserts. */
  function ToJsString(v: Value): string
    decreases v, 1
  {
    match v
    case Undefined => "undefined"
    case Null => "null"
    case Bool(b) => if b then "true" else "false"
    case Num(n) => IntToString(n)
    case Str(s) => s
    case Arr(items) => JoinItems(v, 0)
    case Obj(_) => "[object Object]"
    case File(_) => "[object File]"
  }

  /** `a.items.slice(from).join(',')`: `null` and `undefined` elements print as nothing. */
  function JoinItems(a: Value, from: nat): string
    requires a.Arr?
    decreases a, 0, |a.items| - from
  {
    if from >= |a.items| then ""
    else
      var x := a.items[from];
      var first := if Nullish(x) then "" else ToJsString(x);
      if from + 1 == |a.items| then first else first + "," + JoinItems(a, from + 1)
  }
}
