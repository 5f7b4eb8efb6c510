/** JavaScript values and plain objects, as far as the instance layer needs them. */
module Js {

  datatype Option<+T> = None | Some(value: T)

  /** A JavaScript value: primitives by value, objects and functions by identity.
      Numbers are integers here; NaN and fractions are not modelled. */
  datatype Value =
    | Undefined
    | Null
    | Bool(b: bool)
    | Num(n: int)
    | Str(s: string)
    | Fn(fid: nat)          // a function object
    | Obj(oid: nat)         // any other object
    | Noop                  // the shared no-op function of the utilities
    | Bound(target: Value)  // bind(fn, vm): a fresh function calling `target` on the instance
    | InstanceObject(key: string)  // an instance's own internal object (`$options`, `_data`, ...), by the key it is stored under

  /** JavaScript truthiness. */
  predicate Truthy(v: Value) {
    match v
    case Undefined => false
    case Null => false
    case Bool(b) => b
    case Num(n) => n != 0
    case Str(s) => s != ""
    case _ => true
  }

  /** `typeof v === 'function'` */
  predicate IsFunction(v: Value) {
    v.Fn? || v.Noop? || v.Bound?
  }

  /** The value is an object, so that the `in` operator may be applied to it. */
  predicate IsObject(v: Value) {
    v.Fn? || v.Obj? || v.Noop? || v.Bound? || v.InstanceObject?
  }

  /** `v == null`: loose equality with null holds for null and undefined only. */
  predicate IsNullish(v: Value) {
    v.Undefined? || v.Null?
  }

  /** isReserved: the key starts with `$` or `_`. */
  predicate IsReserved(key: string) {
    |key| > 0 && (key[0] == '$' || key[0] == '_')
  }

  /** The own enumerable properties of a plain object, in enumeration order. */
  type Entries<T> = seq<(string, T)>

  function KeysOf<T>(e: Entries<T>): (ks: seq<string>)
    ensures |ks| == |e|
    ensures forall i :: 0 <= i < |e| ==> ks[i] == e[i].0
  {
    if e == [] then [] else [e[0].0] + KeysOf(e[1..])
  }

  /** No element occurs twice. */
  predicate Distinct<T(==)>(ks: seq<T>) {
    forall i, j :: 0 <= i < j < |ks| ==> ks[i] != ks[j]
  }

  /** Appending an element not yet present keeps a sequence free of repeats. */
  lemma DistinctAppend<T>(ks: seq<T>, x: T)
    requires Distinct(ks) && x !in ks
    ensures Distinct(ks + [x])
  {
  }

  /** An object never holds the same own key twice. */
  predicate UniqueKeys<T>(e: Entries<T>) {
    Distinct(KeysOf(e))
  }

  /** The tail of an object without duplicate keys has none either, and lacks the head's key. */
  lemma UniqueTail<T>(e: Entries<T>)
    requires e != [] && UniqueKeys(e)
    ensures UniqueKeys(e[1..]) && !HasKey(e[1..], e[0].0)
  {
    var ks := KeysOf(e);
    assert KeysOf(e[1..]) == ks[1..];
  }

  /** Dropping the last entry of an object without duplicate keys keeps it without any. */
  lemma UniqueInit<T>(e: Entries<T>)
    requires e != [] && UniqueKeys(e)
    ensures UniqueKeys(e[..|e| - 1])
  {
    assert KeysOf(e[..|e| - 1]) == KeysOf(e)[..|e| - 1];
  }

  /** Two entries of an object without duplicate keys have different keys. */
  lemma UniqueApart<T>(e: Entries<T>, i: nat, j: nat)
    requires UniqueKeys(e) && i < j < |e|
    ensures e[i].0 != e[j].0
  {
    assert KeysOf(e)[i] == e[i].0 && KeysOf(e)[j] == e[j].0;
  }

  /** A prefix of an object without duplicate keys has none either. */
  lemma UniquePrefix<T>(e: Entries<T>, n: nat)
    requires UniqueKeys(e) && n <= |e|
    ensures UniqueKeys(e[..n])
  {
    assert KeysOf(e[..n]) == KeysOf(e)[..n];
  }

  /** The keys of a prefix one entry longer: one more key, new if the keys are unique. */
  lemma PrefixKeys<T>(e: Entries<T>, i: nat)
    requires i < |e|
    ensures forall k :: HasKey(e[..i + 1], k) <==> HasKey(e[..i], k) || k == e[i].0
    ensures UniqueKeys(e) ==> !HasKey(e[..i], e[i].0)
  {
    var pre, next := KeysOf(e[..i]), KeysOf(e[..i + 1]);
    assert next == pre + [e[i].0];
    forall k ensures k in next <==> k in pre || k == e[i].0 {
      assert k in pre + [e[i].0] <==> k in pre || k == e[i].0;
    }
    assert pre == KeysOf(e)[..i];
    if UniqueKeys(e) {
      forall j | 0 <= j < i ensures pre[j] != e[i].0 {
        assert pre[j] == KeysOf(e)[j] && e[i].0 == KeysOf(e)[i];
      }
    }
  }

  /** The set of own keys. */
  function KeySet<T>(e: Entries<T>): (ks: set<string>)
    ensures forall k :: k in ks <==> HasKey(e, k)
    decreases |e|
  {
    if e == [] then {}
    else
      assert KeysOf(e) == KeysOf(e[..|e| - 1]) + [e[|e| - 1].0];
      KeySet(e[..|e| - 1]) + {e[|e| - 1].0}
  }

  /** `hasOwn(e, k)` */
  predicate HasKey<T>(e: Entries<T>, k: string) {
    k in KeysOf(e)
  }

  /** The own property `k`, if any. */
  function Find<T>(e: Entries<T>, k: string): (r: Option<T>)
    ensures r.None? <==> !HasKey(e, k)
  {
    if e == [] then None
    else if e[0].0 == k then Some(e[0].1)
    else Find(e[1..], k)
  }

  /** `obj[k]`: undefined when the key is absent. */
  function Lookup(e: Entries<Value>, k: string): Value {
    match Find(e, k)
    case Some(v) => v
    case None => Undefined
  }

  /** `obj[k] = v`: an existing key keeps its position, a new key is appended. */
  function Put<T>(e: Entries<T>, k: string, v: T): (r: Entries<T>)
    ensures Find(r, k) == Some(v)
  {
    if e == [] then [(k, v)]
    else if e[0].0 == k then [(k, v)] + e[1..]
    else [e[0]] + Put(e[1..], k, v)
  }

  /** Writing one key leaves every other key as it was. */
  lemma {:induction false} PutOther<T>(e: Entries<T>, k: string, v: T, k': string)
    requires k' != k
    ensures Find(Put(e, k, v), k') == Find(e, k')
  {
    if e != [] && e[0].0 != k {
      PutOther(e[1..], k, v, k');
      assert Put(e, k, v)[1..] == Put(e[1..], k, v);
    }
  }

  /** Writing keeps the key order; a key that is not there yet goes to the end. */
  lemma {:induction false} PutKeys<T>(e: Entries<T>, k: string, v: T)
    ensures KeysOf(Put(e, k, v)) == if HasKey(e, k) then KeysOf(e) else KeysOf(e) + [k]
  {
    if e != [] {
      PutKeysHead(e, k, v);
      if e[0].0 != k {
        PutKeys(e[1..], k, v);
      }
    }
  }

  /** The keys of a write, by its first entry. */
  lemma PutKeysHead<T>(e: Entries<T>, k: string, v: T)
    requires e != []
    ensures KeysOf(e) == [e[0].0] + KeysOf(e[1..])
    ensures e[0].0 == k ==> KeysOf(Put(e, k, v)) == KeysOf(e)
    ensures e[0].0 != k ==> KeysOf(Put(e, k, v)) == [e[0].0] + KeysOf(Put(e[1..], k, v))
    ensures e[0].0 != k ==> (HasKey(e, k) <==> HasKey(e[1..], k))
  {
    var r := Put(e, k, v);
    if e[0].0 == k {
      assert r[1..] == e[1..];
    } else {
      assert r[1..] == Put(e[1..], k, v);
    }
  }

  lemma PutKeepsUnique<T>(e: Entries<T>, k: string, v: T)
    requires UniqueKeys(e)
    ensures UniqueKeys(Put(e, k, v))
  {
    PutKeys(e, k, v);
  }

  /** extend(to, from): copies every own property of `from` onto `to`, in order. */
  function Extend(to: Entries<Value>, from: Entries<Value>): (r: Entries<Value>)
    decreases |from|
  {
    if from == [] then to
    else Extend(Put(to, from[0].0, from[0].1), from[1..])
  }

  /** After extend, a key of `from` reads as in `from`; any other key reads as before. */
  lemma {:induction false} ExtendLookup(to: Entries<Value>, from: Entries<Value>, k: string)
    requires UniqueKeys(from)
    ensures Lookup(Extend(to, from), k) == if HasKey(from, k) then Lookup(from, k) else Lookup(to, k)
    decreases |from|
  {
    if from != [] {
      var (k0, v0) := from[0];
      UniqueTail(from);
      ExtendLookup(Put(to, k0, v0), from[1..], k);
      assert KeysOf(from) == [k0] + KeysOf(from[1..]);
      if k != k0 {
        PutOther(to, k0, v0, k);
      }
    }
  }

  /** extend keeps an object free of duplicate keys. */
  lemma {:induction false} ExtendKeepsUnique(to: Entries<Value>, from: Entries<Value>)
    requires UniqueKeys(to)
    ensures UniqueKeys(Extend(to, from))
    decreases |from|
  {
    if from != [] {
      PutKeepsUnique(to, from[0].0, from[0].1);
      ExtendKeepsUnique(Put(to, from[0].0, from[0].1), from[1..]);
    }
  }
}
