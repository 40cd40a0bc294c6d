/** Python values as they appear in the modelled code: decoded JSON plus the
    integer-keyed dictionaries built by the reverse converter.  Python dicts keep
    insertion order, so a dict is an association list; `Put` and `Delete` follow
    `d[k] = v` and `del d[k]`. */
module PyValue {
  import opened Outcomes

  /** Dictionary keys: strings from JSON objects, integers from index-keyed dicts. */
  datatype Key = SKey(s: string) | IKey(n: int)

  datatype Value =
    | Null            // Python's None
    | Bool(b: bool)
    | Int(i: int)
    | Float(f: real)
    | Str(s: string)
    | List(items: seq<Value>)
    | Dict(entries: seq<(Key, Value)>)

  /** Python's built-in types, as named by the `t` column of the attribute tables. */
  datatype PyType = TStr | TInt | TFloat | TBool | TList | TDict

  // ---------------------------------------------------------------------------
  // Ordered dictionaries

  function KeysOf<K, V>(es: seq<(K, V)>): (ks: seq<K>)
    ensures |ks| == |es|
  {
    if es == [] then [] else [es[0].0] + KeysOf(es[1..])
  }

  /** The keys are the first components, position by position. */
  lemma {:induction false} KeysOfIndex<K, V>(es: seq<(K, V)>)
    ensures forall i :: 0 <= i < |es| ==> KeysOf(es)[i] == es[i].0
  {
    if es != [] {
      KeysOfIndex(es[1..]);
      assert forall i :: 1 <= i < |es| ==> KeysOf(es)[i] == KeysOf(es[1..])[i - 1];
    }
  }

  /** `d.get(k)`, with `None` for a missing key: the first entry whose key is `k`. */
  function Lookup<K(==), V>(es: seq<(K, V)>, k: K): Option<V> {
    if es == [] then None
    else if es[0].0 == k then Some(es[0].1)
    else Lookup(es[1..], k)
  }

  /** A lookup fails exactly for keys that are absent, and finds an entry of the dict. */
  lemma {:induction false} LookupSpec<K, V>(es: seq<(K, V)>, k: K)
    ensures Lookup(es, k).None? <==> k !in KeysOf(es)
    ensures Lookup(es, k).Some? ==> (k, Lookup(es, k).value) in es
  {
    if es != [] {
      LookupSpec(es[1..], k);
      assert KeysOf(es) == [es[0].0] + KeysOf(es[1..]);
      if es[0].0 != k && Lookup(es[1..], k).Some? {
        assert es[1..] <= es[1..];
        assert (k, Lookup(es, k).value) in es[1..];
      }
    }
  }

  /** `d[k] = v`: an existing key keeps its position, a new key goes last. */
  function Put<K(==), V>(es: seq<(K, V)>, k: K, v: V): seq<(K, V)> {
    if es == [] then [(k, v)]
    else if es[0].0 == k then [(k, v)] + es[1..]
    else [es[0]] + Put(es[1..], k, v)
  }

  /** After `d[k] = v`, `k` maps to `v` and every other key to what it mapped to before. */
  lemma {:induction false} PutSpec<K, V>(es: seq<(K, V)>, k: K, v: V, k': K)
    ensures Lookup(Put(es, k, v), k) == Some(v)
    ensures k' != k ==> Lookup(Put(es, k, v), k') == Lookup(es, k')
  {
    if es != [] && es[0].0 != k {
      PutSpec(es[1..], k, v, k');
      assert Put(es, k, v)[1..] == Put(es[1..], k, v);
    } else if es != [] {
      assert Put(es, k, v)[1..] == es[1..];
    }
  }

  /** Every entry after `d[k] = v` is the new one or an entry from before. */
  lemma {:induction false} PutEntries<K, V>(es: seq<(K, V)>, k: K, v: V)
    ensures forall p :: p in Put(es, k, v) ==> p == (k, v) || p in es
  {
    if es != [] && es[0].0 != k {
      PutEntries(es[1..], k, v);
      assert Put(es, k, v) == [es[0]] + Put(es[1..], k, v);
      assert forall p :: p in es[1..] ==> p in es;
    }
  }

  /** Assigning to an existing key keeps the key order; a new key is appended. */
  lemma {:induction false} PutKeys<K, V>(es: seq<(K, V)>, k: K, v: V)
    ensures k in KeysOf(es) ==> KeysOf(Put(es, k, v)) == KeysOf(es)
    ensures k !in KeysOf(es) ==> KeysOf(Put(es, k, v)) == KeysOf(es) + [k]
  {
    if es != [] {
      var r := Put(es, k, v);
      KeysOfCons(es);
      KeysOfCons(r);
      if es[0].0 == k {
        assert r[1..] == es[1..];
      } else {
        PutKeys(es[1..], k, v);
        assert r[1..] == Put(es[1..], k, v);
      }
    }
  }

  lemma KeysOfCons<K, V>(es: seq<(K, V)>)
    requires es != []
    ensures KeysOf(es) == [es[0].0] + KeysOf(es[1..])
  {
  }

  /** `del d[k]` once the key is known to be present. */
  function Delete<K(==), V>(es: seq<(K, V)>, k: K): seq<(K, V)> {
    if es == [] then []
    else if es[0].0 == k then Delete(es[1..], k)
    else [es[0]] + Delete(es[1..], k)
  }

  /** After `del d[k]`, `k` is gone and every other key keeps its value. */
  lemma {:induction false} DeleteSpec<K, V>(es: seq<(K, V)>, k: K, k': K)
    ensures Lookup(Delete(es, k), k) == None
    ensures k' != k ==> Lookup(Delete(es, k), k') == Lookup(es, k')
  {
    if es != [] {
      DeleteSpec(es[1..], k, k');
      if es[0].0 != k {
        assert Delete(es, k)[1..] == Delete(es[1..], k);
      }
    }
  }

  /** The keys of a Python dict are pairwise distinct. */
  ghost predicate UniqueKeys<K, V>(es: seq<(K, V)>) {
    var ks := KeysOf(es);
    forall i, j :: 0 <= i < j < |ks| ==> ks[i] != ks[j]
  }

  /** Assignment keeps the keys of a dict distinct. */
  lemma PutKeepsUniqueKeys<K, V>(es: seq<(K, V)>, k: K, v: V)
    requires UniqueKeys(es)
    ensures UniqueKeys(Put(es, k, v))
  {
    PutKeys(es, k, v);
  }

  /** In a dict with distinct keys, a lookup finds the one entry of its key. */
  lemma {:induction false} LookupUnique<K, V>(es: seq<(K, V)>, k: K, v: V)
    requires UniqueKeys(es) && (k, v) in es
    ensures Lookup(es, k) == Some(v)
  {
    KeysOfCons(es);
    KeysOfIndex(es);
    if es[0] != (k, v) {
      var j :| 0 <= j < |es| && es[j] == (k, v);
      assert j > 0 && KeysOf(es)[j] == k;
      assert es[0].0 != k;
      assert (k, v) in es[1..];
      assert UniqueKeys(es[1..]) by {
        var ks := KeysOf(es[1..]);
        forall a, b | 0 <= a < b < |ks| ensures ks[a] != ks[b] {
          assert ks[a] == KeysOf(es)[a + 1] && ks[b] == KeysOf(es)[b + 1];
        }
      }
      LookupUnique(es[1..], k, v);
    }
  }

  /** `d.get(k)` of Python: the stored value, or `None` (`Null`) when the key is missing. */
  function Get(es: seq<(Key, Value)>, name: string): Value {
    match Lookup(es, SKey(name))
    case None => Null
    case Some(v) => v
  }

  /** `v.get(name)` on a value that must be a dict (any other value has no `get`). */
  function Field(v: Value, name: string): Result<Value> {
    if v.Dict? then Ok(Get(v.entries, name)) else Err(AttributeError)
  }

  /** `d.get(k, default)`: the stored value, or `default` when the key is missing. */
  function GetOr(es: seq<(Key, Value)>, name: string, default: Value): Value {
    match Lookup(es, SKey(name))
    case None => default
    case Some(v) => v
  }

  /** Assigning to a key the dict does not have appends the entry. */
  lemma {:induction false} PutNew<K, V>(es: seq<(K, V)>, k: K, v: V)
    requires k !in KeysOf(es)
    ensures Put(es, k, v) == es + [(k, v)]
  {
    if es != [] {
      KeysOfCons(es);
      PutNew(es[1..], k, v);
      assert [es[0]] + (es[1..] + [(k, v)]) == es + [(k, v)];
    }
  }

  // ---------------------------------------------------------------------------
  // Iteration

  /** A dict key as the value `for key in d` yields. */
  function KeyValue(k: Key): Value {
    match k
    case SKey(s) => Str(s)
    case IKey(n) => Int(n)
  }

  /** The keys of a dict, as values, in order. */
  function KeyValues(es: seq<(Key, Value)>): (r: seq<Value>)
    ensures |r| == |es|
  {
    if es == [] then [] else [KeyValue(es[0].0)] + KeyValues(es[1..])
  }

  /** `d.values()`: the values of a dict, in order. */
  function ValuesOf(es: seq<(Key, Value)>): (r: seq<Value>)
    ensures |r| == |es|
    ensures forall i :: 0 <= i < |es| ==> r[i] == es[i].1
  {
    if es == [] then [] else [es[0].1] + ValuesOf(es[1..])
  }

  /** The one-character strings of `s`, in order. */
  function Chars(s: string): (r: seq<Value>)
    ensures |r| == |s|
  {
    if s == [] then [] else [Str([s[0]])] + Chars(s[1..])
  }

  /** `for x in v`: a list yields its items, a dict its keys, a string its characters;
      other values are not iterable. */
  function Iterate(v: Value): (r: Result<seq<Value>>)
    ensures r.Err? <==> !(v.List? || v.Dict? || v.Str?)
  {
    match v
    case List(items) => Ok(items)
    case Dict(es) => Ok(KeyValues(es))
    case Str(s) => Ok(Chars(s))
    case _ => Err(TypeError)
  }

  // ---------------------------------------------------------------------------
  // Python semantics of truth, length, equality and isinstance

  /** `bool(v)`. */
  predicate Truthy(v: Value) {
    match v
    case Null => false
    case Bool(b) => b
    case Int(i) => i != 0
    case Float(f) => f != 0.0
    case Str(s) => s != []
    case List(items) => items != []
    case Dict(entries) => entries != []
  }

  /** `len(v)`, which raises TypeError for values without a length. */
  function Len(v: Value): (r: Result<nat>)
    ensures r.Ok? <==> v.Str? || v.List? || v.Dict?
    ensures r.Ok? ==> (r.value == 0 <==> !Truthy(v))
  {
    match v
    case Str(s) => Ok(|s|)
    case List(items) => Ok(|items|)
    case Dict(entries) => Ok(|entries|)
    case _ => Err(TypeError)
  }

  /** The numeric value of a bool, int or float (`True == 1`, `1 == 1.0`). */
  function Num(v: Value): (r: Option<real>)
    ensures r.Some? <==> v.Bool? || v.Int? || v.Float?
  {
    match v
    case Bool(b) => Some(if b then 1.0 else 0.0)
    case Int(i) => Some(i as real)
    case Float(f) => Some(f)
    case _ => None
  }

  /** Python `a == b`: numbers compare by value across bool, int and float; lists
      compare element by element; dicts compare equal when they have the same keys
      and equal values under each key, whatever their order; anything else compares
      structurally. */
  predicate PyEq(a: Value, b: Value)
    decreases a, 1
  {
    if Num(a).Some? && Num(b).Some? then Num(a) == Num(b)
    else if a.List? && b.List? then |a.items| == |b.items| && ItemsEq(a, b)
    else if a.Dict? && b.Dict? then KeysCovered(b.entries, a.entries) && ValuesEq(a, b)
    else a == b
  }

  /** Lists of the same length whose elements are equal position by position. */
  predicate ItemsEq(a: Value, b: Value)
    requires a.List? && b.List? && |a.items| == |b.items|
    decreases a, 0
  {
    forall i :: 0 <= i < |a.items| ==> PyEq(a.items[i], b.items[i])
  }

  /** Every key of `es` is a key of `fs`. */
  predicate KeysCovered(es: seq<(Key, Value)>, fs: seq<(Key, Value)>) {
    forall j :: 0 <= j < |es| ==> es[j].0 in KeysOf(fs)
  }

  /** Every entry of dict `a` has an entry of dict `b` with the same key and an equal value. */
  predicate ValuesEq(a: Value, b: Value)
    requires a.Dict? && b.Dict?
    decreases a, 0
  {
    forall i :: 0 <= i < |a.entries| ==>
      exists j :: 0 <= j < |b.entries| && b.entries[j].0 == a.entries[i].0 && PyEq(a.entries[i].1, b.entries[j].1)
  }

  /** `==` is reflexive on these values: there is no NaN among them. */
  lemma {:induction false} PyEqRefl(a: Value)
    ensures PyEq(a, a)
    decreases a
  {
    if a.List? {
      forall i | 0 <= i < |a.items|
        ensures PyEq(a.items[i], a.items[i])
      {
        PyEqRefl(a.items[i]);
      }
      assert ItemsEq(a, a);
    } else if a.Dict? {
      forall i | 0 <= i < |a.entries|
        ensures PyEq(a.entries[i].1, a.entries[i].1)
      {
        PyEqRefl(a.entries[i].1);
      }
      ValuesEqRefl(a);
    }
  }

  /** A dict whose values each equal themselves equals itself. */
  lemma ValuesEqRefl(a: Value)
    requires a.Dict?
    requires forall i :: 0 <= i < |a.entries| ==> PyEq(a.entries[i].1, a.entries[i].1)
    ensures KeysCovered(a.entries, a.entries) && ValuesEq(a, a)
  {
    KeysCoveredRefl(a.entries);
    forall i | 0 <= i < |a.entries|
      ensures exists j :: 0 <= j < |a.entries| && a.entries[j].0 == a.entries[i].0 && PyEq(a.entries[i].1, a.entries[j].1)
    {
      assert 0 <= i < |a.entries| && a.entries[i].0 == a.entries[i].0 && PyEq(a.entries[i].1, a.entries[i].1);
    }
    assert ValuesEq(a, a);
  }

  /** Every key of a dict is one of its keys. */
  lemma KeysCoveredRefl(es: seq<(Key, Value)>)
    ensures KeysCovered(es, es)
  {
    KeysOfIndex(es);
    forall j | 0 <= j < |es|
      ensures es[j].0 in KeysOf(es)
    {
      assert KeysOf(es)[j] == es[j].0;
    }
  }

  /** Dict order does not matter, and neither does the numeric type inside a list. */
  lemma PyEqExamples(k1: Key, k2: Key, v1: Value, v2: Value)
    requires k1 != k2
    ensures PyEq(Dict([(k1, v1), (k2, v2)]), Dict([(k2, v2), (k1, v1)]))
    ensures PyEq(List([Int(1), Bool(true)]), List([Float(1.0), Int(1)]))
    ensures !PyEq(List([Int(1)]), List([Int(1), Int(1)]))
  {
    var a, b := [(k1, v1), (k2, v2)], [(k2, v2), (k1, v1)];
    PyEqRefl(v1);
    PyEqRefl(v2);
    KeysOfIndex(a);
    assert b[1].0 == a[0].0 && PyEq(a[0].1, b[1].1);
    assert b[0].0 == a[1].0 && PyEq(a[1].1, b[0].1);
  }

  /** `v in choices` for a list: some element compares equal. */
  predicate PyIn(v: Value, choices: seq<Value>) {
    exists i :: 0 <= i < |choices| && PyEq(v, choices[i])
  }

  /** `a < b` between numbers; TypeError for anything else. */
  function PyLess(a: Value, b: Value): (r: Result<bool>)
    ensures r.Ok? <==> Num(a).Some? && Num(b).Some?
    ensures r.Ok? ==> r.value == (Num(a).value < Num(b).value)
  {
    if Num(a).Some? && Num(b).Some? then Ok(Num(a).value < Num(b).value) else Err(TypeError)
  }

  /** `isinstance(v, t)`.  `bool` is a subclass of `int` in Python. */
  predicate IsA(v: Value, t: PyType) {
    match t
    case TStr => v.Str?
    case TInt => v.Int? || v.Bool?
    case TFloat => v.Float?
    case TBool => v.Bool?
    case TList => v.List?
    case TDict => v.Dict?
  }

  /** `isinstance(v, (t1, t2, ...))`. */
  predicate IsInstance(v: Value, ts: seq<PyType>) {
    exists i :: 0 <= i < |ts| && IsA(v, ts[i])
  }

  /** Values that can be dict keys or set members (lists and dicts cannot). */
  predicate Hashable(v: Value) {
    !v.List? && !v.Dict?
  }

  /** Dict keys that compare equal in Python (`1`, `1.0`, `True`) are one key. */
  function HashKey(v: Value): Value {
    if Num(v).Some? then Float(Num(v).value) else v
  }

  /** Two hashable values are the same dict key exactly when Python's `==` holds. */
  lemma HashKeyIsEquality(a: Value, b: Value)
    requires Hashable(a) && Hashable(b)
    ensures HashKey(a) == HashKey(b) <==> PyEq(a, b)
  {
  }

  lemma BoolIsInt(b: bool)
    ensures IsInstance(Bool(b), [TInt])
    ensures !IsInstance(Int(0), [TBool])
  {
    assert IsA(Bool(b), [TInt][0]);
  }
}
