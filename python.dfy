/** The few Python values the model needs: `None` as `Option`, a raised exception as the
    `Failure` of a `Result`, the insertion-ordered `dict` as an association list, and the
    JSON-like tree of dicts, lists and scalars that is handed to the cluster API. */
module Python {

  datatype Option<+T> = None | Some(value: T)

  datatype Result<+T, +E> = Success(value: T) | Failure(error: E) {
    predicate IsFailure() { Failure? }
    function PropagateFailure<U>(): Result<U, E> requires Failure? { Failure(error) }
    function Extract(): T requires Success? { value }
  }

  /** A value of the request tree: what `json.dumps` would print for it. */
  datatype Value =
    | Null
    | Bool(b: bool)
    | Int(i: int)
    | Str(s: string)
    | Arr(items: seq<Value>)
    | Obj(fields: seq<(string, Value)>)

  /** The keys of an association list, in insertion order. */
  function Keys<V>(d: seq<(string, V)>): (ks: seq<string>)
    ensures |ks| == |d|
    ensures forall i :: 0 <= i < |d| ==> ks[i] == d[i].0
  {
    seq(|d|, i requires 0 <= i < |d| => d[i].0)
  }

  /** A Python dict never holds the same key twice. */
  predicate DistinctKeys<V>(d: seq<(string, V)>) {
    forall i, j :: 0 <= i < j < |d| ==> d[i].0 != d[j].0
  }

  /** A Python `dict[str, V]`: its entries in insertion order. */
  type Dict<V> = d: seq<(string, V)> | DistinctKeys(d) witness []

  /** `d.get(k)`: the value stored under `k`, or `None`. */
  function Lookup<V>(d: seq<(string, V)>, k: string): (r: Option<V>)
    ensures r.Some? <==> k in Keys(d)
    ensures r.Some? ==> (k, r.value) in d
  {
    if d == [] then None
    else if d[0].0 == k then Some(d[0].1)
    else
      assert forall i :: 1 <= i < |d| ==> Keys(d)[i] == Keys(d[1..])[i - 1];
      Lookup(d[1..], k)
  }

  /** In a dict, looking up the key of an entry finds that entry's value. */
  lemma LookupIndex<V>(d: seq<(string, V)>, i: int)
    requires 0 <= i < |d| && DistinctKeys(d)
    ensures Lookup(d, d[i].0) == Some(d[i].1)
  {
    var r := Lookup(d, d[i].0);
    assert Keys(d)[i] == d[i].0;
    var j :| 0 <= j < |d| && d[j] == (d[i].0, r.value);
  }

  /** In a dict, looking up the key of any entry finds that entry's value. */
  lemma LookupEntry<V>(d: seq<(string, V)>, k: string, v: V)
    requires DistinctKeys(d) && (k, v) in d
    ensures Lookup(d, k) == Some(v)
  {
    var i :| 0 <= i < |d| && d[i] == (k, v);
    LookupIndex(d, i);
  }

  /** A dict answers a lookup with the value an entry holds for the key, and with `None`
      when no entry has it. */
  lemma DictMember<V>(d: seq<(string, V)>, k: string, v: Option<V>)
    requires DistinctKeys(d)
    requires v.Some? ==> (k, v.value) in d
    requires v.None? ==> k !in Keys(d)
    ensures Lookup(d, k) == v
  {
    if v.Some? {
      LookupEntry(d, k, v.value);
    }
  }

  lemma KeysAppend<V>(a: seq<(string, V)>, b: seq<(string, V)>)
    ensures Keys(a + b) == Keys(a) + Keys(b)
  {
  }

  /** Writing a key the dict does not hold keeps it a dict, and puts the key last. */
  lemma AppendFreshKey<V>(d: seq<(string, V)>, known: seq<string>, write: bool, k: string, v: V)
    requires DistinctKeys(d) && Keys(d) == known && k !in known
    ensures DistinctKeys(d + When(write, (k, v)))
    ensures Keys(d + When(write, (k, v))) == known + When(write, k)
  {
    KeysAppend(d, When(write, (k, v)));
    if write {
      forall i | 0 <= i < |d| ensures d[i].0 != k {
        assert Keys(d)[i] == d[i].0;
      }
    } else {
      assert d + [] == d;
      assert known + [] == known;
    }
  }

  /** A lookup in a conditional one-entry dict. */
  lemma LookupWhen<V>(write: bool, k: string, v: V, key: string)
    ensures Lookup(When(write, (k, v)), key) == if write && k == key then Some(v) else None
  {
    if write && k != key {
      assert [(k, v)][1..] == [];
    }
  }

  /** A key that is neither among `known` nor `x` is not among them after `x` is added. */
  lemma NotInWhen(known: seq<string>, write: bool, x: string, k: string)
    requires k !in known && k != x
    ensures k !in known + When(write, x)
  {
  }

  /** Appending at most one entry whose key the dict does not hold keeps it a dict. */
  lemma AppendAtMostOne<V>(d: seq<(string, V)>, e: seq<(string, V)>)
    requires DistinctKeys(d) && |e| <= 1 && (|e| == 1 ==> e[0].0 !in Keys(d))
    ensures DistinctKeys(d + e) && Keys(d + e) == Keys(d) + Keys(e)
  {
    if |e| == 1 {
      forall i | 0 <= i < |d| ensures d[i].0 != e[0].0 {
        assert Keys(d)[i] == d[i].0;
      }
    }
  }

  /** `d[k] = v`: an existing key keeps its place and gets the new value; a new key
      is appended at the end. */
  function Put<V>(d: seq<(string, V)>, k: string, v: V): seq<(string, V)>
  {
    if d == [] then [(k, v)]
    else if d[0].0 == k then [(k, v)] + d[1..]
    else [d[0]] + Put(d[1..], k, v)
  }

  lemma {:induction false} PutKeys<V>(d: seq<(string, V)>, k: string, v: V)
    ensures Keys(Put(d, k, v)) == if k in Keys(d) then Keys(d) else Keys(d) + [k]
  {
    if d != [] {
      assert Keys(d) == [d[0].0] + Keys(d[1..]);
      if d[0].0 == k {
        assert Keys(Put(d, k, v)) == [k] + Keys(d[1..]);
      } else {
        PutKeys(d[1..], k, v);
        assert Keys(Put(d, k, v)) == [d[0].0] + Keys(Put(d[1..], k, v));
      }
    }
  }

  lemma {:induction false} PutLookup<V>(d: seq<(string, V)>, k: string, v: V, k': string)
    ensures Lookup(Put(d, k, v), k') == if k' == k then Some(v) else Lookup(d, k')
  {
    if d != [] && d[0].0 != k {
      PutLookup(d[1..], k, v, k');
    }
  }

  lemma {:induction false} PutDistinct<V>(d: seq<(string, V)>, k: string, v: V)
    requires DistinctKeys(d)
    ensures DistinctKeys(Put(d, k, v))
  {
    var r := Put(d, k, v);
    PutKeys(d, k, v);
    forall i, j | 0 <= i < j < |r| ensures r[i].0 != r[j].0 {
      assert Keys(r)[i] == r[i].0 && Keys(r)[j] == r[j].0;
    }
  }

  /** `for k, v in es: d[k] = v`, one assignment per entry, left to right. */
  function PutAll<V>(d: seq<(string, V)>, es: seq<(string, V)>): seq<(string, V)>
  {
    if es == [] then d
    else Put(PutAll(d, es[..|es| - 1]), es[|es| - 1].0, es[|es| - 1].1)
  }

  /** The keys of `ks`, in order, that are not among `known`. */
  function FreshKeys(ks: seq<string>, known: seq<string>): seq<string>
  {
    if ks == [] then []
    else FreshKeys(ks[..|ks| - 1], known) + (if ks[|ks| - 1] in known then [] else [ks[|ks| - 1]])
  }

  lemma {:induction false} LookupAppend<V>(a: seq<(string, V)>, b: seq<(string, V)>, k: string)
    ensures Lookup(a + b, k) == if Lookup(a, k).Some? then Lookup(a, k) else Lookup(b, k)
  {
    if a == [] {
      assert a + b == b;
    } else {
      assert (a + b)[1..] == a[1..] + b;
      LookupAppend(a[1..], b, k);
    }
  }

  /** In a dict, the last key does not occur earlier. */
  lemma LastKeyIsNew<V>(es: Dict<V>)
    requires es != []
    ensures es[|es| - 1].0 !in Keys(es[..|es| - 1])
  {
    var n := |es| - 1;
    forall i | 0 <= i < n ensures Keys(es[..n])[i] != es[n].0 {
      assert Keys(es[..n])[i] == es[i].0;
    }
  }

  /** After the loop, a key the loop wrote holds the loop's value for it; every other
      key keeps the value it had before. */
  lemma {:induction false} PutAllLookup<V>(d: seq<(string, V)>, es: Dict<V>, k: string)
    ensures Lookup(PutAll(d, es), k) == if Lookup(es, k).Some? then Lookup(es, k) else Lookup(d, k)
  {
    if es != [] {
      var n := |es| - 1;
      var init := es[..n];
      assert es == init + [es[n]];
      PutAllLookup(d, init, k);
      LookupAppend(init, [es[n]], k);
      PutLookup(PutAll(d, init), es[n].0, es[n].1, k);
      LastKeyIsNew(es);
    }
  }

  /** The loop keeps the keys already present in place and appends the new ones in the
      order the loop meets them; the result is again a dict. */
  lemma {:induction false} PutAllKeys<V>(d: Dict<V>, es: Dict<V>)
    ensures Keys(PutAll(d, es)) == Keys(d) + FreshKeys(Keys(es), Keys(d))
    ensures DistinctKeys(PutAll(d, es))
  {
    if es != [] {
      var n := |es| - 1;
      var init := es[..n];
      var k := es[n].0;
      PutAllKeys(d, init);
      assert Keys(es)[..n] == Keys(init);
      LastKeyIsNew(es);
      FreshKeysNotIn(Keys(init), Keys(d), k);
      PutKeys(PutAll(d, init), k, es[n].1);
      PutDistinct(PutAll(d, init), k, es[n].1);
    }
  }

  lemma {:induction false} FreshKeysNotIn(ks: seq<string>, known: seq<string>, k: string)
    requires k !in ks
    ensures k !in FreshKeys(ks, known)
  {
    if ks != [] {
      FreshKeysNotIn(ks[..|ks| - 1], known, k);
    }
  }

  /** A one-element list when `b` holds, else an empty one: a conditional append. */
  function When<T>(b: bool, x: T): seq<T> { if b then [x] else [] }

  /** The list held by `o`, or the empty list for `None`. */
  function OrEmpty<T>(o: Option<seq<T>>): seq<T> { if o.Some? then o.value else [] }

  /** `o is not None` turned into the tree: the value, or JSON `null`. */
  function OptStr(o: Option<string>): Value { if o.Some? then Str(o.value) else Null }
  function OptInt(o: Option<int>): Value { if o.Some? then Int(o.value) else Null }
  function OptBool(o: Option<bool>): Value { if o.Some? then Bool(o.value) else Null }

  /** A list of strings as a JSON array. */
  function StrList(xs: seq<string>): Value {
    Arr(seq(|xs|, i requires 0 <= i < |xs| => Str(xs[i])))
  }

  /** A `dict[str, str]` as a JSON object. */
  function StrObj(d: seq<(string, string)>): Value {
    Obj(seq(|d|, i requires 0 <= i < |d| => (d[i].0, Str(d[i].1))))
  }

  /** `v.get(k)` on a dict of the tree; `None` for a missing key or a value that is not a dict. */
  function Member(v: Value, k: string): Option<Value> {
    if v.Obj? then Lookup(v.fields, k) else None
  }
}
