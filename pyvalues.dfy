/** The Python objects that flow from an agent back to the user: the
    result an agent returns, the entries of the outcome trace and the
    content of a chat message. */
module PyValues {

  /** A string, a dict (with the text `str()` gives for it) or any other
      object (again with its `str()` text). */
  datatype Value =
    | Text(s: string)
    | Mapping(entries: map<string, Value>, repr: string)
    | Other(repr: string)

  /** Python's `str(v)`: a string is itself; any other object prints as
      its carried representation. */
  function Str(v: Value): (r: string)
    ensures v.Text? ==> r == v.s
  {
    match v
    case Text(s) => s
    case Mapping(_, repr) => repr
    case Other(repr) => repr
  }
}

/** A Python dict with string keys, as the ordered list of its entries
    (a dict remembers insertion order). */
module OrderedMap {
  import opened Wrappers

  datatype Entry<V> = Entry(key: string, value: V)

  /** The keys in insertion order (`list(d.keys())`). */
  function Keys<V>(d: seq<Entry<V>>): (ks: seq<string>)
    ensures |ks| == |d|
    ensures forall i :: 0 <= i < |d| ==> ks[i] == d[i].key
  {
    if d == [] then [] else [d[0].key] + Keys(d[1..])
  }

  predicate DistinctKeys<V>(d: seq<Entry<V>>) {
    forall i, j :: 0 <= i < j < |d| ==> d[i].key != d[j].key
  }

  /** `d[k]`, with `None` for the `KeyError` case. */
  function Get<V>(d: seq<Entry<V>>, k: string): (r: Option<V>)
    ensures r.None? <==> k !in Keys(d)
    ensures r.Some? ==> exists i :: 0 <= i < |d| && d[i] == Entry(k, r.value)
  {
    if d == [] then None
    else if d[0].key == k then Some(d[0].value)
    else
      var r := Get(d[1..], k);
      assert r.Some? ==> exists i :: 0 <= i < |d| - 1 && d[1..][i] == Entry(k, r.value);
      r
  }

  /** `d[k] = v`: an existing key keeps its position and takes the new
      value; a new key goes at the end. */
  function Put<V>(d: seq<Entry<V>>, k: string, v: V): (r: seq<Entry<V>>)
    ensures k !in Keys(d) ==> r == d + [Entry(k, v)]
    ensures k in Keys(d) ==> Keys(r) == Keys(d)
  {
    if d == [] then [Entry(k, v)]
    else if d[0].key == k then
      var r := [Entry(k, v)] + d[1..];
      assert r[1..] == d[1..];
      assert Keys(r) == [k] + Keys(d[1..]);
      r
    else
      var rest := Put(d[1..], k, v);
      var r := [d[0]] + rest;
      assert r[1..] == rest;
      assert Keys(d) == [d[0].key] + Keys(d[1..]);
      assert Keys(r) == [d[0].key] + Keys(rest);
      assert k in Keys(d) <==> k in Keys(d[1..]);
      r
  }

  /** After `d[k] = v`, `d[k]` is `v`. */
  lemma {:induction false} GetPut<V>(d: seq<Entry<V>>, k: string, v: V)
    ensures Get(Put(d, k, v), k) == Some(v)
  {
    if d != [] && d[0].key != k {
      GetPut(d[1..], k, v);
      assert Put(d, k, v)[1..] == Put(d[1..], k, v);
    }
  }

  /** Assigning `d[k]` leaves every other key's lookup as it was. */
  lemma {:induction false} PutOtherKey<V>(d: seq<Entry<V>>, k: string, v: V, k': string)
    requires k' != k
    ensures Get(Put(d, k, v), k') == Get(d, k')
  {
    if d != [] && d[0].key != k {
      PutOtherKey(d[1..], k, v, k');
      assert Put(d, k, v)[1..] == Put(d[1..], k, v);
    }
  }

  /** In a dict whose keys are distinct, looking up the key of entry `i`
      finds entry `i`'s value. */
  lemma {:induction false} GetAt<V>(d: seq<Entry<V>>, i: nat)
    requires DistinctKeys(d) && i < |d|
    ensures Get(d, d[i].key) == Some(d[i].value)
  {
    if i > 0 {
      assert d[1..][i - 1] == d[i];
      GetAt(d[1..], i - 1);
    }
  }
}
