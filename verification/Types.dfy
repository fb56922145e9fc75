/** Values shared by every part of the model. */
module Types {

  datatype Option<+T> = None | Some(value: T)

  type Name = string
  type Cid = string
  type Topic = string

  /** A decoded JSON value; everything that is neither text nor an object is one opaque scalar. */
  datatype Value = Text(text: string) | Object(fields: map<string, Value>) | Scalar(tag: int)

  type Data = map<string, Value>

  /** An envelope as it travels between two nodes. */
  datatype Msg = Msg(cid: Cid, source: Name, data: Data)

  /** The contributions joined so far for one correlation ID, by upstream node. */
  type Received = map<Name, Data>

  function Lookup<K, V>(m: map<K, V>, k: K): Option<V> {
    if k in m then Some(m[k]) else None
  }

  /** Maps that give every key the same value are the same map. */
  lemma SameMap<K, V>(x: map<K, V>, y: map<K, V>)
    requires forall k :: Lookup(x, k) == Lookup(y, k)
    ensures x == y
  {
    forall k ensures (k in x <==> k in y) && (k in x && k in y ==> x[k] == y[k]) {
      assert Lookup(x, k) == Lookup(y, k);
    }
    assert x.Keys == y.Keys;
  }

  ghost function Elements<T(!new)>(xs: seq<T>): set<T> {
    set x | x in xs
  }

  ghost predicate Distinct<T(!new)>(xs: seq<T>) {
    forall i, j :: 0 <= i < j < |xs| ==> xs[i] != xs[j]
  }

  lemma {:induction false} DistinctCardinality<T(!new)>(xs: seq<T>)
    requires Distinct(xs)
    ensures |Elements(xs)| == |xs|
  {
    if xs == [] {
      assert Elements(xs) == {};
    } else {
      var init, last := xs[..|xs| - 1], xs[|xs| - 1];
      DistinctCardinality(init);
      assert last !in Elements(init);
      assert Elements(xs) == Elements(init) + {last};
    }
  }

  lemma {:induction false} SubsetCardinality<T>(a: set<T>, b: set<T>)
    requires a <= b
    ensures |a| <= |b|
    ensures |a| == |b| ==> a == b
  {
    assert |b| == |a| + |b - a| by { assert b == a + (b - a); }
    if |a| == |b| {
      assert b - a == {};
    }
  }
}
