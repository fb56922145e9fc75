/** Flattening a completed join into one payload, whatever order the runtime walks its maps in. */
module Merge {
  import opened Types

  ghost predicate IsOrder(order: seq<Name>, names: set<Name>) {
    Distinct(order) && Elements(order) == names
  }

  /** The payload built by visiting the sources in the given order. */
  ghost function Fold(order: seq<Name>, received: Received): Data
    requires forall i :: 0 <= i < |order| ==> order[i] in received
  {
    if order == [] then map[]
    else
      var s := order[|order| - 1];
      received[s] + Fold(order[..|order| - 1], received)[s := Object(received[s])]
  }

  ghost predicate IsMerge(received: Received, merged: Data) {
    exists order :: IsOrder(order, received.Keys) && merged == Fold(order, received)
  }

  /** Loops over the sources, and over each payload's keys, in an arbitrary order. */
  method MergeJoinedData(received: Received) returns (merged: Data)
    ensures IsMerge(received, merged)
  {
    merged := map[];
    ghost var order: seq<Name> := [];
    var rest := received.Keys;
    while rest != {}
      invariant rest <= received.Keys && IsOrder(order, received.Keys - rest)
      invariant forall i :: 0 <= i < |order| ==> order[i] in Elements(order)
      invariant merged == Fold(order, received)
    {
      var source :| source in rest;
      var data := received[source];
      merged := merged[source := Object(data)];
      ghost var base := merged;
      var keys := data.Keys;
      while keys != {}
        invariant keys <= data.Keys
        invariant merged == (data - keys) + base
      {
        var k :| k in keys;
        if k !in merged {
          merged := merged[k := data[k]];
        }
        keys := keys - {k};
      }
      assert data - keys == data;
      assert (order + [source])[..|order|] == order;
      assert source !in Elements(order);
      assert Elements(order + [source]) == Elements(order) + {source};
      order := order + [source];
      rest := rest - {source};
    }
  }

  /** Source i of the order is the first whose payload has key k. */
  ghost predicate FirstWith(order: seq<Name>, received: Received, i: int, k: string)
    requires forall i :: 0 <= i < |order| ==> order[i] in received
  {
    0 <= i < |order| && k in received[order[i]] && forall j :: 0 <= j < i ==> k !in received[order[j]]
  }

  lemma {:induction false} FoldKeys(order: seq<Name>, received: Received, k: string)
    requires forall i :: 0 <= i < |order| ==> order[i] in received
    ensures k in Fold(order, received) <==> k in order || exists i :: 0 <= i < |order| && k in received[order[i]]
  {
    if order != [] {
      var init, s := order[..|order| - 1], order[|order| - 1];
      FoldKeys(init, received, k);
      assert order == init + [s];
      assert forall i :: 0 <= i < |init| ==> init[i] == order[i];
      assert k in received[s] ==> k in received[order[|order| - 1]];
    }
  }

  lemma {:induction false} FoldSource(order: seq<Name>, received: Received, k: string)
    requires forall i :: 0 <= i < |order| ==> order[i] in received
    requires Distinct(order) && k in order
    ensures k in Fold(order, received) && Fold(order, received)[k] == Object(received[k])
  {
    var init, s := order[..|order| - 1], order[|order| - 1];
    assert order == init + [s];
    if k != s {
      FoldSource(init, received, k);
    }
  }

  lemma {:induction false} FoldFirst(order: seq<Name>, received: Received, i: int, k: string)
    requires forall i :: 0 <= i < |order| ==> order[i] in received
    requires k !in order && FirstWith(order, received, i, k)
    ensures k in Fold(order, received) && Fold(order, received)[k] == received[order[i]][k]
  {
    var init, s := order[..|order| - 1], order[|order| - 1];
    if i < |init| {
      FoldFirst(init, received, i, k);
    } else {
      FoldKeys(init, received, k);
    }
  }

  /** In every order: each source name carries its whole payload, and no key is invented or lost. */
  lemma MergeContents(received: Received, merged: Data)
    requires IsMerge(received, merged)
    ensures forall s :: s in received ==> s in merged && merged[s] == Object(received[s])
    ensures forall k :: k in merged <==> k in received || exists s :: s in received && k in received[s]
    ensures forall k :: k in merged && k !in received ==>
              exists s :: s in received && k in received[s] && merged[k] == received[s][k]
  {
    var order :| IsOrder(order, received.Keys) && merged == Fold(order, received);
    assert forall s :: s in order <==> s in Elements(order);
    forall s | s in received ensures s in merged && merged[s] == Object(received[s]) {
      FoldSource(order, received, s);
    }
    forall k ensures k in merged <==> k in received || exists s :: s in received && k in received[s] {
      FoldKeys(order, received, k);
    }
    forall k | k in merged && k !in received
      ensures exists s :: s in received && k in received[s] && merged[k] == received[s][k]
    {
      FoldKeys(order, received, k);
      var i := FindFirst(order, received, k);
      FoldFirst(order, received, i, k);
    }
  }

  lemma {:induction false} FindFirst(order: seq<Name>, received: Received, k: string) returns (i: int)
    requires forall i :: 0 <= i < |order| ==> order[i] in received
    requires exists i :: 0 <= i < |order| && k in received[order[i]]
    ensures FirstWith(order, received, i, k)
  {
    i := 0;
    while k !in received[order[i]]
      invariant 0 <= i < |order| && forall j :: 0 <= j < i ==> k !in received[order[j]]
      invariant exists j :: i <= j < |order| && k in received[order[j]]
      decreases |order| - i
    {
      i := i + 1;
    }
  }

  // ---------- Order independence ----------

  /** Sources agree on every shared key that is not itself a source name. */
  ghost predicate Agree(received: Received) {
    forall s, t, k :: s in received && t in received && k in received[s] && k in received[t] && k !in received ==>
      received[s][k] == received[t][k]
  }

  lemma {:induction false} SomeOrder(names: set<Name>) returns (order: seq<Name>)
    ensures IsOrder(order, names)
  {
    if names == {} {
      order := [];
    } else {
      var n :| n in names;
      var rest := SomeOrder(names - {n});
      order := [n] + rest;
      assert forall x :: x in rest <==> x in Elements(rest);
    }
  }

  lemma LeadingWith(received: Received, s: Name, k: string) returns (merged: Data)
    requires s in received && k in received[s] && k !in received
    ensures IsMerge(received, merged) && k in merged && merged[k] == received[s][k]
  {
    var rest := SomeOrder(received.Keys - {s});
    var order := [s] + rest;
    assert forall x :: x in rest <==> x in Elements(rest);
    assert IsOrder(order, received.Keys);
    assert forall i :: 0 <= i < |order| ==> order[i] in Elements(order);
    merged := Fold(order, received);
    FoldFirst(order, received, 0, k);
  }

  ghost predicate Mentioned(received: Received, k: string) {
    k in received || exists s :: s in received && k in received[s]
  }

  /** With agreeing sources, any of them says what the merge holds. */
  ghost predicate AgreedValue(received: Received, k: string, v: Value) {
    && (k in received ==> v == Object(received[k]))
    && forall s :: s in received && k in received[s] && k !in received ==> v == received[s][k]
  }

  lemma MergeIsAgreed(received: Received, merged: Data, k: string)
    requires Agree(received) && IsMerge(received, merged)
    ensures k in merged <==> Mentioned(received, k)
    ensures k in merged ==> AgreedValue(received, k, merged[k])
  {
    MergeContents(received, merged);
  }

  lemma AgreeingMerge(received: Received, a: Data, b: Data)
    requires Agree(received) && IsMerge(received, a) && IsMerge(received, b)
    ensures a == b
  {
    forall k ensures (k in a <==> k in b) && (k in a && k in b ==> a[k] == b[k]) {
      MergeIsAgreed(received, a, k);
      MergeIsAgreed(received, b, k);
    }
    assert a.Keys == b.Keys;
  }

  /** The result is the same in every order exactly when the sources agree on shared plain keys. */
  lemma MergeOrderIndependence(received: Received)
    ensures (forall a, b :: IsMerge(received, a) && IsMerge(received, b) ==> a == b) <==> Agree(received)
  {
    if Agree(received) {
      forall a, b | IsMerge(received, a) && IsMerge(received, b) ensures a == b {
        AgreeingMerge(received, a, b);
      }
    } else {
      var s, t, k :| s in received && t in received && k in received[s] && k in received[t] && k !in received &&
                     received[s][k] != received[t][k];
      var a := LeadingWith(received, s, k);
      var b := LeadingWith(received, t, k);
      assert a[k] != b[k];
    }
  }
}
