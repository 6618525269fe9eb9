/** Counting with a dictionary, as the reports do: `d[k] = d.get(k, 0) + 1`. */
module Counting {
  import opened Common

  function Sum<K>(order: seq<K>, counts: map<K, nat>): nat
    requires forall k :: k in order ==> k in counts
  {
    if order == [] then 0 else Sum(order[..|order| - 1], counts) + counts[order[|order| - 1]]
  }

  ghost predicate Keyed<K(!new)>(xs: seq<K>, order: seq<K>, counts: map<K, nat>) {
    Distinct(order) && (forall k :: k in order <==> k in counts) && (forall k :: k in counts <==> k in xs)
  }

  lemma KeyedMore<K(!new)>(xs: seq<K>, order: seq<K>, counts: map<K, nat>, k: K)
    requires Keyed(xs, order, counts) && k !in counts
    ensures Keyed(xs + [k], order + [k], counts[k := 1])
  {
  }

  /** The counts of `xs`: a key for every value seen, counted exactly, and together as many as there are. */
  ghost predicate Tallied<K(!new)>(xs: seq<K>, order: seq<K>, counts: map<K, nat>) {
    && Keyed(xs, order, counts)
    && (forall k :: k in counts ==> counts[k] == multiset(xs)[k])
    && Sum(order, counts) == |xs|
  }

  /** `order` is the dictionary's keys, oldest first. */
  method Tally<K(!new,==)>(xs: seq<K>) returns (order: seq<K>, counts: map<K, nat>)
    ensures Tallied(xs, order, counts)
  {
    order, counts := [], map[];
    for i := 0 to |xs|
      invariant Tallied(xs[..i], order, counts)
    {
      var k := xs[i];
      assert xs[..i + 1] == xs[..i] + [k];
      if k in counts {
        TallyOld(xs[..i], order, counts, k);
        counts := counts[k := counts[k] + 1];
      } else {
        TallyNew(xs[..i], order, counts, k);
        order, counts := order + [k], counts[k := 1];
      }
    }
    assert xs[..|xs|] == xs;
  }

  lemma TallyOld<K(!new)>(xs: seq<K>, order: seq<K>, counts: map<K, nat>, k: K)
    requires Tallied(xs, order, counts) && k in counts
    ensures Tallied(xs + [k], order, counts[k := counts[k] + 1])
  {
    SumOneMore(order, counts, k);
  }

  lemma TallyNew<K(!new)>(xs: seq<K>, order: seq<K>, counts: map<K, nat>, k: K)
    requires Tallied(xs, order, counts) && k !in counts
    ensures Tallied(xs + [k], order + [k], counts[k := 1])
  {
    KeyedMore(xs, order, counts, k);
    SumUnchanged(order, counts, k, 1);
    assert (order + [k])[..|order|] == order;
    assert k !in multiset(xs);
    forall j | j in counts[k := 1] ensures counts[k := 1][j] == multiset(xs + [k])[j] {
      assert j != k ==> j in counts;
    }
  }

  lemma {:induction false} SumUnchanged<K>(order: seq<K>, counts: map<K, nat>, k: K, n: nat)
    requires (forall j :: j in order ==> j in counts) && k !in order
    ensures Sum(order, counts[k := n]) == Sum(order, counts)
  {
    if order != [] { SumUnchanged(order[..|order| - 1], counts, k, n); }
  }

  lemma {:induction false} SumOneMore<K>(order: seq<K>, counts: map<K, nat>, k: K)
    requires (forall j :: j in order ==> j in counts) && k in order && Distinct(order)
    ensures Sum(order, counts[k := counts[k] + 1]) == Sum(order, counts) + 1
  {
    var init, last := order[..|order| - 1], order[|order| - 1];
    if last == k {
      assert k !in init;
      SumUnchanged(init, counts, k, counts[k] + 1);
    } else {
      assert order == init + [last];
      SumOneMore(init, counts, k);
    }
  }
}
