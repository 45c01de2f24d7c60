/** Allocation maps: a JavaScript object used as a running-sum table, keyed by
    sector or asset type. Object keys keep insertion order, so an allocation is
    an insertion-ordered sequence of buckets with pairwise distinct keys. */
module Allocations {
  import opened Numbers

  datatype Bucket<K> = Bucket(key: K, amount: real)

  /** Sum of all amounts. */
  function Total<K>(b: seq<Bucket<K>>): real
  {
    if b == [] then 0.0 else b[0].amount + Total(b[1..])
  }

  /** Sum of the amounts filed under key `k` (0 when `k` is absent). */
  function AmountOf<K(==)>(b: seq<Bucket<K>>, k: K): real
  {
    if b == [] then 0.0
    else (if b[0].key == k then b[0].amount else 0.0) + AmountOf(b[1..], k)
  }

  predicate HasKey<K(==)>(b: seq<Bucket<K>>, k: K)
  {
    b != [] && (b[0].key == k || HasKey(b[1..], k))
  }

  /** No key appears twice. */
  predicate Distinct<K(==)>(b: seq<Bucket<K>>)
  {
    b == [] || (!HasKey(b[1..], b[0].key) && Distinct(b[1..]))
  }

  predicate AllNonNegative<K>(b: seq<Bucket<K>>)
  {
    forall j :: 0 <= j < |b| ==> b[j].amount >= 0.0
  }

  /** `acc[k] = (acc[k] || 0) + v`: adds to the bucket of `k`, or appends a new
      bucket after all existing ones. */
  function Add<K(==,!new)>(acc: seq<Bucket<K>>, k: K, v: real): (r: seq<Bucket<K>>)
    ensures forall k' :: HasKey(r, k') <==> HasKey(acc, k') || k' == k
    ensures forall k' :: AmountOf(r, k') == AmountOf(acc, k') + (if k' == k then v else 0.0)
    ensures Total(r) == Total(acc) + v
    ensures Distinct(acc) ==> Distinct(r)
  {
    if acc == [] then [Bucket(k, v)]
    else if acc[0].key == k then [Bucket(k, acc[0].amount + v)] + acc[1..]
    else [acc[0]] + Add(acc[1..], k, v)
  }

  /** The `forEach` accumulation loop: folds every entry of `e`, in order, into
      the table `acc`. */
  function Accumulate<K(==,!new)>(acc: seq<Bucket<K>>, e: seq<Bucket<K>>): (r: seq<Bucket<K>>)
    ensures forall k :: HasKey(r, k) <==> HasKey(acc, k) || HasKey(e, k)
    ensures forall k :: AmountOf(r, k) == AmountOf(acc, k) + AmountOf(e, k)
    ensures Total(r) == Total(acc) + Total(e)
    ensures Distinct(acc) ==> Distinct(r)
    decreases |e|
  {
    if e == [] then acc else Accumulate(Add(acc, e[0].key, e[0].amount), e[1..])
  }

  /** The table built by the accumulation loop from an empty object. */
  function Tabulate<K(==,!new)>(e: seq<Bucket<K>>): (r: seq<Bucket<K>>)
    ensures Distinct(r)
    ensures forall k :: HasKey(r, k) <==> HasKey(e, k)
    ensures forall k :: AmountOf(r, k) == AmountOf(e, k)
    ensures forall j :: 0 <= j < |r| ==> r[j].amount == AmountOf(e, r[j].key)
    ensures Total(r) == Total(e)
    ensures r == [] <==> e == []
  {
    TabulateFacts(e);
    Accumulate([], e)
  }

  lemma TabulateFacts<K(!new)>(e: seq<Bucket<K>>)
    ensures forall j :: 0 <= j < |Accumulate([], e)| ==>
      Accumulate([], e)[j].amount == AmountOf(e, Accumulate([], e)[j].key)
    ensures Accumulate([], e) == [] <==> e == []
  {
    var r := Accumulate([], e);
    forall j | 0 <= j < |r|
      ensures r[j].amount == AmountOf(e, r[j].key)
    {
      DistinctBucketAmount(r, j);
    }
    if e != [] {
      KeyAtIndex(e, 0);
    }
  }

  /** `table[k] = table[k] / total * 100` for every key. */
  function Normalise<K(==,!new)>(b: seq<Bucket<K>>, total: real): (r: seq<Bucket<K>>)
    requires total != 0.0 || b == []
    ensures |r| == |b|
    ensures forall j :: 0 <= j < |b| ==> r[j] == Bucket(b[j].key, Percent(b[j].amount, total))
    ensures forall k :: HasKey(r, k) <==> HasKey(b, k)
    ensures Distinct(b) ==> Distinct(r)
  {
    if b == [] then []
    else [Bucket(b[0].key, Percent(b[0].amount, total))] + Normalise(b[1..], total)
  }

  /** Normalising a table scales its total the same way as each bucket. */
  lemma {:induction false} NormaliseTotal<K(!new)>(b: seq<Bucket<K>>, total: real)
    requires total != 0.0
    ensures Total(Normalise(b, total)) == Percent(Total(b), total)
  {
    if b == [] {
      assert Percent(0.0, total) * total == 0.0;
    } else {
      var r := Normalise(b, total);
      NormaliseTotal(b[1..], total);
      assert r[1..] == Normalise(b[1..], total);
      PercentAdds(b[0].amount, Total(b[1..]), total);
    }
  }

  /** The table of `e` normalised to percent of its own total: the two loops
      of the calculator, accumulation then normalisation. */
  function Percentages<K(==,!new)>(e: seq<Bucket<K>>): (a: seq<Bucket<K>>)
    requires Total(e) != 0.0 || e == []
    ensures Distinct(a)
    ensures forall k :: HasKey(a, k) <==> HasKey(e, k)
    ensures forall j :: 0 <= j < |a| ==> e != [] && a[j].amount == Percent(AmountOf(e, a[j].key), Total(e))
    ensures e != [] ==> Total(a) == 100.0
    ensures e == [] ==> a == []
  {
    PercentagesFacts(e);
    Normalise(Tabulate(e), Total(e))
  }

  lemma PercentagesFacts<K(!new)>(e: seq<Bucket<K>>)
    requires Total(e) != 0.0 || e == []
    ensures e != [] ==> Total(Normalise(Tabulate(e), Total(e))) == 100.0
  {
    var t := Tabulate(e);
    var a := Normalise(t, Total(e));
    if e != [] {
      NormaliseTotal(t, Total(e));
      PercentOfWhole(Total(e));
    }
  }

  /** In a table with distinct keys, a bucket's amount is everything filed
      under its key. */
  lemma {:induction false} DistinctBucketAmount<K>(b: seq<Bucket<K>>, j: nat)
    requires Distinct(b) && j < |b|
    ensures AmountOf(b, b[j].key) == b[j].amount
  {
    if j == 0 {
      AbsentAmount(b[1..], b[0].key);
    } else {
      DistinctBucketAmount(b[1..], j - 1);
      assert b[1..][j - 1] == b[j];
      if b[0].key == b[j].key {
        KeyAtIndex(b[1..], j - 1);
        assert false;
      }
    }
  }

  lemma {:induction false} AbsentAmount<K>(b: seq<Bucket<K>>, k: K)
    requires !HasKey(b, k)
    ensures AmountOf(b, k) == 0.0
  {
    if b != [] {
      AbsentAmount(b[1..], k);
    }
  }

  lemma {:induction false} KeyAtIndex<K>(b: seq<Bucket<K>>, j: nat)
    requires j < |b|
    ensures HasKey(b, b[j].key)
  {
    if j > 0 {
      KeyAtIndex(b[1..], j - 1);
      assert b[1..][j - 1] == b[j];
    }
  }

  lemma {:induction false} IndexOfKey<K>(b: seq<Bucket<K>>, k: K) returns (j: nat)
    requires HasKey(b, k)
    ensures j < |b| && b[j].key == k
  {
    if b[0].key == k {
      j := 0;
    } else {
      var i := IndexOfKey(b[1..], k);
      j := i + 1;
    }
  }

  lemma {:induction false} DistinctKeysDiffer<K>(b: seq<Bucket<K>>, p: nat, q: nat)
    requires Distinct(b) && p < |b| && q < |b| && p != q
    ensures b[p].key != b[q].key
  {
    if p == 0 {
      KeyAtIndex(b[1..], q - 1);
      assert b[1..][q - 1] == b[q];
    } else if q == 0 {
      KeyAtIndex(b[1..], p - 1);
      assert b[1..][p - 1] == b[p];
    } else {
      DistinctKeysDiffer(b[1..], p - 1, q - 1);
      assert b[1..][p - 1] == b[p] && b[1..][q - 1] == b[q];
    }
  }
}
