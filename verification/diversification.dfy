/** The entropy-based diversification score of a sector allocation
    (portfolioService `calculateDiversificationScore`). The natural logarithm
    is a parameter; the lemmas assume only the three laws of `LnLaws`. */
module Diversification {
  import opened Allocations

  /** The properties of `Math.log` the score depends on. */
  ghost predicate LnLaws(ln: real -> real)
  {
    && ln(1.0) == 0.0
    && (forall x: real :: x > 1.0 ==> ln(x) > 0.0)
    && (forall x: real :: 0.0 < x < 1.0 ==> ln(x) < 0.0)
  }

  /** `entropy -= w * Math.log(w)`, applied only when `w > 0`. */
  function EntropyTerm(w: real, ln: real -> real): real
  {
    if w > 0.0 then -(w * ln(w)) else 0.0
  }

  /** Shannon entropy of the weights `percent / 100`. */
  function Entropy<K>(b: seq<Bucket<K>>, ln: real -> real): real
  {
    if b == [] then 0.0 else EntropyTerm(b[0].amount / 100.0, ln) + Entropy(b[1..], ln)
  }

  /** Entropy normalised by `ln` of the number of keys (zero-weight keys
      included), in percent; 0 when that normaliser is not positive. */
  function DiversificationScore<K>(b: seq<Bucket<K>>, ln: real -> real): (r: real)
    ensures b == [] ==> r == 0.0
    ensures |b| == 1 && LnLaws(ln) ==> r == 0.0
    ensures |b| >= 2 && LnLaws(ln) ==> r * ln(|b| as real) == Entropy(b, ln) * 100.0
  {
    if |b| == 0 then 0.0
    else
      var maxEntropy := ln(|b| as real);
      if maxEntropy > 0.0 then Entropy(b, ln) / maxEntropy * 100.0 else 0.0
  }

  /** At least two distinct buckets hold a positive share. */
  predicate MultiSector<K>(b: seq<Bucket<K>>)
  {
    exists i, j :: 0 <= i < |b| && 0 <= j < |b| && i != j && b[i].amount > 0.0 && b[j].amount > 0.0
  }

  /** For a percent allocation (non-negative, summing to 100) the score is
      never negative, and it is positive exactly when two or more sectors
      hold value: a single-sector portfolio scores 0. */
  lemma DiversificationPositiveIff<K>(b: seq<Bucket<K>>, ln: real -> real)
    requires LnLaws(ln)
    requires AllNonNegative(b) && Total(b) == 100.0
    ensures DiversificationScore(b, ln) >= 0.0
    ensures DiversificationScore(b, ln) > 0.0 <==> MultiSector(b)
  {
    forall j | 0 <= j < |b|
      ensures b[j].amount <= 100.0
    {
      AmountBelowTotal(b, j);
    }
    EntropyNonNegative(b, ln);
    if MultiSector(b) {
      var i, j :| 0 <= i < |b| && 0 <= j < |b| && i != j && b[i].amount > 0.0 && b[j].amount > 0.0;
      PairBelowTotal(b, i, j);
      EntropyPositive(b, ln, i);
      assert |b| as real > 1.0;
    } else {
      SingleSectorShares(b);
      EntropyVanishes(b, ln);
    }
  }

  lemma {:induction false} AmountBelowTotal<K>(b: seq<Bucket<K>>, j: nat)
    requires AllNonNegative(b) && j < |b|
    ensures b[j].amount <= Total(b)
  {
    NonNegativeTotal(b[1..]);
    if j > 0 {
      AmountBelowTotal(b[1..], j - 1);
      assert b[1..][j - 1] == b[j];
    }
  }

  lemma {:induction false} NonNegativeTotal<K>(b: seq<Bucket<K>>)
    requires AllNonNegative(b)
    ensures Total(b) >= 0.0
  {
    if b != [] {
      NonNegativeTotal(b[1..]);
    }
  }

  lemma {:induction false} PairBelowTotal<K>(b: seq<Bucket<K>>, i: nat, j: nat)
    requires AllNonNegative(b) && i < |b| && j < |b| && i != j
    ensures b[i].amount + b[j].amount <= Total(b)
  {
    if i == 0 {
      AmountBelowTotal(b[1..], j - 1);
      assert b[1..][j - 1] == b[j];
    } else if j == 0 {
      AmountBelowTotal(b[1..], i - 1);
      assert b[1..][i - 1] == b[i];
    } else {
      PairBelowTotal(b[1..], i - 1, j - 1);
      assert b[1..][i - 1] == b[i] && b[1..][j - 1] == b[j];
    }
  }

  lemma {:induction false} TotalOfSingle<K>(b: seq<Bucket<K>>, i: nat)
    requires i < |b|
    requires forall j :: 0 <= j < |b| && j != i ==> b[j].amount == 0.0
    ensures Total(b) == b[i].amount
  {
    if i == 0 {
      ZeroTotal(b[1..]);
    } else {
      assert b[0].amount == 0.0;
      TotalOfSingle(b[1..], i - 1);
    }
  }

  lemma {:induction false} ZeroTotal<K>(b: seq<Bucket<K>>)
    requires forall j :: 0 <= j < |b| ==> b[j].amount == 0.0
    ensures Total(b) == 0.0
  {
    if b != [] {
      ZeroTotal(b[1..]);
    }
  }

  /** Without two positive buckets, a percent allocation is all-or-nothing. */
  lemma SingleSectorShares<K>(b: seq<Bucket<K>>)
    requires AllNonNegative(b) && Total(b) == 100.0 && !MultiSector(b)
    ensures forall j :: 0 <= j < |b| ==> b[j].amount == 0.0 || b[j].amount == 100.0
  {
    forall i | 0 <= i < |b| && b[i].amount > 0.0
      ensures b[i].amount == 100.0
    {
      TotalOfSingle(b, i);
    }
  }

  lemma {:induction false} EntropyNonNegative<K>(b: seq<Bucket<K>>, ln: real -> real)
    requires LnLaws(ln)
    requires forall j :: 0 <= j < |b| ==> 0.0 <= b[j].amount <= 100.0
    ensures Entropy(b, ln) >= 0.0
  {
    if b != [] {
      TermNonNegative(b[0].amount / 100.0, ln);
      EntropyNonNegative(b[1..], ln);
    }
  }

  lemma TermNonNegative(w: real, ln: real -> real)
    requires LnLaws(ln) && 0.0 <= w <= 1.0
    ensures EntropyTerm(w, ln) >= 0.0
  {
    if 0.0 < w < 1.0 {
      TermPositive(w, ln);
    }
  }

  lemma TermPositive(w: real, ln: real -> real)
    requires LnLaws(ln) && 0.0 < w < 1.0
    ensures EntropyTerm(w, ln) > 0.0
  {
    assert ln(w) < 0.0;
    assert w * ln(w) < 0.0;
  }

  lemma {:induction false} EntropyPositive<K>(b: seq<Bucket<K>>, ln: real -> real, i: nat)
    requires LnLaws(ln)
    requires forall j :: 0 <= j < |b| ==> 0.0 <= b[j].amount <= 100.0
    requires i < |b| && 0.0 < b[i].amount < 100.0
    ensures Entropy(b, ln) > 0.0
  {
    if i == 0 {
      TermPositive(b[0].amount / 100.0, ln);
      EntropyNonNegative(b[1..], ln);
    } else {
      TermNonNegative(b[0].amount / 100.0, ln);
      EntropyPositive(b[1..], ln, i - 1);
    }
  }

  lemma {:induction false} EntropyVanishes<K>(b: seq<Bucket<K>>, ln: real -> real)
    requires LnLaws(ln)
    requires forall j :: 0 <= j < |b| ==> b[j].amount == 0.0 || b[j].amount == 100.0
    ensures Entropy(b, ln) == 0.0
  {
    if b != [] {
      EntropyVanishes(b[1..], ln);
    }
  }
}
