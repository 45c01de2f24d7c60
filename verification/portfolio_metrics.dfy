/** The metrics calculator of the portfolio service
    (`calculatePortfolioMetrics`): totals, gain/loss, sector and asset-type
    allocations in percent, and the diversification score. */
module PortfolioMetrics {
  import opened Wrappers
  import opened Numbers
  import opened Allocations
  import opened Domain
  import opened Diversification

  /** `currentPrice || avgBuyPrice`: an unpriced (0) holding is valued at cost. */
  function EffectivePrice(h: Holding): real
  {
    JsOr(Some(h.currentPrice), h.avgBuyPrice)
  }

  function Value(h: Holding): real
  {
    h.quantity * EffectivePrice(h)
  }

  function Cost(h: Holding): real
  {
    h.quantity * h.avgBuyPrice
  }

  /** `holding.sector || 'other'`: a missing or empty sector is filed as "other". */
  function SectorKey(h: Holding): string
  {
    if h.sector.Some? && h.sector.value != "" then h.sector.value else "other"
  }

  function AssetKey(h: Holding): AssetType
  {
    h.assetType
  }

  function TotalValue(hs: seq<Holding>): real
  {
    if hs == [] then 0.0 else Value(hs[0]) + TotalValue(hs[1..])
  }

  function TotalCost(hs: seq<Holding>): real
  {
    if hs == [] then 0.0 else Cost(hs[0]) + TotalCost(hs[1..])
  }

  /** Total value of the holdings filed under sector `s`. */
  function SectorValue(hs: seq<Holding>, s: string): real
  {
    if hs == [] then 0.0
    else (if SectorKey(hs[0]) == s then Value(hs[0]) else 0.0) + SectorValue(hs[1..], s)
  }

  /** Total value of the holdings of asset type `a`. */
  function AssetValue(hs: seq<Holding>, a: AssetType): real
  {
    if hs == [] then 0.0
    else (if hs[0].assetType == a then Value(hs[0]) else 0.0) + AssetValue(hs[1..], a)
  }

  /** The (key, current value) pair each holding contributes, in list order. */
  function Entries<K>(hs: seq<Holding>, key: Holding -> K): (e: seq<Bucket<K>>)
    ensures |e| == |hs|
    ensures forall i :: 0 <= i < |hs| ==> e[i] == Bucket(key(hs[i]), Value(hs[i]))
    ensures Total(e) == TotalValue(hs)
  {
    if hs == [] then [] else [Bucket(key(hs[0]), Value(hs[0]))] + Entries(hs[1..], key)
  }

  /** The allocations are divided by the total value without a guard; the
      model admits only the lists where that division is defined. */
  predicate Priced(hs: seq<Holding>)
  {
    |hs| > 0 ==> TotalValue(hs) != 0.0
  }

  /** `totalCost > 0 ? gainLoss / totalCost * 100 : 0`. */
  function GainLossPercent(gainLoss: real, cost: real): (r: real)
    ensures cost > 0.0 ==> r == Percent(gainLoss, cost)
    ensures cost <= 0.0 ==> r == 0.0
  {
    if cost > 0.0 then Percent(gainLoss, cost) else 0.0
  }

  /** Sector allocation in percent of the total value, keyed in order of
      first appearance. */
  function SectorAllocation(hs: seq<Holding>): (a: seq<Bucket<string>>)
    requires Priced(hs)
    ensures Distinct(a)
    ensures forall s :: HasKey(a, s) <==> exists i :: 0 <= i < |hs| && SectorKey(hs[i]) == s
    ensures forall j :: 0 <= j < |a| ==> hs != [] && a[j].amount == Percent(SectorValue(hs, a[j].key), TotalValue(hs))
    ensures hs != [] ==> Total(a) == 100.0
    ensures hs == [] ==> a == []
  {
    SectorEntriesAgree(hs);
    Percentages(Entries(hs, SectorKey))
  }

  /** Asset-type allocation in percent of the total value. */
  function AssetAllocation(hs: seq<Holding>): (a: seq<Bucket<AssetType>>)
    requires Priced(hs)
    ensures Distinct(a)
    ensures forall t :: HasKey(a, t) <==> exists i :: 0 <= i < |hs| && hs[i].assetType == t
    ensures forall j :: 0 <= j < |a| ==> hs != [] && a[j].amount == Percent(AssetValue(hs, a[j].key), TotalValue(hs))
    ensures hs != [] ==> Total(a) == 100.0
    ensures hs == [] ==> a == []
  {
    AssetEntriesAgree(hs);
    Percentages(Entries(hs, AssetKey))
  }

  function CalculateMetrics(hs: seq<Holding>, ln: real -> real): (m: Metrics)
    requires Priced(hs)
    ensures m.totalValue == TotalValue(hs) && m.totalCost == TotalCost(hs)
    ensures m.totalGainLoss == m.totalValue - m.totalCost
    ensures m.totalCost > 0.0 ==> m.totalGainLossPercent == Percent(m.totalGainLoss, m.totalCost)
    ensures m.totalCost <= 0.0 ==> m.totalGainLossPercent == 0.0
    ensures m.numberOfHoldings == |hs|
    ensures m.sectorAllocation == SectorAllocation(hs) && m.assetAllocation == AssetAllocation(hs)
    ensures hs != [] ==> Total(m.sectorAllocation) == 100.0 && Total(m.assetAllocation) == 100.0
    ensures hs == [] ==> m.totalValue == 0.0 && m.totalCost == 0.0 && m.totalGainLossPercent == 0.0
    ensures hs == [] ==> m.sectorAllocation == [] && m.assetAllocation == [] && m.diversificationScore == 0.0
    ensures m.diversificationScore == DiversificationScore(m.sectorAllocation, ln)
  {
    var totalValue := TotalValue(hs);
    var totalCost := TotalCost(hs);
    var sectorAllocation := SectorAllocation(hs);
    Metrics(
      totalValue, totalCost, totalValue - totalCost, GainLossPercent(totalValue - totalCost, totalCost),
      sectorAllocation, AssetAllocation(hs), |hs|, DiversificationScore(sectorAllocation, ln))
  }

  /** The accumulated table of the sector entries files each sector's total value. */
  lemma {:induction false} SectorEntriesAgree(hs: seq<Holding>)
    ensures forall s :: AmountOf(Entries(hs, SectorKey), s) == SectorValue(hs, s)
    ensures forall s :: HasKey(Entries(hs, SectorKey), s) <==> exists i :: 0 <= i < |hs| && SectorKey(hs[i]) == s
  {
    if hs != [] {
      SectorEntriesAgree(hs[1..]);
      assert Entries(hs, SectorKey)[1..] == Entries(hs[1..], SectorKey);
      forall s | exists i :: 0 <= i < |hs| && SectorKey(hs[i]) == s
        ensures HasKey(Entries(hs, SectorKey), s)
      {
        var i :| 0 <= i < |hs| && SectorKey(hs[i]) == s;
        if i > 0 {
          assert hs[1..][i - 1] == hs[i];
        }
      }
      forall s | HasKey(Entries(hs[1..], SectorKey), s)
        ensures exists i :: 0 <= i < |hs| && SectorKey(hs[i]) == s
      {
        var i :| 0 <= i < |hs[1..]| && SectorKey(hs[1..][i]) == s;
        assert SectorKey(hs[i + 1]) == s;
      }
    }
  }

  lemma {:induction false} AssetEntriesAgree(hs: seq<Holding>)
    ensures forall a :: AmountOf(Entries(hs, AssetKey), a) == AssetValue(hs, a)
    ensures forall a :: HasKey(Entries(hs, AssetKey), a) <==> exists i :: 0 <= i < |hs| && hs[i].assetType == a
  {
    if hs != [] {
      AssetEntriesAgree(hs[1..]);
      assert Entries(hs, AssetKey)[1..] == Entries(hs[1..], AssetKey);
      forall a | exists i :: 0 <= i < |hs| && hs[i].assetType == a
        ensures HasKey(Entries(hs, AssetKey), a)
      {
        var i :| 0 <= i < |hs| && hs[i].assetType == a;
        if i > 0 {
          assert hs[1..][i - 1] == hs[i];
        }
      }
      forall a | HasKey(Entries(hs[1..], AssetKey), a)
        ensures exists i :: 0 <= i < |hs| && hs[i].assetType == a
      {
        var i :| 0 <= i < |hs[1..]| && hs[1..][i].assetType == a;
        assert hs[i + 1].assetType == a;
      }
    }
  }

  /** Quantity and both prices are non-negative, as the add-holding request
      validation demands of quantity and average price. */
  predicate NonNegative(h: Holding)
  {
    h.quantity >= 0.0 && h.avgBuyPrice >= 0.0 && h.currentPrice >= 0.0
  }

  predicate AllNonNegativeHoldings(hs: seq<Holding>)
  {
    forall i :: 0 <= i < |hs| ==> NonNegative(hs[i])
  }

  /** Two holdings in different sectors both carry value. */
  predicate SpansSectors(hs: seq<Holding>)
  {
    exists i, j :: 0 <= i < |hs| && 0 <= j < |hs| && SectorKey(hs[i]) != SectorKey(hs[j])
      && Value(hs[i]) > 0.0 && Value(hs[j]) > 0.0
  }

  /** For non-negative holdings, the diversification score is never negative,
      and it is positive exactly when value is held in at least two sectors;
      every single-sector portfolio scores 0. */
  lemma DiversifiedIff(hs: seq<Holding>, ln: real -> real)
    requires LnLaws(ln)
    requires AllNonNegativeHoldings(hs) && Priced(hs)
    ensures CalculateMetrics(hs, ln).diversificationScore >= 0.0
    ensures CalculateMetrics(hs, ln).diversificationScore > 0.0 <==> SpansSectors(hs)
  {
    var a := SectorAllocation(hs);
    if hs == [] {
      assert !SpansSectors(hs);
    } else {
      AllocationIsPercent(hs);
      DiversificationPositiveIff(a, ln);
      if MultiSector(a) {
        MultiSectorSpans(hs);
      }
      if SpansSectors(hs) {
        SpansMultiSector(hs);
      }
    }
  }

  /** The diversification score the service reports for non-negative
      holdings, whatever their total. A non-empty list worth 0 divides each
      sector's 0 by 0; the resulting NaN weights all fail `weight > 0`, so the
      entropy stays 0 and so does the score. */
  function ReportedDiversification(hs: seq<Holding>, ln: real -> real): (r: real)
    requires Priced(hs) || AllNonNegativeHoldings(hs)
    ensures Priced(hs) ==> r == CalculateMetrics(hs, ln).diversificationScore
    ensures !Priced(hs) ==> r == 0.0 && hs != [] && forall i :: 0 <= i < |hs| ==> Value(hs[i]) == 0.0
  {
    if Priced(hs) then CalculateMetrics(hs, ln).diversificationScore
    else
      WorthlessValues(hs);
      0.0
  }

  /** The reported score obeys `DiversifiedIff` on every non-negative list,
      including the ones worth 0, which never span two sectors. */
  lemma ReportedDiversifiedIff(hs: seq<Holding>, ln: real -> real)
    requires LnLaws(ln) && AllNonNegativeHoldings(hs)
    ensures ReportedDiversification(hs, ln) >= 0.0
    ensures ReportedDiversification(hs, ln) > 0.0 <==> SpansSectors(hs)
  {
    if Priced(hs) {
      DiversifiedIff(hs, ln);
    }
  }

  /** Non-negative holdings worth 0 in total are each worth 0. */
  lemma WorthlessValues(hs: seq<Holding>)
    requires AllNonNegativeHoldings(hs) && !Priced(hs)
    ensures hs != [] && forall i :: 0 <= i < |hs| ==> Value(hs[i]) == 0.0
  {
    forall i | 0 <= i < |hs|
      ensures Value(hs[i]) == 0.0
    {
      ValueBelowTotal(hs, i);
      ValueNonNegative(hs[i]);
    }
  }

  lemma AllocationIsPercent(hs: seq<Holding>)
    requires AllNonNegativeHoldings(hs) && Priced(hs) && hs != []
    ensures TotalValue(hs) > 0.0
    ensures AllNonNegative(SectorAllocation(hs)) && Total(SectorAllocation(hs)) == 100.0
  {
    var a := SectorAllocation(hs);
    TotalValueNonNegative(hs);
    forall j | 0 <= j < |a|
      ensures a[j].amount >= 0.0
    {
      SectorValueNonNegative(hs, a[j].key);
      PercentSign(SectorValue(hs, a[j].key), TotalValue(hs));
    }
  }

  lemma MultiSectorSpans(hs: seq<Holding>)
    requires AllNonNegativeHoldings(hs) && Priced(hs) && hs != []
    requires MultiSector(SectorAllocation(hs))
    ensures SpansSectors(hs)
  {
    var a := SectorAllocation(hs);
    AllocationIsPercent(hs);
    var p, q :| 0 <= p < |a| && 0 <= q < |a| && p != q && a[p].amount > 0.0 && a[q].amount > 0.0;
    DistinctKeysDiffer(a, p, q);
    PercentSign(SectorValue(hs, a[p].key), TotalValue(hs));
    PercentSign(SectorValue(hs, a[q].key), TotalValue(hs));
    var i := SectorValueWitness(hs, a[p].key);
    var j := SectorValueWitness(hs, a[q].key);
    assert SectorKey(hs[i]) != SectorKey(hs[j]);
  }

  lemma SpansMultiSector(hs: seq<Holding>)
    requires AllNonNegativeHoldings(hs) && Priced(hs) && hs != []
    requires SpansSectors(hs)
    ensures MultiSector(SectorAllocation(hs))
  {
    var a := SectorAllocation(hs);
    AllocationIsPercent(hs);
    var i, j :| 0 <= i < |hs| && 0 <= j < |hs| && SectorKey(hs[i]) != SectorKey(hs[j])
      && Value(hs[i]) > 0.0 && Value(hs[j]) > 0.0;
    var p := IndexOfKey(a, SectorKey(hs[i]));
    var q := IndexOfKey(a, SectorKey(hs[j]));
    SectorValueBound(hs, i);
    SectorValueBound(hs, j);
    PercentSign(SectorValue(hs, a[p].key), TotalValue(hs));
    PercentSign(SectorValue(hs, a[q].key), TotalValue(hs));
    assert a[p].amount > 0.0 && a[q].amount > 0.0 && p != q;
  }

  lemma ValueNonNegative(h: Holding)
    requires NonNegative(h)
    ensures Value(h) >= 0.0
  {
  }

  lemma {:induction false} TotalValueNonNegative(hs: seq<Holding>)
    requires AllNonNegativeHoldings(hs)
    ensures TotalValue(hs) >= 0.0
  {
    if hs != [] {
      ValueNonNegative(hs[0]);
      TotalValueNonNegative(hs[1..]);
    }
  }

  lemma {:induction false} ValueBelowTotal(hs: seq<Holding>, i: nat)
    requires AllNonNegativeHoldings(hs) && i < |hs|
    ensures TotalValue(hs) >= Value(hs[i])
  {
    ValueNonNegative(hs[0]);
    TotalValueNonNegative(hs[1..]);
    if i > 0 {
      ValueBelowTotal(hs[1..], i - 1);
      assert hs[1..][i - 1] == hs[i];
    }
  }

  lemma {:induction false} SectorValueNonNegative(hs: seq<Holding>, s: string)
    requires AllNonNegativeHoldings(hs)
    ensures SectorValue(hs, s) >= 0.0
  {
    if hs != [] {
      ValueNonNegative(hs[0]);
      SectorValueNonNegative(hs[1..], s);
    }
  }

  lemma {:induction false} SectorValueBound(hs: seq<Holding>, i: nat)
    requires AllNonNegativeHoldings(hs) && i < |hs|
    ensures SectorValue(hs, SectorKey(hs[i])) >= Value(hs[i])
  {
    ValueNonNegative(hs[0]);
    SectorValueNonNegative(hs[1..], SectorKey(hs[i]));
    if i > 0 {
      SectorValueBound(hs[1..], i - 1);
      assert hs[1..][i - 1] == hs[i];
    }
  }

  lemma {:induction false} SectorValueWitness(hs: seq<Holding>, s: string) returns (i: nat)
    requires SectorValue(hs, s) > 0.0
    ensures i < |hs| && SectorKey(hs[i]) == s && Value(hs[i]) > 0.0
  {
    if SectorKey(hs[0]) == s && Value(hs[0]) > 0.0 {
      i := 0;
    } else {
      var k := SectorValueWitness(hs[1..], s);
      i := k + 1;
    }
  }
}
