/** Copying the intelligence service's real-time prices onto the stored
    holdings (portfolio service, `getPortfolioAnalysis`): each quote updates the
    FIRST holding with the same ticker; later quotes for a ticker overwrite
    earlier ones. */
module PriceMerge {
  import opened Wrappers
  import opened Domain

  /** `holdings.find(h => h.ticker === t)`, as an index. */
  function FirstWithTicker(hs: seq<Holding>, t: string): (r: Option<nat>)
    ensures r.Some? ==> r.value < |hs| && hs[r.value].ticker == t
    ensures r.Some? ==> forall j :: 0 <= j < r.value ==> hs[j].ticker != t
    ensures r.None? ==> forall j :: 0 <= j < |hs| ==> hs[j].ticker != t
  {
    if hs == [] then None
    else if hs[0].ticker == t then Some(0)
    else match FirstWithTicker(hs[1..], t)
      case None => None
      case Some(i) => Some(i + 1)
  }

  /** `hs[i]` is the first holding of its ticker. */
  predicate IsFirst(hs: seq<Holding>, i: nat)
    requires i < |hs|
  {
    forall j :: 0 <= j < i ==> hs[j].ticker != hs[i].ticker
  }

  /** Two holdings agree on every field except possibly the current price. */
  predicate SameButPrice(a: Holding, b: Holding)
  {
    a == b.(currentPrice := a.currentPrice)
  }

  function ApplyQuote(hs: seq<Holding>, q: Quote): (r: seq<Holding>)
    ensures |r| == |hs|
    ensures forall i :: 0 <= i < |hs| ==>
      r[i] == if FirstWithTicker(hs, q.ticker) == Some(i) then hs[i].(currentPrice := q.currentPrice) else hs[i]
  {
    match FirstWithTicker(hs, q.ticker)
    case None => hs
    case Some(i) => hs[i := hs[i].(currentPrice := q.currentPrice)]
  }

  /** The `forEach` over the quotes. The list keeps its length and every
      holding keeps every field but its current price. */
  function MergePrices(hs: seq<Holding>, quotes: seq<Quote>): (r: seq<Holding>)
    ensures |r| == |hs|
    ensures forall i :: 0 <= i < |hs| ==> SameButPrice(r[i], hs[i])
    decreases |quotes|
  {
    if quotes == [] then hs else MergePrices(ApplyQuote(hs, quotes[0]), quotes[1..])
  }

  /** The price of the last quote for ticker `t`, if any. */
  function LastQuote(quotes: seq<Quote>, t: string): Option<real>
  {
    if quotes == [] then None
    else match LastQuote(quotes[1..], t)
      case Some(p) => Some(p)
      case None => if quotes[0].ticker == t then Some(quotes[0].currentPrice) else None
  }

  /** The merge as a whole: the first holding of each quoted ticker ends with
      the last quoted price for that ticker; every other holding is untouched. */
  lemma {:induction false} MergePricesSpec(hs: seq<Holding>, quotes: seq<Quote>, i: nat)
    requires i < |hs|
    ensures MergePrices(hs, quotes)[i] ==
      if IsFirst(hs, i) && LastQuote(quotes, hs[i].ticker).Some?
      then hs[i].(currentPrice := LastQuote(quotes, hs[i].ticker).value)
      else hs[i]
    decreases |quotes|
  {
    if quotes != [] {
      var q := quotes[0];
      var hs' := ApplyQuote(hs, q);
      MergePricesSpec(hs', quotes[1..], i);
      assert IsFirst(hs', i) == IsFirst(hs, i) by {
        assert forall j :: 0 <= j < |hs| ==> hs'[j].ticker == hs[j].ticker;
      }
      var first := FirstWithTicker(hs, q.ticker);
      if first == Some(i) {
        assert IsFirst(hs, i);
      }
    }
  }

  /** `if (aiAnalysis.holdings_with_real_time_prices)`: without quotes the
      holdings are left as they are; with quotes they are merged, so
      `MergePricesSpec` fixes every refreshed price. */
  function RefreshPrices(hs: seq<Holding>, ai: AiAnalysis): (r: seq<Holding>)
    ensures ai.pricedHoldings.None? ==> r == hs
    ensures ai.pricedHoldings.Some? ==> r == MergePrices(hs, ai.pricedHoldings.value)
    ensures |r| == |hs|
    ensures forall i :: 0 <= i < |hs| ==> SameButPrice(r[i], hs[i])
  {
    match ai.pricedHoldings
    case None => hs
    case Some(quotes) => MergePrices(hs, quotes)
  }
}
