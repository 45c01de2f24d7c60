/** The numeric and validation helpers (utils/helpers.js): percentage change,
    the sign flag of the portfolio summary and the per-asset-type ticker
    patterns. Currency formatting is not modelled. */
module Helpers {
  import opened Numbers
  import opened Domain
  import opened PortfolioMetrics

  // ------------------------------------------------------- percentage change

  /** The change from `oldValue` to `newValue` in percent of `oldValue`; a
      zero base reports no change. */
  function CalculatePercentageChange(oldValue: real, newValue: real): (r: real)
    ensures oldValue == 0.0 ==> r == 0.0
    ensures oldValue != 0.0 ==> r == Percent(newValue - oldValue, oldValue)
  {
    if oldValue == 0.0 then 0.0 else (newValue - oldValue) / oldValue * 100.0
  }

  /** `base` moved by `percent` percent. */
  function ApplyChange(base: real, percent: real): real
  {
    base + percent * base / 100.0
  }

  /** Applying the reported change to the old value gives back the new one. */
  lemma ChangeRestoresNewValue(oldValue: real, newValue: real)
    requires oldValue != 0.0
    ensures ApplyChange(oldValue, CalculatePercentageChange(oldValue, newValue)) == newValue
  {
  }

  /** Moving a non-zero value by `percent` reports exactly `percent`. */
  lemma ChangeOfApplied(oldValue: real, percent: real)
    requires oldValue != 0.0
    ensures CalculatePercentageChange(oldValue, ApplyChange(oldValue, percent)) == percent
  {
  }

  /** From a positive base the change has the sign of the difference, and
      equal values report no change from any base. */
  lemma ChangeSign(oldValue: real, newValue: real)
    ensures oldValue == newValue ==> CalculatePercentageChange(oldValue, newValue) == 0.0
    ensures oldValue > 0.0 ==> (CalculatePercentageChange(oldValue, newValue) > 0.0 <==> newValue > oldValue)
    ensures oldValue > 0.0 ==> (CalculatePercentageChange(oldValue, newValue) >= 0.0 <==> newValue >= oldValue)
  {
  }

  // ------------------------------------------------------------- the summary

  /** The `isPositive` flag of the portfolio summary. */
  predicate SummaryIsPositive(m: Metrics)
  {
    m.totalGainLoss >= 0.0
  }

  /** On computed metrics the flag says that the holdings are worth at least
      what they cost. */
  lemma PositiveIffValueCoversCost(hs: seq<Holding>, ln: real -> real)
    requires Priced(hs)
    ensures SummaryIsPositive(CalculateMetrics(hs, ln)) <==> TotalValue(hs) >= TotalCost(hs)
  {
  }

  // ---------------------------------------------------------- ticker patterns

  predicate IsUpper(c: char)
  {
    'A' <= c <= 'Z'
  }

  predicate IsUpperOrDigit(c: char)
  {
    IsUpper(c) || '0' <= c <= '9'
  }

  /** `c` is in `[A-Z]`, or in `[A-Z0-9]` when digits are allowed. */
  predicate InClass(c: char, digits: bool)
  {
    if digits then IsUpperOrDigit(c) else IsUpper(c)
  }

  predicate AllUpper(s: string)
  {
    forall i :: 0 <= i < |s| ==> IsUpper(s[i])
  }

  /** `^[A-Z]{1,5}(\.[A-Z]{2})?$` */
  ghost predicate StockPattern(t: string)
  {
    exists n :: 1 <= n <= 5 && n <= |t| && AllUpper(t[..n]) &&
      (n == |t| || (|t| == n + 3 && t[n] == '.' && AllUpper(t[n + 1..])))
  }

  /** `^[A-Z]{3,10}-[A-Z]{3,10}$` */
  ghost predicate CryptoPattern(t: string)
  {
    exists n :: 3 <= n <= 10 && n < |t| && AllUpper(t[..n]) && t[n] == '-' &&
      AllUpper(t[n + 1..]) && 3 <= |t| - n - 1 <= 10
  }

  /** `^[A-Z0-9]{5,15}$` */
  ghost predicate FundPattern(t: string)
  {
    5 <= |t| <= 15 && forall i :: 0 <= i < |t| ==> IsUpperOrDigit(t[i])
  }

  /** The end of the longest run of class characters starting at `i`. */
  function Run(t: string, i: nat, digits: bool): (r: nat)
    requires i <= |t|
    ensures i <= r <= |t|
    ensures forall j :: i <= j < r ==> InClass(t[j], digits)
    ensures r < |t| ==> !InClass(t[r], digits)
    decreases |t| - i
  {
    if i == |t| || !InClass(t[i], digits) then i else Run(t, i + 1, digits)
  }

  /** A run of upper-case letters starting at `i` ends at the first character
      outside the class. */
  lemma RunStopsAt(t: string, i: nat, n: nat)
    requires i <= n <= |t|
    requires forall j :: i <= j < n ==> IsUpper(t[j])
    requires n == |t| || !IsUpper(t[n])
    ensures Run(t, i, false) == n
  {
  }

  function StockMatch(t: string): bool
  {
    var n := Run(t, 0, false);
    1 <= n <= 5 && (n == |t| || (|t| == n + 3 && t[n] == '.' && Run(t, n + 1, false) == |t|))
  }

  function CryptoMatch(t: string): bool
  {
    var n := Run(t, 0, false);
    3 <= n <= 10 && n < |t| && t[n] == '-' && Run(t, n + 1, false) == |t| && 3 <= |t| - n - 1 <= 10
  }

  function FundMatch(t: string): bool
  {
    5 <= |t| <= 15 && Run(t, 0, true) == |t|
  }

  /** A slice is all upper case exactly when each of its positions is. */
  lemma UpperSlice(t: string, i: nat, k: nat)
    requires i <= k <= |t|
    ensures AllUpper(t[i..k]) <==> forall j :: i <= j < k ==> IsUpper(t[j])
  {
    forall m | 0 <= m < k - i
      ensures t[i..k][m] == t[i + m]
    {
    }
  }

  lemma StockMatchIff(t: string)
    ensures StockMatch(t) <==> StockPattern(t)
  {
    var n := Run(t, 0, false);
    if StockMatch(t) {
      UpperSlice(t, 0, n);
      if n < |t| {
        UpperSlice(t, n + 1, |t|);
        assert t[n + 1..] == t[n + 1..|t|];
      }
    }
    if StockPattern(t) {
      var k :| 1 <= k <= 5 && k <= |t| && AllUpper(t[..k]) &&
        (k == |t| || (|t| == k + 3 && t[k] == '.' && AllUpper(t[k + 1..])));
      UpperSlice(t, 0, k);
      assert t[..k] == t[0..k];
      RunStopsAt(t, 0, k);
      if k < |t| {
        UpperSlice(t, k + 1, |t|);
        assert t[k + 1..] == t[k + 1..|t|];
        RunStopsAt(t, k + 1, |t|);
      }
    }
  }

  lemma CryptoMatchIff(t: string)
    ensures CryptoMatch(t) <==> CryptoPattern(t)
  {
  }

  lemma FundMatchIff(t: string)
    ensures FundMatch(t) <==> FundPattern(t)
  {
  }

  /** `validateTicker`: stocks, crypto and mutual funds are checked against
      their pattern; every other asset type accepts any ticker. */
  function ValidateTicker(ticker: string, assetType: AssetType): (r: bool)
    ensures assetType == Stock ==> (r <==> StockPattern(ticker))
    ensures assetType == Crypto ==> (r <==> CryptoPattern(ticker))
    ensures assetType == MutualFund ==> (r <==> FundPattern(ticker))
    ensures assetType !in {Stock, Crypto, MutualFund} ==> r
  {
    StockMatchIff(ticker);
    CryptoMatchIff(ticker);
    FundMatchIff(ticker);
    match assetType
    case Stock => StockMatch(ticker)
    case Crypto => CryptoMatch(ticker)
    case MutualFund => FundMatch(ticker)
    case _ => true
  }

  /** An exchange-suffixed stock ticker is accepted. */
  lemma SuffixedStockAccepted()
    ensures ValidateTicker("INFY.NS", Stock)
  {
  }

  /** A bare stock ticker longer than five letters is rejected. */
  lemma LongStockRejected()
    ensures !ValidateTicker("RELIANCE", Stock)
  {
  }

  /** A pair-style crypto ticker is accepted; without the dash it is not. */
  lemma CryptoPairs()
    ensures ValidateTicker("BTC-USD", Crypto)
    ensures !ValidateTicker("BTCUSD", Crypto)
  {
  }
}
