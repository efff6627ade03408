/**
 * The analysing stage: an exhaustive scan over the pairs (i, j), i < j, of a
 * batch of observations, keeping the cross-chain price gaps on one token
 * pair that reach the profit threshold.
 */
module Think {
  import opened Options
  import opened Sense

  /** The trade size the estimated profit assumes. */
  const NotionalTradeSize: real := 1000.0

  datatype ArbitrageOpportunity = ArbitrageOpportunity(
    buyMarket: MarketData,
    sellMarket: MarketData,
    profitPercentage: real,
    estimatedProfit: real)

  function MinPrice(a: MarketData, b: MarketData): Price {
    if a.price <= b.price then a.price else b.price
  }

  function MaxPrice(a: MarketData, b: MarketData): Price {
    if a.price <= b.price then b.price else a.price
  }

  /** The price gap of two markets as a fraction of the lower price. */
  function Spread(a: MarketData, b: MarketData): real {
    (MaxPrice(a, b) - MinPrice(a, b)) / MinPrice(a, b)
  }

  /** The two markets of a pair that the scan compares at all. */
  predicate Comparable(a: MarketData, b: MarketData) {
    a.tokenPair == b.tokenPair && a.chainId != b.chainId
  }

  /** `_calculate_arbitrage`: orient the pair and keep it if the relative
      gap reaches the threshold. */
  function CalculateArbitrage(threshold: real, a: MarketData, b: MarketData): Option<ArbitrageOpportunity> {
    var (buy, sell) := if a.price < b.price then (a, b) else (b, a);
    var profit := (sell.price - buy.price) / buy.price;
    if profit < threshold then None
    else Some(ArbitrageOpportunity(buy, sell, profit * 100.0, profit * NotionalTradeSize))
  }

  /** A pair yields an opportunity exactly when its spread reaches the
      threshold (a pair exactly at the threshold is kept). The opportunity
      buys on the cheaper market and sells on the dearer one, the second
      market being bought on a tie, and reports the spread in percent and as
      profit on the notional trade. */
  lemma CalculateArbitrageSpec(threshold: real, a: MarketData, b: MarketData)
    ensures CalculateArbitrage(threshold, a, b).Some? <==> Spread(a, b) >= threshold
    ensures CalculateArbitrage(threshold, a, b).Some? ==>
      var o := CalculateArbitrage(threshold, a, b).value;
      && multiset{o.buyMarket, o.sellMarket} == multiset{a, b}
      && o.buyMarket.price <= o.sellMarket.price
      && (a.price == b.price ==> o.buyMarket == b && o.sellMarket == a)
      && o.profitPercentage == Spread(a, b) * 100.0
      && o.estimatedProfit == Spread(a, b) * NotionalTradeSize
  {
  }

  /** Detection does not depend on the order the two markets are given in
      when their prices differ. */
  lemma CalculateArbitrageSymmetric(threshold: real, a: MarketData, b: MarketData)
    requires a.price != b.price
    ensures CalculateArbitrage(threshold, a, b) == CalculateArbitrage(threshold, b, a)
  {
  }

  /** Equal prices give a zero spread, hence nothing under a positive threshold. */
  lemma EqualPricesNeverQualify(threshold: real, a: MarketData, b: MarketData)
    requires a.price == b.price && threshold > 0.0
    ensures CalculateArbitrage(threshold, a, b) == None
  {
  }

  function AsSeq<T>(o: Option<T>): seq<T> {
    if o.Some? then [o.value] else []
  }

  /** What the scan keeps from the pair (i, j). */
  function PairOpportunity(threshold: real, ms: seq<MarketData>, i: nat, j: nat): Option<ArbitrageOpportunity>
    requires i < j < |ms|
  {
    if !Comparable(ms[i], ms[j]) then None else CalculateArbitrage(threshold, ms[i], ms[j])
  }

  /** The opportunities from the pairs (i, i + 1), ..., (i, j - 1), in that order. */
  function RowOpportunities(threshold: real, ms: seq<MarketData>, i: nat, j: nat): seq<ArbitrageOpportunity>
    requires i < j <= |ms|
    decreases j
  {
    if j == i + 1 then []
    else RowOpportunities(threshold, ms, i, j - 1) + AsSeq(PairOpportunity(threshold, ms, i, j - 1))
  }

  /** The opportunities from every pair whose first index is below i, in scan order. */
  function ScanOpportunities(threshold: real, ms: seq<MarketData>, i: nat): seq<ArbitrageOpportunity>
    requires i <= |ms|
  {
    if i == 0 then []
    else ScanOpportunities(threshold, ms, i - 1) + RowOpportunities(threshold, ms, i - 1, |ms|)
  }

  /** The analysis of a batch: every pair (i, j) with i < j in lexicographic order. */
  function Opportunities(threshold: real, ms: seq<MarketData>): seq<ArbitrageOpportunity> {
    ScanOpportunities(threshold, ms, |ms|)
  }

  /** What the scan has produced just before it looks at the pair (i, j). */
  function Before(threshold: real, ms: seq<MarketData>, i: nat, j: nat): seq<ArbitrageOpportunity>
    requires i < j <= |ms|
  {
    ScanOpportunities(threshold, ms, i) + RowOpportunities(threshold, ms, i, j)
  }

  /** The invariant every kept opportunity satisfies. */
  predicate Qualifies(threshold: real, ms: seq<MarketData>, o: ArbitrageOpportunity) {
    && o.buyMarket in ms && o.sellMarket in ms
    && o.buyMarket.tokenPair == o.sellMarket.tokenPair
    && o.buyMarket.chainId != o.sellMarket.chainId
    && o.buyMarket.price <= o.sellMarket.price
    && Spread(o.buyMarket, o.sellMarket) >= threshold
    && o.profitPercentage == Spread(o.buyMarket, o.sellMarket) * 100.0
    && o.estimatedProfit == Spread(o.buyMarket, o.sellMarket) * NotionalTradeSize
  }

  lemma SpreadSymmetric(a: MarketData, b: MarketData)
    ensures Spread(a, b) == Spread(b, a)
  {
  }

  lemma PairQualifies(threshold: real, ms: seq<MarketData>, i: nat, j: nat)
    requires i < j < |ms| && PairOpportunity(threshold, ms, i, j).Some?
    ensures Qualifies(threshold, ms, PairOpportunity(threshold, ms, i, j).value)
  {
    var o := PairOpportunity(threshold, ms, i, j).value;
    CalculateArbitrageSpec(threshold, ms[i], ms[j]);
    SpreadSymmetric(ms[i], ms[j]);
    assert o.buyMarket in multiset{ms[i], ms[j]};
    assert o.sellMarket in multiset{ms[i], ms[j]};
  }

  lemma {:induction false} RowQualifies(threshold: real, ms: seq<MarketData>, i: nat, j: nat)
    requires i < j <= |ms|
    ensures forall o :: o in RowOpportunities(threshold, ms, i, j) ==> Qualifies(threshold, ms, o)
    decreases j
  {
    if j > i + 1 {
      RowQualifies(threshold, ms, i, j - 1);
      if PairOpportunity(threshold, ms, i, j - 1).Some? {
        PairQualifies(threshold, ms, i, j - 1);
      }
    }
  }

  lemma {:induction false} ScanQualifies(threshold: real, ms: seq<MarketData>, i: nat)
    requires i <= |ms|
    ensures forall o :: o in ScanOpportunities(threshold, ms, i) ==> Qualifies(threshold, ms, o)
  {
    if i > 0 {
      ScanQualifies(threshold, ms, i - 1);
      RowQualifies(threshold, ms, i - 1, |ms|);
    }
  }

  /** Every opportunity pairs two observations of the batch on one token
      pair and two chains, buys no dearer than it sells, reaches the
      threshold, and reports the spread as a percentage and as profit on the
      notional trade. */
  lemma OpportunitiesQualify(threshold: real, ms: seq<MarketData>)
    ensures forall o :: o in Opportunities(threshold, ms) ==> Qualifies(threshold, ms, o)
  {
    ScanQualifies(threshold, ms, |ms|);
  }

  /** Fewer than two observations give no pair, hence nothing. */
  lemma ShortBatchYieldsNothing(threshold: real, ms: seq<MarketData>)
    requires |ms| < 2
    ensures Opportunities(threshold, ms) == []
  {
    if |ms| == 1 {
      assert ScanOpportunities(threshold, ms, 1) == ScanOpportunities(threshold, ms, 0) + RowOpportunities(threshold, ms, 0, 1);
    }
  }

  // ---------------------------------------------------------------------
  // Order: the output lists the qualifying pairs in lexicographic order
  // ---------------------------------------------------------------------

  /** (i1, j1) comes no later than (i2, j2) in the scan. */
  predicate LexLe(i1: nat, j1: nat, i2: nat, j2: nat) {
    i1 < i2 || (i1 == i2 && j1 <= j2)
  }

  predicate IsPrefix<T(==)>(a: seq<T>, b: seq<T>) {
    |a| <= |b| && a == b[..|a|]
  }

  lemma PrefixTransitive<T>(a: seq<T>, b: seq<T>, c: seq<T>)
    requires IsPrefix(a, b) && IsPrefix(b, c)
    ensures IsPrefix(a, c)
  {
    assert c[..|a|] == c[..|b|][..|a|];
  }

  lemma PrefixExtend<T>(a: seq<T>, b: seq<T>, c: seq<T>)
    requires IsPrefix(a, b)
    ensures IsPrefix(a, b + c)
  {
    assert (b + c)[..|a|] == b[..|a|];
  }

  lemma {:induction false} RowPrefix(threshold: real, ms: seq<MarketData>, i: nat, j1: nat, j2: nat)
    requires i < j1 <= j2 <= |ms|
    ensures IsPrefix(RowOpportunities(threshold, ms, i, j1), RowOpportunities(threshold, ms, i, j2))
    decreases j2
  {
    if j1 < j2 {
      RowPrefix(threshold, ms, i, j1, j2 - 1);
      PrefixExtend(RowOpportunities(threshold, ms, i, j1), RowOpportunities(threshold, ms, i, j2 - 1),
                   AsSeq(PairOpportunity(threshold, ms, i, j2 - 1)));
    }
  }

  lemma {:induction false} ScanPrefix(threshold: real, ms: seq<MarketData>, i1: nat, i2: nat)
    requires i1 <= i2 <= |ms|
    ensures IsPrefix(ScanOpportunities(threshold, ms, i1), ScanOpportunities(threshold, ms, i2))
    decreases i2
  {
    if i1 < i2 {
      ScanPrefix(threshold, ms, i1, i2 - 1);
      PrefixExtend(ScanOpportunities(threshold, ms, i1), ScanOpportunities(threshold, ms, i2 - 1),
                   RowOpportunities(threshold, ms, i2 - 1, |ms|));
    }
  }

  lemma PrefixPrepend<T>(c: seq<T>, a: seq<T>, b: seq<T>)
    requires IsPrefix(a, b)
    ensures IsPrefix(c + a, c + b)
  {
    assert (c + b)[..|c + a|] == c + b[..|a|];
  }

  lemma PrefixOfConcat<T>(a: seq<T>, b: seq<T>)
    ensures IsPrefix(a, a + b)
  {
    assert (a + b)[..|a|] == a;
  }

  /** Before the pair (i, j) is a prefix of the scan through row i. */
  lemma BeforeWithinRow(threshold: real, ms: seq<MarketData>, i: nat, j: nat)
    requires i < j <= |ms|
    ensures IsPrefix(Before(threshold, ms, i, j), ScanOpportunities(threshold, ms, i + 1))
  {
    RowPrefix(threshold, ms, i, j, |ms|);
    PrefixPrepend(ScanOpportunities(threshold, ms, i), RowOpportunities(threshold, ms, i, j), RowOpportunities(threshold, ms, i, |ms|));
  }

  /** What the scan has produced before a pair is a prefix of what it has
      produced before any later pair, and of the whole output. */
  lemma BeforeMonotone(threshold: real, ms: seq<MarketData>, i1: nat, j1: nat, i2: nat, j2: nat)
    requires i1 < j1 <= |ms| && i2 < j2 <= |ms| && LexLe(i1, j1, i2, j2)
    ensures IsPrefix(Before(threshold, ms, i1, j1), Before(threshold, ms, i2, j2))
    ensures IsPrefix(Before(threshold, ms, i1, j1), Opportunities(threshold, ms))
  {
    var b1, next := Before(threshold, ms, i1, j1), ScanOpportunities(threshold, ms, i1 + 1);
    BeforeWithinRow(threshold, ms, i1, j1);
    ScanPrefix(threshold, ms, i1 + 1, |ms|);
    PrefixTransitive(b1, next, Opportunities(threshold, ms));
    if i1 == i2 {
      RowPrefix(threshold, ms, i1, j1, j2);
      PrefixPrepend(ScanOpportunities(threshold, ms, i1), RowOpportunities(threshold, ms, i1, j1), RowOpportunities(threshold, ms, i1, j2));
    } else {
      var s2 := ScanOpportunities(threshold, ms, i2);
      ScanPrefix(threshold, ms, i1 + 1, i2);
      PrefixOfConcat(s2, RowOpportunities(threshold, ms, i2, j2));
      PrefixTransitive(next, s2, Before(threshold, ms, i2, j2));
      PrefixTransitive(b1, next, Before(threshold, ms, i2, j2));
    }
  }

  /** The index in the output at which the pair (i, j) is reported, if it qualifies. */
  function Position(threshold: real, ms: seq<MarketData>, i: nat, j: nat): nat
    requires i < j <= |ms|
  {
    |Before(threshold, ms, i, j)|
  }

  /** Looking at a qualifying pair appends its opportunity. */
  lemma BeforeStep(threshold: real, ms: seq<MarketData>, i: nat, j: nat)
    requires i < j < |ms| && PairOpportunity(threshold, ms, i, j).Some?
    ensures Before(threshold, ms, i, j + 1) == Before(threshold, ms, i, j) + [PairOpportunity(threshold, ms, i, j).value]
  {
    var o := PairOpportunity(threshold, ms, i, j).value;
    var scan, row := ScanOpportunities(threshold, ms, i), RowOpportunities(threshold, ms, i, j);
    assert RowOpportunities(threshold, ms, i, j + 1) == row + [o];
    assert scan + (row + [o]) == (scan + row) + [o];
  }

  lemma PrefixIndex<T>(a: seq<T>, x: T, b: seq<T>)
    requires IsPrefix(a + [x], b)
    ensures |a| < |b| && b[|a|] == x
  {
    assert b[|a|] == b[..|a| + 1][|a|] == (a + [x])[|a|];
  }

  /** A qualifying pair is reported, at its position. */
  lemma OpportunityAtPosition(threshold: real, ms: seq<MarketData>, i: nat, j: nat)
    requires i < j < |ms| && PairOpportunity(threshold, ms, i, j).Some?
    ensures Position(threshold, ms, i, j) < |Opportunities(threshold, ms)|
    ensures Opportunities(threshold, ms)[Position(threshold, ms, i, j)] == PairOpportunity(threshold, ms, i, j).value
  {
    BeforeStep(threshold, ms, i, j);
    BeforeMonotone(threshold, ms, i, j + 1, i, j + 1);
    PrefixIndex(Before(threshold, ms, i, j), PairOpportunity(threshold, ms, i, j).value, Opportunities(threshold, ms));
  }

  /** Qualifying pairs are reported in scan order, each once: an earlier
      qualifying pair sits at a strictly smaller position. */
  lemma OpportunitiesInScanOrder(threshold: real, ms: seq<MarketData>, i1: nat, j1: nat, i2: nat, j2: nat)
    requires i1 < j1 < |ms| && i2 < j2 < |ms|
    requires LexLe(i1, j1, i2, j2) && (i1, j1) != (i2, j2)
    requires PairOpportunity(threshold, ms, i1, j1).Some?
    ensures Position(threshold, ms, i1, j1) < Position(threshold, ms, i2, j2)
  {
    BeforeStep(threshold, ms, i1, j1);
    BeforeMonotone(threshold, ms, i1, j1 + 1, i2, j2);
    PrefixIndex(Before(threshold, ms, i1, j1), PairOpportunity(threshold, ms, i1, j1).value, Before(threshold, ms, i2, j2));
  }

  /** Looking at a pair that yields nothing appends nothing. */
  lemma BeforeSkip(threshold: real, ms: seq<MarketData>, i: nat, j: nat)
    requires i < j < |ms| && PairOpportunity(threshold, ms, i, j).None?
    ensures Before(threshold, ms, i, j + 1) == Before(threshold, ms, i, j)
  {
    assert RowOpportunities(threshold, ms, i, j + 1) == RowOpportunities(threshold, ms, i, j);
  }

  /** Each index of row i's part of the output is the position of a
      qualifying pair (i, j') of that row, returned as the witness. */
  lemma {:induction false} RowPair(threshold: real, ms: seq<MarketData>, i: nat, j: nat, k: nat)
    returns (j': nat)
    requires i < j <= |ms|
    requires |ScanOpportunities(threshold, ms, i)| <= k < |Before(threshold, ms, i, j)|
    ensures i < j' < j && PairOpportunity(threshold, ms, i, j').Some? && Position(threshold, ms, i, j') == k
    decreases j
  {
    j' := j - 1;
    if j > i + 1 {
      if PairOpportunity(threshold, ms, i, j - 1).Some? {
        BeforeStep(threshold, ms, i, j - 1);
      } else {
        BeforeSkip(threshold, ms, i, j - 1);
      }
      if k < Position(threshold, ms, i, j - 1) {
        j' := RowPair(threshold, ms, i, j - 1, k);
      }
    }
  }

  /** Each index of the scan through row i is the position of a qualifying
      pair (i', j') with i' < i, returned as the witness. */
  lemma {:induction false} ScanPair(threshold: real, ms: seq<MarketData>, i: nat, k: nat)
    returns (i': nat, j': nat)
    requires i <= |ms| && k < |ScanOpportunities(threshold, ms, i)|
    ensures i' < j' < |ms| && i' < i && PairOpportunity(threshold, ms, i', j').Some? && Position(threshold, ms, i', j') == k
  {
    assert ScanOpportunities(threshold, ms, i) == Before(threshold, ms, i - 1, |ms|);
    if k < |ScanOpportunities(threshold, ms, i - 1)| {
      i', j' := ScanPair(threshold, ms, i - 1, k);
    } else {
      i' := i - 1;
      j' := RowPair(threshold, ms, i - 1, |ms|, k);
    }
  }

  /** Index k of the output is the position of some qualifying pair. */
  predicate IsPairPosition(threshold: real, ms: seq<MarketData>, k: int) {
    exists i: nat, j: nat :: i < j < |ms| && PairOpportunity(threshold, ms, i, j).Some? && Position(threshold, ms, i, j) == k
  }

  /** Every index of the output is the position of a qualifying pair: the
      output holds nothing but one entry per qualifying pair. */
  lemma OpportunitiesArePositions(threshold: real, ms: seq<MarketData>)
    ensures forall k :: 0 <= k < |Opportunities(threshold, ms)| ==> IsPairPosition(threshold, ms, k)
  {
    forall k | 0 <= k < |Opportunities(threshold, ms)| ensures IsPairPosition(threshold, ms, k) {
      var i, j := ScanPair(threshold, ms, |ms|, k);
    }
  }

  /** Distinct qualifying pairs sit at distinct positions, so no pair is
      reported twice and no two pairs share an entry. */
  lemma PositionsDistinct(threshold: real, ms: seq<MarketData>, i1: nat, j1: nat, i2: nat, j2: nat)
    requires i1 < j1 < |ms| && i2 < j2 < |ms| && (i1, j1) != (i2, j2)
    requires PairOpportunity(threshold, ms, i1, j1).Some? && PairOpportunity(threshold, ms, i2, j2).Some?
    ensures Position(threshold, ms, i1, j1) != Position(threshold, ms, i2, j2)
  {
    if LexLe(i1, j1, i2, j2) {
      OpportunitiesInScanOrder(threshold, ms, i1, j1, i2, j2);
    } else {
      OpportunitiesInScanOrder(threshold, ms, i2, j2, i1, j1);
    }
  }

  /** Nothing else is reported: each element of a row comes from a pair of
      that row, returned as the witness j'. */
  lemma {:induction false} RowSources(threshold: real, ms: seq<MarketData>, i: nat, j: nat, o: ArbitrageOpportunity)
    returns (j': nat)
    requires i < j <= |ms| && o in RowOpportunities(threshold, ms, i, j)
    ensures i < j' < j && PairOpportunity(threshold, ms, i, j') == Some(o)
    decreases j
  {
    var earlier := RowOpportunities(threshold, ms, i, j - 1);
    assert RowOpportunities(threshold, ms, i, j) == earlier + AsSeq(PairOpportunity(threshold, ms, i, j - 1));
    if o in earlier {
      j' := RowSources(threshold, ms, i, j - 1, o);
    } else {
      j' := j - 1;
    }
  }

  /** Each element of the scan up to row i lies in some row i' < i, returned
      as the witness. */
  lemma {:induction false} ScanSources(threshold: real, ms: seq<MarketData>, i: nat, o: ArbitrageOpportunity)
    returns (i': nat)
    requires i <= |ms| && o in ScanOpportunities(threshold, ms, i)
    ensures i' < i && o in RowOpportunities(threshold, ms, i', |ms|)
  {
    var earlier, row := ScanOpportunities(threshold, ms, i - 1), RowOpportunities(threshold, ms, i - 1, |ms|);
    assert ScanOpportunities(threshold, ms, i) == earlier + row;
    if o in earlier {
      i' := ScanSources(threshold, ms, i - 1, o);
    } else {
      i' := i - 1;
    }
  }

  /** Every reported opportunity is what some pair (i, j), i < j, yields. */
  lemma OpportunitiesHaveSources(threshold: real, ms: seq<MarketData>, o: ArbitrageOpportunity)
    requires o in Opportunities(threshold, ms)
    ensures exists i: nat, j: nat :: i < j < |ms| && PairOpportunity(threshold, ms, i, j) == Some(o)
  {
    var i := ScanSources(threshold, ms, |ms|, o);
    var j := RowSources(threshold, ms, i, |ms|, o);
  }

  // ---------------------------------------------------------------------
  // Length: at most one opportunity per unordered pair
  // ---------------------------------------------------------------------

  lemma {:induction false} RowLength(threshold: real, ms: seq<MarketData>, i: nat, j: nat)
    requires i < j <= |ms|
    ensures |RowOpportunities(threshold, ms, i, j)| <= j - i - 1
    decreases j
  {
    if j > i + 1 {
      RowLength(threshold, ms, i, j - 1);
    }
  }

  lemma {:induction false} ScanLength(threshold: real, ms: seq<MarketData>, i: nat)
    requires i <= |ms|
    ensures 2 * |ScanOpportunities(threshold, ms, i)| <= i * (2 * |ms| - i - 1)
  {
    if i > 0 {
      var n := |ms|;
      ScanLength(threshold, ms, i - 1);
      RowLength(threshold, ms, i - 1, n);
      assert (i - 1) * (2 * n - (i - 1) - 1) + 2 * (n - i) == i * (2 * n - i - 1);
    }
  }

  /** A batch of n observations yields at most n(n - 1)/2 opportunities. */
  lemma OpportunitiesBound(threshold: real, ms: seq<MarketData>)
    ensures 2 * |Opportunities(threshold, ms)| <= |ms| * (|ms| - 1)
  {
    ScanLength(threshold, ms, |ms|);
  }

  // ---------------------------------------------------------------------
  // Scenarios
  // ---------------------------------------------------------------------

  /** The four markets of the demo script. */
  function DemoMarkets(): seq<MarketData> {
    [ MarketData("ethereum", "ETH/USDC", 2000.00, 1000000.0),
      MarketData("bsc", "ETH/USDC", 2015.00, 500000.0),
      MarketData("polygon", "BTC/USDT", 45000.00, 2000000.0),
      MarketData("arbitrum", "BTC/USDT", 45500.00, 800000.0) ]
  }

  /** At a 0.5% threshold the demo finds ethereum -> bsc (0.75%), then
      polygon -> arbitrum (1/90), and nothing across token pairs. */
  lemma DemoScenario()
    ensures Opportunities(0.005, DemoMarkets()) ==
      [ ArbitrageOpportunity(DemoMarkets()[0], DemoMarkets()[1], 0.75, 7.5),
        ArbitrageOpportunity(DemoMarkets()[2], DemoMarkets()[3], 10.0 / 9.0, 100.0 / 9.0) ]
  {
    var t, ms := 0.005, DemoMarkets();
    assert PairOpportunity(t, ms, 0, 1) == Some(ArbitrageOpportunity(ms[0], ms[1], 0.75, 7.5));
    assert PairOpportunity(t, ms, 0, 2) == None;
    assert PairOpportunity(t, ms, 0, 3) == None;
    assert PairOpportunity(t, ms, 1, 2) == None;
    assert PairOpportunity(t, ms, 1, 3) == None;
    assert PairOpportunity(t, ms, 2, 3) == Some(ArbitrageOpportunity(ms[2], ms[3], 10.0 / 9.0, 100.0 / 9.0));
    assert RowOpportunities(t, ms, 0, 4) == [ArbitrageOpportunity(ms[0], ms[1], 0.75, 7.5)];
    assert RowOpportunities(t, ms, 1, 4) == [];
    assert RowOpportunities(t, ms, 2, 4) == [ArbitrageOpportunity(ms[2], ms[3], 10.0 / 9.0, 100.0 / 9.0)];
    assert RowOpportunities(t, ms, 3, 4) == [];
  }

  /** The mock samples differ by 0.75 on 2000.50, about 0.0375%, which is
      below the default 1% threshold: a default cycle finds nothing. */
  lemma SamplesBelowDefaultThreshold(threshold: real)
    requires threshold >= 0.01
    ensures Opportunities(threshold, MarketSamples()) == []
  {
    var ms := MarketSamples();
    assert PairOpportunity(threshold, ms, 0, 1) == None;
    assert RowOpportunities(threshold, ms, 0, 2) == [];
    assert RowOpportunities(threshold, ms, 1, 2) == [];
    assert ScanOpportunities(threshold, ms, 1) == [];
    assert ScanOpportunities(threshold, ms, 2) == ScanOpportunities(threshold, ms, 1) + RowOpportunities(threshold, ms, 1, 2);
  }

  // ---------------------------------------------------------------------
  // The module
  // ---------------------------------------------------------------------

  datatype ThinkStatistics = ThinkStatistics(active: bool, opportunitiesFound: nat, thresholdPercent: real)

  class ThinkModule {
    const minProfitThreshold: real
    var isActive: bool
    var opportunitiesFound: nat

    constructor (minProfitThreshold: real)
      ensures this.minProfitThreshold == minProfitThreshold
      ensures !isActive && opportunitiesFound == 0
    {
      this.minProfitThreshold := minProfitThreshold;
      isActive := false;
      opportunitiesFound := 0;
    }

    method Activate()
      modifies this`isActive
      ensures isActive
    {
      isActive := true;
    }

    method Deactivate()
      modifies this`isActive
      ensures !isActive
    {
      isActive := false;
    }

    /** `analyze_markets`: nothing while inactive; otherwise the pairwise
        scan, whose length is added to the running count. */
    method AnalyzeMarkets(marketData: seq<MarketData>) returns (opportunities: seq<ArbitrageOpportunity>)
      modifies this`opportunitiesFound
      ensures opportunities == if isActive then Opportunities(minProfitThreshold, marketData) else []
      ensures opportunitiesFound == old(opportunitiesFound) + |opportunities|
    {
      if !isActive || |marketData| < 2 {
        if isActive {
          ShortBatchYieldsNothing(minProfitThreshold, marketData);
        }
        return [];
      }
      opportunities := [];
      for i := 0 to |marketData|
        invariant opportunities == ScanOpportunities(minProfitThreshold, marketData, i)
      {
        for j := i + 1 to |marketData|
          invariant opportunities == Before(minProfitThreshold, marketData, i, j)
        {
          var marketA, marketB := marketData[i], marketData[j];
          if marketA.tokenPair != marketB.tokenPair || marketA.chainId == marketB.chainId {
            continue;
          }
          var opportunity := CalculateArbitrage(minProfitThreshold, marketA, marketB);
          if opportunity.Some? {
            opportunities := opportunities + [opportunity.value];
          }
        }
      }
      opportunitiesFound := opportunitiesFound + |opportunities|;
    }

    /** `get_statistics`, with the threshold reported in percent. */
    function GetStatistics(): (stats: ThinkStatistics)
      reads this
      ensures stats.active == isActive && stats.opportunitiesFound == opportunitiesFound
      ensures stats.thresholdPercent == minProfitThreshold * 100.0
    {
      ThinkStatistics(isActive, opportunitiesFound, minProfitThreshold * 100.0)
    }
  }
}
