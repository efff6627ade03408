/**
 * The sensing stage: market observations, the fixed batch the mock scanner
 * returns, and the latest-observation cache keyed by "<chain>:<pair>".
 */
module Sense {

  /** Prices are positive reals: the analyser divides by the cheaper one. */
  type Price = r: real | r > 0.0 witness 1.0

  /** A snapshot of one token pair on one chain. */
  datatype MarketData = MarketData(chainId: string, tokenPair: string, price: Price, liquidity: real)

  /** The two observations the mock scanner reports on every active scan. */
  function MarketSamples(): seq<MarketData> {
    [ MarketData("eth", "ETH/USDC", 2000.50, 1000000.0),
      MarketData("bsc", "ETH/USDC", 2001.25, 500000.0) ]
  }

  /** The cache key of an observation. */
  function CacheKey(m: MarketData): string {
    m.chainId + ":" + m.tokenPair
  }

  /** Two colon-free prefixes followed by a colon can only be equal when the
      prefixes and the rests are. */
  lemma {:induction false} ColonSplit(x: string, u: string, y: string, v: string)
    requires ':' !in x && ':' !in y
    requires x + ":" + u == y + ":" + v
    ensures x == y && u == v
  {
    var s, t := x + ":" + u, y + ":" + v;
    if x == [] || y == [] {
      assert s[0] == t[0];
      assert x == [] && y == [];
      assert u == s[1..] == t[1..] == v;
    } else {
      assert x[0] == s[0] == t[0] == y[0];
      assert s[1..] == x[1..] + ":" + u;
      assert t[1..] == y[1..] + ":" + v;
      ColonSplit(x[1..], u, y[1..], v);
      assert x == [x[0]] + x[1..];
      assert y == [y[0]] + y[1..];
    }
  }

  /** As long as chain identifiers contain no colon, the key determines the
      chain and the pair, so distinct (chain, pair) never share an entry. */
  lemma CacheKeyInjective(a: MarketData, b: MarketData)
    requires ':' !in a.chainId && ':' !in b.chainId
    requires CacheKey(a) == CacheKey(b)
    ensures a.chainId == b.chainId && a.tokenPair == b.tokenPair
  {
    ColonSplit(a.chainId, a.tokenPair, b.chainId, b.tokenPair);
  }

  /** The cache after writing each sample under its key, in order. */
  function CacheWith(cache: map<string, MarketData>, samples: seq<MarketData>): map<string, MarketData>
    decreases |samples|
  {
    if samples == [] then cache
    else
      var last := samples[|samples| - 1];
      CacheWith(cache, samples[..|samples| - 1])[CacheKey(last) := last]
  }

  /** The set of keys a batch writes. */
  function KeysOf(samples: seq<MarketData>): set<string> {
    set k | 0 <= k < |samples| :: CacheKey(samples[k])
  }

  /** No two observations of the batch share a key. */
  predicate DistinctKeys(samples: seq<MarketData>) {
    forall i, j :: 0 <= i < j < |samples| ==> CacheKey(samples[i]) != CacheKey(samples[j])
  }

  /** Writing a batch overrides the old cache with the batch's own entries. */
  lemma {:induction false} CacheWithOverrides(cache: map<string, MarketData>, samples: seq<MarketData>)
    ensures CacheWith(cache, samples) == cache + CacheWith(map[], samples)
    decreases |samples|
  {
    if samples != [] {
      var init, last := samples[..|samples| - 1], samples[|samples| - 1];
      CacheWithOverrides(cache, init);
      assert CacheWith(cache, samples) == (cache + CacheWith(map[], init))[CacheKey(last) := last];
      assert CacheWith(map[], samples) == CacheWith(map[], init)[CacheKey(last) := last];
    }
  }

  /** A batch's own entries are exactly its keys. */
  lemma {:induction false} CacheWithKeys(samples: seq<MarketData>)
    ensures CacheWith(map[], samples).Keys == KeysOf(samples)
    decreases |samples|
  {
    if samples != [] {
      var init, last := samples[..|samples| - 1], samples[|samples| - 1];
      CacheWithKeys(init);
      assert KeysOf(samples) == KeysOf(init) + {CacheKey(last)} by {
        forall key | key in KeysOf(samples) ensures key in KeysOf(init) + {CacheKey(last)} {
          var k :| 0 <= k < |samples| && key == CacheKey(samples[k]);
          if k < |samples| - 1 { assert samples[k] == init[k]; }
        }
        forall key | key in KeysOf(init) ensures key in KeysOf(samples) {
          var k :| 0 <= k < |init| && key == CacheKey(init[k]);
          assert init[k] == samples[k];
        }
      }
    }
  }

  /** With distinct keys, each observation of the batch is what the cache holds under its key. */
  lemma {:induction false} CacheWithHolds(samples: seq<MarketData>, k: nat)
    requires DistinctKeys(samples) && k < |samples|
    ensures CacheKey(samples[k]) in CacheWith(map[], samples)
    ensures CacheWith(map[], samples)[CacheKey(samples[k])] == samples[k]
    decreases |samples|
  {
    var init, last := samples[..|samples| - 1], samples[|samples| - 1];
    if k < |samples| - 1 {
      assert init[k] == samples[k];
      assert DistinctKeys(init) by {
        forall i, j | 0 <= i < j < |init| ensures CacheKey(init[i]) != CacheKey(init[j]) {
          assert init[i] == samples[i] && init[j] == samples[j];
        }
      }
      CacheWithHolds(init, k);
      assert CacheKey(samples[k]) != CacheKey(last);
    }
  }

  /** After writing a batch with distinct keys, every observation is cached
      under its key, and every other key keeps its old entry or stays absent. */
  lemma CacheWithUpdate(cache: map<string, MarketData>, samples: seq<MarketData>)
    requires DistinctKeys(samples)
    ensures forall k :: 0 <= k < |samples| ==>
      CacheKey(samples[k]) in CacheWith(cache, samples) && CacheWith(cache, samples)[CacheKey(samples[k])] == samples[k]
    ensures forall key :: key !in KeysOf(samples) ==>
      (key in CacheWith(cache, samples) <==> key in cache) &&
      (key in cache ==> CacheWith(cache, samples)[key] == cache[key])
    ensures CacheWith(cache, samples).Keys == cache.Keys + KeysOf(samples)
  {
    CacheWithOverrides(cache, samples);
    CacheWithKeys(samples);
    forall k | 0 <= k < |samples|
      ensures CacheWith(cache, samples)[CacheKey(samples[k])] == samples[k]
    {
      CacheWithHolds(samples, k);
    }
  }

  /** Writing the same batch twice leaves the cache as writing it once:
      entries are overwritten, never duplicated. */
  lemma CacheWithIdempotent(cache: map<string, MarketData>, samples: seq<MarketData>)
    ensures CacheWith(CacheWith(cache, samples), samples) == CacheWith(cache, samples)
  {
    var own := CacheWith(map[], samples);
    CacheWithOverrides(cache, samples);
    CacheWithOverrides(cache + own, samples);
    assert (cache + own) + own == cache + own;
  }

  /** The mock batch writes its two entries and nothing else. */
  lemma SampleCache(cache: map<string, MarketData>)
    ensures CacheWith(cache, MarketSamples()) ==
      cache["eth:ETH/USDC" := MarketSamples()[0]]["bsc:ETH/USDC" := MarketSamples()[1]]
  {
    var s := MarketSamples();
    assert s[..1] == [s[0]];
    assert [s[0]][..0] == [];
    assert CacheKey(s[0]) == "eth:ETH/USDC";
    assert CacheKey(s[1]) == "bsc:ETH/USDC";
    assert CacheWith(cache, [s[0]]) == cache[CacheKey(s[0]) := s[0]];
  }

  class SenseModule {
    const rpcEndpoints: seq<string>
    var marketData: map<string, MarketData>
    var isActive: bool

    constructor (rpcEndpoints: seq<string>)
      ensures this.rpcEndpoints == rpcEndpoints
      ensures marketData == map[] && !isActive
    {
      this.rpcEndpoints := rpcEndpoints;
      marketData := map[];
      isActive := false;
    }

    method Activate()
      modifies this`isActive
      ensures isActive
    {
      isActive := true;
    }

    method Deactivate()
      modifies this`isActive
      ensures !isActive
    {
      isActive := false;
    }

    /** `scan_markets`: nothing while inactive; otherwise the mock batch,
        each observation written into the cache under its key. */
    method ScanMarkets() returns (samples: seq<MarketData>)
      modifies this`marketData
      ensures samples == if isActive then MarketSamples() else []
      ensures marketData == CacheWith(old(marketData), samples)
    {
      if !isActive {
        return [];
      }
      samples := MarketSamples();
      for k := 0 to |samples|
        invariant marketData == CacheWith(old(marketData), samples[..k])
      {
        var data := samples[k];
        assert samples[..k + 1][..k] == samples[..k];
        marketData := marketData[CacheKey(data) := data];
      }
      assert samples[..|samples|] == samples;
    }

    /** `get_latest_data`: a copy of the cache; maps are values, so the copy
        cannot alias it. */
    function GetLatestData(): (snapshot: map<string, MarketData>)
      reads this
      ensures snapshot == marketData
    {
      marketData
    }
  }
}
