/**
 * The neural orchestrator: owns one sense, one think and one execute module,
 * switches them on and off together, and runs one sense-think-execute cycle.
 */
module Orchestrator {
  import opened Options
  import opened Configuration
  import opened Sense
  import opened Think
  import opened Execute

  /** At most this many opportunities are executed per cycle. */
  const MaxTradesPerCycle: nat := 3

  /** What a cycle's scan reports: nothing unless the orchestrator runs and
      the sense module is active. */
  function CycleScan(running: bool, senseActive: bool): (scan: seq<MarketData>)
    ensures scan == [] || scan == MarketSamples()
    ensures scan != [] <==> running && senseActive
  {
    if running && senseActive then MarketSamples() else []
  }

  /** What a cycle's analysis reports: it runs only on a non-empty scan. */
  function CycleFound(scan: seq<MarketData>, thinkActive: bool, threshold: real): (found: seq<ArbitrageOpportunity>)
    ensures scan == [] || !thinkActive ==> found == []
    ensures forall k :: 0 <= k < |found| ==> Qualifies(threshold, scan, found[k])
  {
    OpportunitiesQualify(threshold, scan);
    if scan == [] || !thinkActive then [] else Opportunities(threshold, scan)
  }

  /** `opportunities[:3]`: the first three, in analyser order, or all when fewer. */
  function FirstThree(opps: seq<ArbitrageOpportunity>): (chosen: seq<ArbitrageOpportunity>)
    ensures |chosen| == if |opps| < MaxTradesPerCycle then |opps| else MaxTradesPerCycle
    ensures IsPrefix(chosen, opps)
  {
    if |opps| < MaxTradesPerCycle then opps else opps[..MaxTradesPerCycle]
  }

  /** A cycle records at most three live trades, whatever the execute
      module's mode. */
  lemma {:induction false} CycleTradesAtMostThree(active: bool, autoTrading: bool, privateKey: Option<string>, opps: seq<ArbitrageOpportunity>)
    ensures |Successful(Outcomes(active, autoTrading, privateKey, FirstThree(opps)))| <= MaxTradesPerCycle
  {
    OutcomesInOrder(active, autoTrading, privateKey, FirstThree(opps));
  }

  /** With the mock samples and a threshold of at least the default 1%, a
      cycle finds nothing, whatever the module flags are. */
  lemma DefaultThresholdFindsNothing(running: bool, senseActive: bool, thinkActive: bool, threshold: real)
    requires threshold >= DefaultMinProfitThreshold
    ensures CycleFound(CycleScan(running, senseActive), thinkActive, threshold) == []
  {
    SamplesBelowDefaultThreshold(threshold);
  }

  class NeuralOrchestrator {
    const config: Config
    const sense: SenseModule
    const think: ThinkModule
    const execute: ExecuteModule
    var isRunning: bool

    ghost predicate Valid()
      reads execute
    {
      execute.Valid()
    }

    /** `__init__`: the three modules built from the configuration, all inactive. */
    constructor (config: Config)
      ensures Valid() && this.config == config && !isRunning
      ensures fresh(sense) && fresh(think) && fresh(execute)
      ensures sense.rpcEndpoints == config.rpcEndpoints && sense.marketData == map[] && !sense.isActive
      ensures think.minProfitThreshold == config.minProfitThreshold && think.opportunitiesFound == 0 && !think.isActive
      ensures execute.privateKey == config.privateKey && execute.gasLimit == config.gasLimit
      ensures execute.autoTrading == config.enableAutoTrading && !execute.isActive
      ensures execute.tradesExecuted == 0 && execute.totalProfit == 0.0 && execute.successes == []
    {
      this.config := config;
      sense := new SenseModule(config.rpcEndpoints);
      think := new ThinkModule(config.minProfitThreshold);
      execute := new ExecuteModule(config.privateKey, config.gasLimit, config.enableAutoTrading);
      isRunning := false;
    }

    /** `activate`: every module on, then running; caches and counters kept. */
    method Activate()
      modifies this`isRunning, sense`isActive, think`isActive, execute`isActive
      ensures isRunning && sense.isActive && think.isActive && execute.isActive
    {
      sense.Activate();
      think.Activate();
      execute.Activate();
      isRunning := true;
    }

    /** `deactivate`: not running, then every module off, from any state;
        the new state does not depend on the old flags, so a second call
        changes nothing. */
    method Deactivate()
      modifies this`isRunning, sense`isActive, think`isActive, execute`isActive
      ensures !isRunning && !sense.isActive && !think.isActive && !execute.isActive
    {
      isRunning := false;
      sense.Deactivate();
      think.Deactivate();
      execute.Deactivate();
    }

    /** `run_cycle`: scan, analyse a non-empty scan, execute the first three
        opportunities found. When not running, nothing changes. */
    method RunCycle()
      requires Valid()
      modifies sense`marketData, think`opportunitiesFound, execute`tradesExecuted, execute`totalProfit, execute`successes
      ensures Valid()
      ensures sense.marketData == CacheWith(old(sense.marketData), CycleScan(isRunning, sense.isActive))
      ensures think.opportunitiesFound ==
        old(think.opportunitiesFound) + |CycleFound(CycleScan(isRunning, sense.isActive), think.isActive, think.minProfitThreshold)|
      ensures execute.successes == old(execute.successes) + Successful(Outcomes(execute.isActive, execute.autoTrading, execute.privateKey,
        FirstThree(CycleFound(CycleScan(isRunning, sense.isActive), think.isActive, think.minProfitThreshold))))
      ensures execute.tradesExecuted <= old(execute.tradesExecuted) + MaxTradesPerCycle
    {
      if !isRunning {
        return;
      }
      var marketData := sense.ScanMarkets();
      if marketData == [] {
        return;
      }
      AnalyzeAndExecute(marketData);
    }

    /** The think and execute stages of `run_cycle` on a non-empty scan. */
    method AnalyzeAndExecute(marketData: seq<MarketData>)
      requires Valid()
      modifies think`opportunitiesFound, execute`tradesExecuted, execute`totalProfit, execute`successes
      ensures Valid()
      ensures think.opportunitiesFound == old(think.opportunitiesFound) + |CycleFound(marketData, think.isActive, think.minProfitThreshold)|
      ensures execute.successes == old(execute.successes) + Successful(Outcomes(execute.isActive, execute.autoTrading, execute.privateKey,
        FirstThree(CycleFound(marketData, think.isActive, think.minProfitThreshold))))
      ensures execute.tradesExecuted <= old(execute.tradesExecuted) + MaxTradesPerCycle
    {
      var opportunities := think.AnalyzeMarkets(marketData);
      assert opportunities == CycleFound(marketData, think.isActive, think.minProfitThreshold);
      CycleTradesAtMostThree(execute.isActive, execute.autoTrading, execute.privateKey, opportunities);
      if opportunities == [] {
        return;
      }
      ExecuteFirstThree(opportunities);
    }

    /** The tail of `run_cycle`: `execute_opportunity` on each of the first
        three opportunities, in order, discarding the results. */
    method ExecuteFirstThree(opportunities: seq<ArbitrageOpportunity>)
      requires Valid()
      modifies execute`tradesExecuted, execute`totalProfit, execute`successes
      ensures Valid()
      ensures execute.successes == old(execute.successes) +
        Successful(Outcomes(execute.isActive, execute.autoTrading, execute.privateKey, FirstThree(opportunities)))
    {
      var chosen := FirstThree(opportunities);
      ghost var executed: seq<TradeExecution> := [];
      for k := 0 to |chosen|
        invariant execute.Valid()
        invariant executed == Outcomes(execute.isActive, execute.autoTrading, execute.privateKey, chosen[..k])
        invariant execute.successes == old(execute.successes) + Successful(executed)
      {
        ghost var before := execute.successes;
        var execution := execute.ExecuteOpportunity(chosen[k]);
        BatchStep(execute.isActive, execute.autoTrading, execute.privateKey, chosen, k, executed, old(execute.successes), before, execution, execute.successes);
        executed := executed + [execution];
      }
      assert chosen[..|chosen|] == chosen;
    }

    /** `get_statistics` of the modules as one view: opportunities found
        and the execute counters. */
    function Statistics(): (stats: (ThinkStatistics, ExecuteStatistics))
      reads this, think, execute
      requires Valid()
      ensures stats.0.opportunitiesFound == think.opportunitiesFound
      ensures stats.1.tradesExecuted == |execute.successes| && stats.1.totalProfit == TotalProfit(execute.successes)
    {
      (think.GetStatistics(), execute.GetStatistics())
    }
  }

  /** A whole session as the entry point drives it: build from a configuration,
      activate, run one cycle, read the counters. With the mock samples and a
      threshold of at least the default, nothing is found and nothing traded. */
  method DefaultSession(config: Config) returns (opportunitiesFound: nat, tradesExecuted: nat)
    requires config.minProfitThreshold >= DefaultMinProfitThreshold
    ensures opportunitiesFound == 0 && tradesExecuted == 0
  {
    var bot := new NeuralOrchestrator(config);
    bot.Activate();
    DefaultThresholdFindsNothing(bot.isRunning, bot.sense.isActive, bot.think.isActive, bot.think.minProfitThreshold);
    bot.RunCycle();
    var stats := bot.Statistics();
    opportunitiesFound := stats.0.opportunitiesFound;
    tradesExecuted := stats.1.tradesExecuted;
  }
}
