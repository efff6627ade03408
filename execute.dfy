/**
 * The executing stage: a decision on each opportunity keyed on the
 * module's activity, the auto-trading mode and the signing key, and the
 * running counters that only live trades move.
 */
module Execute {
  import opened Options
  import opened Think

  /** Gas the mock submission reports. */
  const MockGasUsed: nat := 200000
  /** The mock transaction hash: "0x" and 64 times 'a'. */
  const MockTxHash: string := "0xaaaaaaaaaaaaaaaaaaaaaaaaaaaaaaaaaaaaaaaaaaaaaaaaaaaaaaaaaaaaaaaa"

  datatype Status = Pending | Success | Failed | Simulated

  datatype TradeExecution = TradeExecution(
    opportunity: ArbitrageOpportunity,
    status: Status,
    txHash: Option<string>,
    gasUsed: nat,
    actualProfit: real)

  /** The terminal outcome of one attempt, as a table on the module's state.
      A simulated trade reports 95% of the estimated profit (fees), a live
      one realises 92% (gas and fees); the factors are written as literals
      so that the products stay linear for the solver. */
  function Outcome(active: bool, autoTrading: bool, privateKey: Option<string>, o: ArbitrageOpportunity): TradeExecution
  {
    if !active then TradeExecution(o, Failed, None, 0, 0.0)
    else if !autoTrading then TradeExecution(o, Simulated, None, 0, o.estimatedProfit * 0.95)
    else if !Present(privateKey) then TradeExecution(o, Failed, None, 0, 0.0)
    else TradeExecution(o, Success, Some(MockTxHash), MockGasUsed, o.estimatedProfit * 0.92)
  }

  /** The decision table: each terminal status with the exact state that
      selects it, and the fields each status carries. */
  lemma OutcomeTable(active: bool, autoTrading: bool, privateKey: Option<string>, o: ArbitrageOpportunity)
    ensures var e := Outcome(active, autoTrading, privateKey, o);
      && e.opportunity == o && e.status != Pending
      && (e.status == Success <==> active && autoTrading && Present(privateKey))
      && (e.status == Simulated <==> active && !autoTrading)
      && (e.status == Failed <==> !active || (autoTrading && !Present(privateKey)))
      && (e.status == Success ==>
            e.txHash == Some(MockTxHash) && e.gasUsed == MockGasUsed && e.actualProfit == o.estimatedProfit * 0.92)
      && (e.status == Simulated ==> e.txHash == None && e.gasUsed == 0 && e.actualProfit == o.estimatedProfit * 0.95)
      && (e.status == Failed ==> e.txHash == None && e.gasUsed == 0 && e.actualProfit == 0.0)
  {
  }

  /** The outcomes of a batch: one per opportunity, in input order. */
  function Outcomes(active: bool, autoTrading: bool, privateKey: Option<string>, os: seq<ArbitrageOpportunity>): (es: seq<TradeExecution>)
  {
    if os == [] then []
    else Outcomes(active, autoTrading, privateKey, os[..|os| - 1]) + [Outcome(active, autoTrading, privateKey, os[|os| - 1])]
  }

  /** A batch yields one outcome per opportunity, the k-th for the k-th. */
  lemma {:induction false} OutcomesInOrder(active: bool, autoTrading: bool, privateKey: Option<string>, os: seq<ArbitrageOpportunity>)
    ensures |Outcomes(active, autoTrading, privateKey, os)| == |os|
    ensures forall k :: 0 <= k < |os| ==>
      Outcomes(active, autoTrading, privateKey, os)[k] == Outcome(active, autoTrading, privateKey, os[k])
  {
    if os != [] {
      var init := os[..|os| - 1];
      OutcomesInOrder(active, autoTrading, privateKey, init);
      forall k | 0 <= k < |os| - 1
        ensures Outcomes(active, autoTrading, privateKey, os)[k] == Outcome(active, autoTrading, privateKey, os[k])
      {
        assert os[k] == init[k];
      }
    }
  }

  lemma OutcomesAppend(active: bool, autoTrading: bool, privateKey: Option<string>, os: seq<ArbitrageOpportunity>, o: ArbitrageOpportunity)
    ensures Outcomes(active, autoTrading, privateKey, os + [o])
         == Outcomes(active, autoTrading, privateKey, os) + [Outcome(active, autoTrading, privateKey, o)]
  {
    assert (os + [o])[..|os|] == os;
  }

  /** The live trades among some outcomes, in order. */
  function Successful(es: seq<TradeExecution>): (r: seq<TradeExecution>)
    ensures |r| <= |es|
  {
    if es == [] then []
    else
      var init, last := es[..|es| - 1], es[|es| - 1];
      if last.status == Success then Successful(init) + [last] else Successful(init)
  }

  /** The sum of the realised profits. */
  function TotalProfit(es: seq<TradeExecution>): real {
    if es == [] then 0.0 else TotalProfit(es[..|es| - 1]) + es[|es| - 1].actualProfit
  }

  lemma SuccessfulAppend(es: seq<TradeExecution>, e: TradeExecution)
    ensures Successful(es + [e]) == Successful(es) + (if e.status == Success then [e] else [])
  {
    assert (es + [e])[..|es|] == es;
  }

  lemma SuccessStep(start: seq<TradeExecution>, before: seq<TradeExecution>, es: seq<TradeExecution>,
                    e: TradeExecution, after: seq<TradeExecution>)
    requires before == start + Successful(es)
    requires after == before + (if e.status == Success then [e] else [])
    ensures after == start + Successful(es + [e])
  {
    var s := es + [e];
    assert s[..|s| - 1] == es;
    if e.status == Success {
      assert Successful(s) == Successful(es) + [e];
      assert (start + Successful(es)) + [e] == start + (Successful(es) + [e]);
    } else {
      assert Successful(s) == Successful(es);
    }
  }

  /** One step of a batch: the next outcome extends the outcomes so far,
      and the live trades recorded extend accordingly. */
  lemma BatchStep(active: bool, autoTrading: bool, privateKey: Option<string>, os: seq<ArbitrageOpportunity>, k: nat,
                  executed: seq<TradeExecution>, start: seq<TradeExecution>, before: seq<TradeExecution>,
                  e: TradeExecution, after: seq<TradeExecution>)
    requires k < |os|
    requires executed == Outcomes(active, autoTrading, privateKey, os[..k])
    requires before == start + Successful(executed)
    requires e == Outcome(active, autoTrading, privateKey, os[k])
    requires after == before + (if e.status == Success then [e] else [])
    ensures executed + [e] == Outcomes(active, autoTrading, privateKey, os[..k + 1])
    ensures after == start + Successful(executed + [e])
  {
    SuccessStep(start, before, executed, e, after);
    OutcomesAppend(active, autoTrading, privateKey, os[..k], os[k]);
    assert os[..k + 1] == os[..k] + [os[k]];
  }

  /** In manual mode, or while inactive, no outcome is a live trade, so the
      counters do not move. */
  lemma {:induction false} NoLiveTradesUnlessAutoTrading(active: bool, autoTrading: bool, privateKey: Option<string>, os: seq<ArbitrageOpportunity>)
    requires !active || !autoTrading || !Present(privateKey)
    ensures Successful(Outcomes(active, autoTrading, privateKey, os)) == []
  {
    if os != [] {
      var init := os[..|os| - 1];
      NoLiveTradesUnlessAutoTrading(active, autoTrading, privateKey, init);
      SuccessfulAppend(Outcomes(active, autoTrading, privateKey, init), Outcome(active, autoTrading, privateKey, os[|os| - 1]));
    }
  }

  /** With auto-trading on and a key, every outcome is a live trade and the
      profit realised is 92% of the estimates. */
  lemma {:induction false} AllLiveWithKey(privateKey: Option<string>, os: seq<ArbitrageOpportunity>)
    requires Present(privateKey)
    ensures Successful(Outcomes(true, true, privateKey, os)) == Outcomes(true, true, privateKey, os)
    ensures TotalProfit(Outcomes(true, true, privateKey, os)) == EstimatedTotal(os) * 0.92
  {
    if os != [] {
      var init := os[..|os| - 1];
      AllLiveWithKey(privateKey, init);
      var es := Outcomes(true, true, privateKey, os);
      OutcomesInOrder(true, true, privateKey, init);
      SuccessfulAppend(Outcomes(true, true, privateKey, init), Outcome(true, true, privateKey, os[|os| - 1]));
      assert es[..|es| - 1] == Outcomes(true, true, privateKey, init);
    }
  }

  /** The sum of the estimated profits. */
  function EstimatedTotal(os: seq<ArbitrageOpportunity>): real {
    if os == [] then 0.0 else EstimatedTotal(os[..|os| - 1]) + os[|os| - 1].estimatedProfit
  }

  /** The mean profit per live trade, dividing by max(1, trades) so that no
      trades reports the total (zero) rather than failing. */
  function AverageProfit(totalProfit: real, tradesExecuted: nat): (avg: real)
    ensures tradesExecuted == 0 ==> avg == totalProfit
    ensures tradesExecuted > 0 ==> avg * tradesExecuted as real == totalProfit
  {
    totalProfit / (if tradesExecuted > 1 then tradesExecuted else 1) as real
  }

  datatype ExecuteStatistics = ExecuteStatistics(
    active: bool,
    autoTrading: bool,
    tradesExecuted: nat,
    totalProfit: real,
    averageProfit: real)

  class ExecuteModule {
    const privateKey: Option<string>
    const gasLimit: int
    const autoTrading: bool
    var isActive: bool
    var tradesExecuted: nat
    var totalProfit: real
    /** The live trades so far, in order. */
    ghost var successes: seq<TradeExecution>

    /** The counters count, and sum the profit of, the live trades and nothing else. */
    ghost predicate Valid()
      reads this
    {
      && tradesExecuted == |successes|
      && totalProfit == TotalProfit(successes)
      && Successful(successes) == successes
    }

    constructor (privateKey: Option<string>, gasLimit: int, autoTrading: bool)
      ensures Valid()
      ensures this.privateKey == privateKey && this.gasLimit == gasLimit && this.autoTrading == autoTrading
      ensures !isActive && tradesExecuted == 0 && totalProfit == 0.0 && successes == []
    {
      this.privateKey := privateKey;
      this.gasLimit := gasLimit;
      this.autoTrading := autoTrading;
      isActive := false;
      tradesExecuted := 0;
      totalProfit := 0.0;
      successes := [];
    }

    method Activate()
      modifies this`isActive
      ensures isActive
    {
      isActive := true;
    }

    method Deactivate()
      modifies this`isActive
      ensures !isActive
    {
      isActive := false;
    }

    /** `execute_opportunity`: resolves the attempt to its terminal outcome;
        only a live trade is counted. */
    method ExecuteOpportunity(opportunity: ArbitrageOpportunity) returns (execution: TradeExecution)
      requires Valid()
      modifies this`tradesExecuted, this`totalProfit, this`successes
      ensures Valid()
      ensures execution == Outcome(isActive, autoTrading, privateKey, opportunity)
      ensures successes == old(successes) + (if execution.status == Success then [execution] else [])
    {
      if !isActive {
        execution := TradeExecution(opportunity, Failed, None, 0, 0.0);
        return;
      }
      execution := TradeExecution(opportunity, Pending, None, 0, 0.0);
      if !autoTrading {
        execution := execution.(status := Simulated, actualProfit := opportunity.estimatedProfit * 0.95);
        return;
      }
      if !Present(privateKey) {
        execution := execution.(status := Failed);
        return;
      }
      execution := execution.(status := Success, txHash := Some(MockTxHash), gasUsed := MockGasUsed,
                              actualProfit := opportunity.estimatedProfit * 0.92);
      tradesExecuted := tradesExecuted + 1;
      totalProfit := totalProfit + execution.actualProfit;
      SuccessfulAppend(successes, execution);
      assert (successes + [execution])[..|successes|] == successes;
      successes := successes + [execution];
    }

    /** `execute_batch`: the opportunities one after another, in order. */
    method ExecuteBatch(opportunities: seq<ArbitrageOpportunity>) returns (executions: seq<TradeExecution>)
      requires Valid()
      modifies this`tradesExecuted, this`totalProfit, this`successes
      ensures Valid()
      ensures executions == Outcomes(isActive, autoTrading, privateKey, opportunities)
      ensures successes == old(successes) + Successful(executions)
    {
      executions := [];
      for k := 0 to |opportunities|
        invariant Valid()
        invariant executions == Outcomes(isActive, autoTrading, privateKey, opportunities[..k])
        invariant successes == old(successes) + Successful(executions)
      {
        ghost var before := successes;
        var execution := ExecuteOpportunity(opportunities[k]);
        BatchStep(isActive, autoTrading, privateKey, opportunities, k, executions, old(successes), before, execution, successes);
        executions := executions + [execution];
      }
      assert opportunities[..|opportunities|] == opportunities;
    }

    /** `get_statistics`: the counters and the mean profit per live trade. */
    function GetStatistics(): (stats: ExecuteStatistics)
      reads this
      requires Valid()
      ensures stats.active == isActive && stats.autoTrading == autoTrading
      ensures stats.tradesExecuted == |successes| && stats.totalProfit == TotalProfit(successes)
      ensures stats.averageProfit == AverageProfit(TotalProfit(successes), |successes|)
    {
      ExecuteStatistics(isActive, autoTrading, tradesExecuted, totalProfit, AverageProfit(totalProfit, tradesExecuted))
    }
  }
}
