# OmniArbBot in Dafny

OmniArbBot is a cross-chain arbitrage bot built as a "neural orchestrator" over three
modules that run in a fixed pipeline:

- **sense** scans markets and caches the latest observation of every
  `<chain>:<pair>`;
- **think** compares every pair of observations and keeps the price gaps that reach
  a profit threshold;
- **execute** decides, for each opportunity, whether to fail, simulate or "submit" a
  trade, and counts the live trades and their profit.

A configuration object supplies the endpoint list, the threshold, the key and the
auto-trading flag.

This project models that pipeline and proves what each stage promises.

| file | module | models |
|---|---|---|
| `options.dfy` | `Options` | `Option`, and Python's truthiness of an optional string (`Present`) |
| `configuration.dfy` | `Configuration` | `Config`, `_parse_list` with `str.split`/`str.strip`, `validate`, the `ENABLE_AUTO_TRADING` rule |
| `sense.dfy` | `Sense` | `MarketData`, the fixed mock batch, the keyed cache, `SenseModule` |
| `think.dfy` | `Think` | `ArbitrageOpportunity`, `_calculate_arbitrage`, the pairwise scan as specification functions, `ThinkModule` |
| `execute.dfy` | `Execute` | `TradeExecution`, the outcome decision table, `ExecuteModule` with its counters |
| `orchestrator.dfy` | `Orchestrator` | `NeuralOrchestrator`: construction, activation, one `run_cycle` |

**Stateful objects**

- Each stateful object of the source is a class with the same fields.
- Every method states its new state in terms of a specification function of the old state.
- The properties the source promises are proved about those functions as lemmas:
  - the threshold rule;
  - scan order;
  - the pair bound;
  - the decision table;
  - the counter invariant;
  - cache overwrite and idempotence;
  - the endpoint list's shape.

**ExecuteModule**

- It carries a ghost history `successes`, the live trades in order.
- Its invariant `Valid()` says that `tradesExecuted` is their number and `totalProfit` is the sum of their profits.
- That invariant is the counter rule of `execute_opportunity`.

**Prices and profits** are exact reals. A price is a positive real (the subset type `Sense.Price`), so the analyser's division by the cheaper price is always defined.

**Where the code and its comment disagree**: the comment in `run_cycle` says it executes "the most profitable" opportunities, but the code executes the first three in the order the analyser produced them. The analyser does not sort. The model follows the code: `Orchestrator.FirstThree` is a prefix of the pairwise scan order.

## Model

| member | source | states |
|---|---|---|
| Configuration.TrimStart | omniarbbot/config.py:47 | the result is a suffix of the input that does not start with whitespace |
| Configuration.TrimStartDropsSpaces | omniarbbot/config.py:47 | every character removed from the front is whitespace |
| Configuration.TrimEnd | omniarbbot/config.py:47 | the result is a prefix of the input that does not end with whitespace |
| Configuration.TrimEndDropsSpaces | omniarbbot/config.py:47 | every character removed from the back is whitespace |
| Configuration.Strip | omniarbbot/config.py:47 | `str.strip()`: no longer than the input, and either empty or free of whitespace at both ends |
| Configuration.StripEmpty | omniarbbot/config.py:47 | a field strips to the empty string exactly when it is all whitespace, so `if item.strip()` drops exactly the blank fields |
| Configuration.StripKeepsCharacters | omniarbbot/config.py:47 | stripping only removes characters: every character of the result occurs in the input |
| Configuration.Split | omniarbbot/config.py:47 | `str.split(sep)`: at least one field, none containing the separator |
| Configuration.JoinSplit | omniarbbot/config.py:47 | joining the fields back with the separator gives the original string |
| Configuration.SplitJoin | omniarbbot/config.py:47 | splitting a join of separator-free fields gives those fields back, so splitting is the inverse of joining |
| Configuration.StripEach | omniarbbot/config.py:47 | item k is the stripped field k, so order and repetitions are kept |
| Configuration.DropEmpty | omniarbbot/config.py:47 | what is kept is non-empty and comes from the input |
| Configuration.DropEmptyKeeps | omniarbbot/config.py:47 | every non-empty item survives the filter |
| Configuration.DropEmptyAppend | omniarbbot/config.py:47 | filtering a concatenation is concatenating the filtered parts, so the filter keeps order and repetitions |
| Configuration.DropEmptySingle | omniarbbot/config.py:47 | one item is dropped exactly when it is empty |
| Configuration.ParseList | omniarbbot/config.py:43-47 | an empty value gives no items, and every item is non-empty with no whitespace at either end |
| Configuration.ParseListSources | omniarbbot/config.py:47 | every item is the stripped form of one of the value's comma-separated fields |
| Configuration.ParseListHasNoComma | omniarbbot/config.py:47 | no item contains a comma |
| Configuration.ParseListKeepsFields | omniarbbot/config.py:47 | every field with non-blank content appears, stripped, in the list |
| Configuration.ParseListJoin | omniarbbot/config.py:43-47 | parsing comma-free fields joined by commas gives exactly the non-empty stripped fields, in order and with repetitions |
| Configuration.Validate | omniarbbot/config.py:49-59 | valid exactly when there is at least one endpoint and auto-trading implies a present key |
| Configuration.Lower | omniarbbot/config.py:39-41 | same length, each character lower-cased |
| Configuration.AutoTradingSpelling | omniarbbot/config.py:39-41 | the flag is on exactly for the case-insensitive spellings of "true" |
| Configuration.AutoTradingDefault | omniarbbot/config.py:39-41 | an unset variable reads as "false", so auto-trading defaults to off |
| Sense.ColonSplit | omniarbbot/modules/sense.py:87 | colon-free prefixes before a colon are recovered uniquely from the joined string |
| Sense.CacheKeyInjective | omniarbbot/modules/sense.py:87 | when chain identifiers have no colon, equal keys mean equal chain and pair |
| Sense.CacheWithOverrides | omniarbbot/modules/sense.py:86-88 | writing a batch is overriding the old cache with the batch's own entries |
| Sense.CacheWithKeys | omniarbbot/modules/sense.py:86-88 | the batch's own entries are keyed exactly by its keys |
| Sense.CacheWithHolds | omniarbbot/modules/sense.py:86-88 | with distinct keys, each observation is what the cache holds under its key |
| Sense.CacheWithUpdate | omniarbbot/modules/sense.py:86-88 | after writing, each observation is cached under its key, other keys keep their entry or stay absent, and the key set is the old keys plus the batch's |
| Sense.CacheWithIdempotent | omniarbbot/modules/sense.py:86-88 | writing the same batch twice gives the cache writing it once: entries are overwritten, never duplicated |
| Sense.SampleCache | omniarbbot/modules/sense.py:70-88 | the mock batch writes exactly "eth:ETH/USDC" and then "bsc:ETH/USDC" |
| Sense.SenseModule.constructor | omniarbbot/modules/sense.py:35-44 | endpoints stored, cache empty, inactive |
| Sense.SenseModule.Activate | omniarbbot/modules/sense.py:46-49 | active afterwards, whatever the state before |
| Sense.SenseModule.Deactivate | omniarbbot/modules/sense.py:51-54 | inactive afterwards, whatever the state before |
| Sense.SenseModule.ScanMarkets | omniarbbot/modules/sense.py:56-90 | inactive: returns nothing and the cache is unchanged; active: returns the two fixed samples in order and the cache becomes the old cache with each one written under its key |
| Sense.SenseModule.GetLatestData | omniarbbot/modules/sense.py:103-105 | a snapshot equal to the cache, reading nothing else and changing nothing |
| Think.CalculateArbitrageSpec | omniarbbot/modules/think.py:97-135 | an opportunity exists exactly when the spread reaches the threshold, so a pair at the threshold is kept; it buys the cheaper market and sells the dearer one, buying the second market on a tie, with percentage = spread·100 and profit = spread·1000 |
| Think.CalculateArbitrageSymmetric | omniarbbot/modules/think.py:113-118 | when the prices differ, swapping the arguments yields the same opportunity |
| Think.EqualPricesNeverQualify | omniarbbot/modules/think.py:121-125 | equal prices under a positive threshold give nothing |
| Think.SpreadSymmetric | omniarbbot/modules/think.py:113-121 | the relative gap does not depend on which market comes first |
| Think.PairQualifies | omniarbbot/modules/think.py:79-88 | what a single pair yields qualifies: same token pair, different chains, buy ≤ sell, spread at least the threshold, percentage and profit derived from the spread |
| Think.OpportunitiesQualify | omniarbbot/modules/think.py:73-88 | every reported opportunity takes both markets from the input and qualifies |
| Think.ShortBatchYieldsNothing | omniarbbot/modules/think.py:67-68 | fewer than two observations give no opportunity |
| Think.OpportunityAtPosition | omniarbbot/modules/think.py:73-88 | a qualifying pair (i, j) is reported, at the position given by the pairs before it |
| Think.OpportunitiesInScanOrder | omniarbbot/modules/think.py:73-88 | an earlier qualifying pair in lexicographic (i, j) order is reported at a strictly smaller position, so pairs appear in scan order |
| Think.PositionsDistinct | omniarbbot/modules/think.py:73-88 | two different qualifying pairs are reported at different positions |
| Think.OpportunitiesArePositions | omniarbbot/modules/think.py:73-88 | every index of the output is the position of some qualifying pair; with PositionsDistinct, output entries and qualifying pairs correspond one to one |
| Think.OpportunitiesHaveSources | omniarbbot/modules/think.py:73-88 | every reported opportunity is what some pair i < j yields, so nothing else is reported |
| Think.OpportunitiesBound | omniarbbot/modules/think.py:73-88 | at most n(n−1)/2 opportunities for n observations |
| Think.DemoScenario | test_demo.py:31-36 | at threshold 0.005 the four demo markets give exactly ethereum→bsc (0.75%, 7.5) and then polygon→arbitrum (10/9 %, 100/9) |
| Think.SamplesBelowDefaultThreshold | omniarbbot/modules/think.py:121-125 | the mock samples' gap stays below any threshold of at least 1%, so nothing is found |
| Think.ThinkModule.constructor | omniarbbot/modules/think.py:36-45 | threshold stored, inactive, no opportunities counted |
| Think.ThinkModule.Activate | omniarbbot/modules/think.py:47-50 | active afterwards |
| Think.ThinkModule.Deactivate | omniarbbot/modules/think.py:52-55 | inactive afterwards |
| Think.ThinkModule.AnalyzeMarkets | omniarbbot/modules/think.py:57-95 | the nested loop returns the pairwise scan when active and nothing when inactive; the counter grows by exactly the number returned |
| Think.ThinkModule.GetStatistics | omniarbbot/modules/think.py:137-143 | reports the flag, the count and the threshold in percent |
| Execute.OutcomeTable | omniarbbot/modules/execute.py:82-125 | never "pending"; success exactly when active, auto-trading and a key is present; simulated exactly when active without auto-trading; failed otherwise; the fields each status carries, including the 0.95 and 0.92 factors, the mock hash and 200000 gas |
| Execute.OutcomesInOrder | omniarbbot/modules/execute.py:140-147 | a batch has one outcome per opportunity, the k-th outcome for the k-th opportunity |
| Execute.OutcomesAppend | omniarbbot/modules/execute.py:141-143 | appending an opportunity appends its outcome |
| Execute.SuccessfulAppend | omniarbbot/modules/execute.py:115-121 | an outcome adds a live trade exactly when its status is success |
| Execute.NoLiveTradesUnlessAutoTrading | omniarbbot/modules/execute.py:82-107 | inactive, simulating or keyless: no live trade, so the counters do not move |
| Execute.AllLiveWithKey | omniarbbot/modules/execute.py:115-121 | active with auto-trading and a key: every outcome is a live trade and the realised profit is 92% of the estimated total |
| Execute.AverageProfit | omniarbbot/modules/execute.py:156 | with no trades the average is the total; otherwise average × trades = total |
| Execute.ExecuteModule.constructor | omniarbbot/modules/execute.py:37-56 | key, gas limit and mode stored; inactive; counters zero; invariant holds |
| Execute.ExecuteModule.Activate | omniarbbot/modules/execute.py:58-62 | active afterwards |
| Execute.ExecuteModule.Deactivate | omniarbbot/modules/execute.py:64-67 | inactive afterwards |
| Execute.ExecuteModule.ExecuteOpportunity | omniarbbot/modules/execute.py:69-125 | returns the outcome the decision table gives for the module's state; the live-trade history grows by that outcome exactly when it is a success, and the counter invariant is kept |
| Execute.ExecuteModule.ExecuteBatch | omniarbbot/modules/execute.py:127-147 | returns one outcome per opportunity in input order; the history grows by exactly the live trades among them |
| Execute.ExecuteModule.GetStatistics | omniarbbot/modules/execute.py:149-157 | the count and total are those of the live trades, and the average is total / max(1, count) |
| Orchestrator.CycleScan | omniarbbot/core/orchestrator.py:99-106 | the scan is non-empty exactly when the orchestrator runs and the sense module is active, and then it is the mock batch |
| Orchestrator.CycleFound | omniarbbot/core/orchestrator.py:108-112 | no analysis on an empty scan or with think inactive; everything found qualifies |
| Orchestrator.FirstThree | omniarbbot/core/orchestrator.py:115 | `opportunities[:3]`: a prefix of length min(3, n) |
| Orchestrator.CycleTradesAtMostThree | omniarbbot/core/orchestrator.py:114-116 | a cycle yields at most three live trades |
| Orchestrator.DefaultThresholdFindsNothing | omniarbbot/modules/sense.py:70-83 | with the mock samples and a threshold of at least the default 1%, a cycle finds nothing |
| Orchestrator.NeuralOrchestrator.constructor | omniarbbot/core/orchestrator.py:28-49 | three fresh modules built from the configuration, all inactive, not running, counters zero |
| Orchestrator.NeuralOrchestrator.Activate | omniarbbot/core/orchestrator.py:51-69 | all three modules active and running |
| Orchestrator.NeuralOrchestrator.Deactivate | omniarbbot/core/orchestrator.py:71-90 | not running and all three modules inactive, whatever the state before, so a second call changes nothing |
| Orchestrator.NeuralOrchestrator.RunCycle | omniarbbot/core/orchestrator.py:92-116 | cache, opportunity count and live-trade history advance by the scan, the analysis and the outcomes of the first three opportunities; when not running, or on an empty scan or analysis, each advances by nothing; at most three trades per cycle |
| Orchestrator.NeuralOrchestrator.AnalyzeAndExecute | omniarbbot/core/orchestrator.py:108-116 | on a scan, the opportunity count grows by the analysis and the live-trade history by the outcomes of its first three opportunities; nothing is executed when nothing is found; at most three trades |
| Orchestrator.NeuralOrchestrator.ExecuteFirstThree | omniarbbot/core/orchestrator.py:115-116 | `execute_opportunity` on the first three opportunities in order: the history grows by their live trades |
| Orchestrator.NeuralOrchestrator.Statistics | omniarbbot/core/orchestrator.py:171-172 | the count of opportunities found and the execute counters, as the summary reads them |
| Orchestrator.DefaultSession | omniarbbot/core/orchestrator.py:137-178 | construct, activate, run a cycle and read the summary: with a threshold of at least the default, nothing is found and nothing is traded |

## Left out

- `run_continuous` and `run`: the timed or endless loops have `asyncio.wait_for` timeouts and interrupt handling. This is concurrency and timing. `Orchestrator.DefaultSession` runs a single cycle instead.
- `SenseModule.monitor_continuously`: an asynchronous loop with sleeps.
- The `_tasks` list and its cancellation in `deactivate`: nothing ever adds a task.
- The `asyncio.sleep` delays in `execute_opportunity` and `execute_batch`: timing only.
- `time.time()` timestamps of `MarketData` and `TradeExecution`: clock readings, so the fields are dropped.
- `print` output, `__repr__`, `print_summary`'s text and the `"$x.xx"` formatting in `get_statistics`: the numbers are modelled, not their text.
- IEEE-754 rounding: prices and profits are exact reals.
- A zero or negative price: the source would raise `ZeroDivisionError` on a zero price and compute a meaningless spread on a negative one, but the `Price` type admits only positive prices.
- `Config.__init__`'s reading of the environment and of `.env`, and its `float()`/`int()` parsing: I/O and library parsing. A `Config` is a value, and the `ENABLE_AUTO_TRADING` value is a parameter of `Configuration.AutoTradingEnabled`.
- `NeuralOrchestrator(config=None)` falling back to `Config()`: it depends on that environment reading, so the constructor always takes a `Config`.
- Constructor default arguments: `ThinkModule`'s `min_profit_threshold=0.01` (omniarbbot/modules/think.py:36) and `ExecuteModule`'s `private_key=None`, `gas_limit=300000`, `auto_trading=False` (omniarbbot/modules/execute.py:37-42). Dafny constructors take every value explicitly, and the orchestrator always passes them from its `Config`.
- `gas_limit`: it is stored but never used by the source, so it is stored and never used here too.
- `TradeExecution` is built and then mutated in place. The model writes each mutation as a record update of a value that is not shared until it is returned, so aliasing is not modelled.
- Configuration.Lower: lower-cases ASCII letters only. Python's `str.lower` covers all of Unicode, but no other character lower-cases into a letter of "true", so the flag test agrees.
- main.py, examples.py and the `__init__.py` files: entry point, demos and re-exports. Of test_demo.py only the market scenario is used.
