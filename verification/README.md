# Brokers, structure detectors and indicators of the trading backend

A Dafny model of the part of the trading backend that decides what happens to money, orders
and chart annotations, with proofs of what it keeps over every run and every candle series.
`dafny verify dfyconfig.toml` checks the whole project.

## What is modelled

**The replay broker** (`Backtest*.dfy`, `BacktestBroker.dfy`). A bar settles the queued market
orders at its open, then the pending orders it reaches, then trails and resolves every
position of its symbol. `Backtest` gives each command and each bar as a function on the whole
state; `BacktestBroker` is the object whose methods update its fields in loops, each proved to
take exactly that step. The lemmas then hold for every sequence of commands and bars.

**The paper broker** (`Paper*.dfy`). The same shape, driven by quotes: market orders fill at
once, stop-limit orders arm before they fill, orders expire, and a fresh quote settles orders
and protections.

**The books** (`Books.dfy`, `Orders.dfy`, `Trailing.dfy`). Orders, open positions and closed trades are shared by
both brokers, with one notion of consistent books that each broker preserves and one
trailing ratchet.

**The crossover strategy and a whole backtest** (`Strategy.dfy`, `RunBacktest.dfy`,
`MovingAverage.dfy`, `Metrics.dfy`): the runner object, the bar loop, the equity curve, the
close-out and the figures of the report.

**The structure detectors** (`MarketStructure.dfy`, `Structure*.dfy`): swings, labels, breaks and
changes of character, regimes, breakouts and retests. `StructureDetectors` holds the one-pass
loops with their confirmation pointer; `StructureCausality` proves that appending candles never
changes what was already emitted, and `StructureFallback` where the silent fallback does.

**Price objects and indicators** (`Smc*.dfy`, `Indicators.dfy`): fair value gaps, displacement,
order and breaker blocks, the average directional index and the parabolic stop.

Units. Prices are real numbers of ticks (the last quoted digit) and need not lie on the grid
unless the code rounds them; money is whole cents and volume whole units of 1/10000 lot, as the
brokers store them; times are seconds. Every rounding of the code appears as rounding to the
nearest unit, ties to even. Money put in or taken out is in whole cents. A dictionary keyed by
generated ids is a sequence in insertion order: an order's id is its place, a position bears the
id of its order, as in the source, and a closed trade also records that id so that volumes can
be accounted for. Symbols are given in upper case. The order-update callback only observes.

## What the code does that its comments do not say

- A level does not fire at most once: it fires again after a close back (`LevelFiresTwice`);
  exactly when is `LevelFiresAgainIff`.
- Passing an empty structure list makes a detector recompute the default one. With other
  parameters this repaints (`SpikeRepaints`, `EarlyBreakRepaints`). If only the prefix is
  without labels, exactly what its default labels call for is lost (`FallbackRepaintsIff`); if
  both are, the default labels confirmed at its last two bars decide (`FallbackOnBothSides`),
  that is, whether a label to come supersedes a level or turns a regime (`BreakoutFallbackIff`,
  `BreakFallbackIff`, `RegimeFallbackIff`, `RetestFallbackIff`).
- With both levels in reach, "the closer one" is decided by the midpoint of stop and target. It
  is the nearer level, ties to the stop, exactly when the two are in order or the open makes
  no difference (`NearerLevelWinsIff`); a trailing stop can pass the target within a bar
  (`TrailingCanPassTarget`) or land on it (`TrailingCanMeetTarget`).
- A trailing extreme of exactly zero is forgotten (`ZeroExtremeIsForgotten`), though the stop
  keeps its level; exactly when the recorded extreme is off is in `RatchetClosedForm`.
- A gapped bar fills a limit order at its price, outside the bar (`GappedLimitFillsOutside`,
  `FillInsideBarIff`).
- The equity of the flat account at the end of a backtest is off its balance by the realised
  swaps (`FlatEquityIsBalanceIff`, `FlatEquityOffBalance`).
- An "order filled" event of the paper broker can carry a rejected order that stays pending in
  the book (`FilledEventOfRejectedOrder`); exactly when is `FilledEventsIff`.
- A position closed in parts on the paper broker can report more than its entry commission
  (`PartialClosesOvercharge`); it does unless the share of every part before the last rounds
  to nothing (`SplitCloseReports`).
- A report's net profit is its gross profit less gross loss less the entry commissions
  (`ReportAddsUp`).

## Model

| member | source | states |
|---|---|---|
| BacktestLedger.MoneyConserved | backend/app/services/backtest.py:266-299 | after any commands and bars, the balance is what was put in less the entry commission of every filled order plus the net of every closed trade, and the commission total is all entry and exit commissions |
| BacktestLedger.VolumeConserved | backend/app/services/backtest.py:383-435 | after any commands and bars, each filled order's volume is its closed trades plus one open position holding exactly the remainder, which exists only if that is positive; nothing else is open or closed |
| BacktestLedger.OnBarBook | backend/app/services/backtest.py:211-262 | the three loops of a bar keep the books consistent |
| BacktestLifecycle.OrdersAbsorb | backend/app/services/backtest.py:197-209 | pending is the only state an order ever leaves, over any run; nothing but the state of a pending order changes |
| BacktestLifecycle.BarSettlesOrders | backend/app/services/backtest.py:220-283 | order by order: a bar tries exactly the queued orders and the pending orders it reaches, each at its own price, fills one exactly if its protections fit that price and its margin is within the balance those before it left, rejects it otherwise, and empties the queue |
| BacktestLifecycle.MarketOrdersSettleNextBar | backend/app/services/backtest.py:220-231 | at every bar of every run a market order still pending is filled at the open if it can be and rejected if not, so none stays pending |
| BacktestLifecycle.OnlyBarsFill | backend/app/services/backtest.py:157-195 | no sequence of commands between bars fills an order or opens a position |
| BacktestLifecycle.MarketFillsSeeOnlyTheOpen | backend/app/services/backtest.py:220-231 | no look-ahead: two whole bars with the same open and time leave every market order in the same state |
| BacktestProtection.ProtectionSafe | backend/app/services/backtest.py:250-262 | after a bar no open position of its symbol has its trailed stop or its target in the bar's reach |
| BacktestProtection.BarExitsAreFair | backend/app/services/backtest.py:327-357 | every trade a bar adds closes one whole position at its stop (in the bar before slippage, never better than the stop) or its target (in the bar, never worse), the nearer one winning when both are reached in order, ties to the stop |
| BacktestProtection.NearerLevelWinsIff | backend/app/services/backtest.py:333-338 | the midpoint rule picks the nearer level, ties to the stop, exactly when stop and target are in order, the open is their midpoint, or they meet on the open's far side |
| BacktestProtection.TrailingCanPassTarget | backend/app/services/backtest.py:359-373 | a concrete bar on which the trailed stop lies beyond the target and the farther level is taken, at a worse price |
| BacktestProtection.TrailingCanMeetTarget | backend/app/services/backtest.py:359-373 | a concrete bar on which the trailed stop lands on the target and the tie goes to the target |
| BacktestProtection.ModifySucceedsIff | backend/app/services/backtest.py:458-494 | a change of protections is accepted exactly when the position is open, the market would not at once close it under them, and the new trail is positive |
| BacktestProtection.ModifyAchieves | backend/app/services/backtest.py:458-494 | an accepted change alters that position's protections only, leaves neither level touched by the market, and starts a new trail at the market's price |
| Trailing.RatchetClosedForm | backend/app/services/backtest.py:359-373 | over any prices that are not negative the stop is the better of the initial one and the level of the most favourable price of all; the recorded extreme is that price exactly when it is not a zero met earlier |
| Trailing.RatchetAwayFromZero | backend/app/services/backtest.py:359-373 | at prices of any sign both closed forms hold as long as no running extreme is exactly zero |
| Trailing.ZeroExtremeIsForgotten | backend/app/services/backtest.py:364 | two prices on which a zero extreme breaks the closed form |
| Trailing.StopNeverMovesBack | backend/app/services/broker.py:504-523 | no sequence of prices worsens a stop |
| BacktestTrailing.OpenPositionsTrail | backend/app/services/backtest.py:250-262 | over any run of commands and bars that does not modify it, a position still open is what partial closes left of the old one, ratcheted over exactly the bars of its symbol |
| BacktestTrailing.SurvivorsStop | backend/app/services/backtest.py:359-373 | so over any such run its stop is the better of the old one and the level of the most favourable price its bars reached |
| BacktestTrailing.ClosedStaysClosed | backend/app/services/backtest.py:423-428 | a position that is gone never comes back, over any run |
| BacktestSplitClose.SplitCloseIndependent | backend/app/services/backtest.py:383-435 | closing a position in k parts at one price and instant leaves the same positions as one close and a balance at most 1.5 (k + 1) cents away |
| BacktestPrices.MarketPriceAdverse | backend/app/services/backtest.py:375-379 | spread and slippage never improve on the quoted price, nor on the open rounded to a tick |
| BacktestPrices.PendingPriceAdverse | backend/app/services/backtest.py:238-245 | a stop order fills no better than its price; a limit order exactly at it |
| BacktestPrices.RoundTripNeverGains | backend/app/services/backtest.py:546-548 | opening and closing at the market of one price never has a positive gross result |
| BacktestPrices.FillInsideBarIff | backend/app/services/backtest.py:308-325 | a pending order's price lies inside the bar that fills it exactly when the bar has not gapped past it |
| BacktestPrices.OpeningNeverOverdraws | backend/app/services/backtest.py:266-283 | with the margin check on and a commission rate not above the margin rate, no fill makes a balance negative |
| BacktestBroker.BacktestBroker.OnBar | backend/app/services/backtest.py:211-262 | the method with its three loops takes exactly the step that the lemmas are about |
| BacktestBroker.BacktestBroker.PlaceOrder | backend/app/services/backtest.py:157-195 | accepts or refuses a request and queues market orders, the whole new state given |
| BacktestBroker.BacktestBroker.ClosePosition | backend/app/services/backtest.py:383-435 | closes all or part of a position, or says why not, the whole new state given |
| BacktestBroker.BacktestBroker.ModifyPosition | backend/app/services/backtest.py:458-494 | changes protections that fit the market, or says why not |
| BacktestBroker.BacktestBroker.ResolveProtections | backend/app/services/backtest.py:250-262 | the loop that updates and deletes positions while it walks a snapshot resolves each exactly once, in order |
| RunBacktest.AnyBacktestEndsFlat | backend/app/services/backtest.py:643-662 | whatever was commanded without transfers, a backtest ends flat, its net profit is the net of its trades less the entry commissions, and every filled order has been closed in full |
| RunBacktest.RunBacktest | backend/app/services/backtest.py:596-676 | the bar loop with the crossover strategy: its failures, trades, net profit, one equity value per bar and the drawdown of that curve |
| RunBacktest.ReportAddsUp | backend/app/services/metrics.py:90-113 | net profit is gross profit less gross loss less the entry commissions |
| RunBacktest.FlatEquityIsBalanceIff | backend/app/services/backtest.py:523-542 | whatever was commanded, the final equity of a backtest is off its balance by the realised swaps, so it is the balance exactly when they sum to zero |
| RunBacktest.FlatEquityOffBalance | backend/app/services/backtest.py:523-542 | a lot of EURUSD held over one night ends flat with the equity its swap of 200 cents above the balance |
| RunBacktest.ReportedDrawdown | backend/app/services/metrics.py:103 | after a positive first equity no bar's equity is below an earlier one's by more than the reported drawdown (before its rounding), which some pair attains |
| Strategy.NeverStacks | backend/app/services/strategy.py:323-354 | at every bar boundary of every backtest of the crossover strategy, pending orders plus open positions are at most one |
| Strategy.BarExposure | backend/app/services/backtest.py:211-262 | no bar raises the number of pending orders plus open positions |
| RunBacktest.StrategyRunner.FeedCandle | backend/app/services/strategy.py:228-230 | a candle reaches a running strategy only, which records exactly the crossing of the last two bars as a signal, trades on it, counts the order it places, and falls into error as its hooks do |
| MovingAverage.Sma | backend/app/services/indicators.py:47-59 | the running window is the rounded mean of the last values, absent before there are enough |
| Metrics.MaxDrawdown | backend/app/services/metrics.py:34-53 | before its final rounding, the one-pass value is the largest decline from a positive equity to a later one, attained at a running peak, with its percentage of that peak |
| Metrics.PositiveStart | backend/app/services/metrics.py:34-53 | with a positive first equity it is the maximum of equity[i] - equity[j] over all i <= j, attained |
| Metrics.ProfitLessLoss | backend/app/services/metrics.py:90-95 | results sum to gross profit less gross loss |
| PaperLedger.PaperConserves | backend/app/services/broker.py:324-377 | after any commands and quotes, the balance is what was put in less entry commissions plus settled amounts, commissions add up, and each filled volume is closed or open in one position |
| PaperLedger.OpeningNeverOverdraws | backend/app/services/broker.py:576-631 | with leverage 100 and the rate of 0.00002 no opening fill makes a balance negative, cent rounding included |
| PaperLedger.OrdersNeverOverdraw | backend/app/services/broker.py:282-293 | nor do all the fills of a quote together |
| PaperReports.WholeCloseReports | backend/app/services/broker.py:343-356 | a position closed in one piece reports its settled amount less its entry commission to within a cent |
| PaperReports.ChargedOnceIff | backend/app/services/broker.py:351-375 | closing a position in parts charges at least its entry commission, and exactly that if and only if twice the commission times each part before the last is at most the volume then open |
| PaperReports.SplitCloseReports | backend/app/services/broker.py:324-377 | a position closed in k parts, at any prices and instants, reports what they put into the balance less the sum of their rounded shares of the entry commission, to within k cents |
| PaperReports.PartialClosesOvercharge | backend/app/services/broker.py:351-375 | a lot of EURUSD bought and closed in two halves loses 400 cents in all and reports 500 |
| PaperQuotes.OnQuoteSettlesOrders | backend/app/services/broker.py:282-293 | order by order: what a quote does to each, against the balance left by those before it |
| PaperQuotes.PendingAfterQuote | backend/app/services/broker.py:282-293 | after a quote a pending order of its symbol is not past expiry, and is not reached or could not be afforded when tried |
| PaperQuotes.PaperOrdersAbsorb | backend/app/services/broker.py:525-563 | over any run final states absorb, pending orders keep their terms, and an armed order is never disarmed while pending |
| PaperQuotes.NothingTouched | backend/app/services/broker.py:295-320 | after a quote no open position of its symbol has its stop or target touched by it |
| PaperQuotes.QuoteClosesAtLevels | backend/app/services/broker.py:303-319 | every trade a quote adds closes a whole position, at its touched stop or else at its touched target |
| PaperQuotes.OrdersCloseNothing | backend/app/services/broker.py:282-293 | settling the orders of a quote closes nothing and keeps every position |
| PaperTrailing.OpenPositionsTrail | backend/app/services/broker.py:504-523 | over any run of commands and quotes that does not modify it, a position still open is what partial closes left of the old one, ratcheted over exactly the quotes of its symbol |
| PaperTrailing.SurvivorsStop | backend/app/services/broker.py:504-523 | so its stop is the better of the old one and the level of the most favourable price quoted |
| PaperTrailing.ClosedStaysClosed | backend/app/services/broker.py:371-376 | a position that is gone never comes back, over any run |
| PaperQuotes.FilledEventsIff | backend/app/services/broker.py:291-293 | an order-filled event carries a filled order, as booked, exactly when its margin was within the balance, else a rejected copy of an order that the book keeps pending |
| PaperQuotes.FilledEventOfRejectedOrder | backend/app/services/broker.py:578-595 | a run and a quote whose one order-filled event carries a rejected order, the book unchanged |
| PaperQuotes.ModifySucceedsIff | backend/app/services/broker.py:379-424 | a change of protections is accepted exactly when the position is open, the quote would not at once close it under them, and the new trail is positive |
| PaperQuotes.ModifyAchieves | backend/app/services/broker.py:379-424 | an accepted change alters that position's protections only, leaves neither level touched by the quote, and starts a new trail at the quote's price |
| PaperBroker.PaperBroker.OnQuote | backend/app/services/broker.py:272-320 | the method with its two loops takes exactly the step the lemmas are about and returns its order events |
| PaperBroker.PaperBroker.PlaceOrder | backend/app/services/broker.py:203-260 | fills, rejects without storing, keeps pending or refuses a request, the whole new state given |
| PaperBroker.PaperBroker.TryFill | backend/app/services/broker.py:525-563 | arms, then fills an order that the quote reaches |
| PaperBroker.PaperBroker.ClosePosition | backend/app/services/broker.py:324-377 | closes all or part of a position, or says why not, the whole new state given |
| PaperBroker.PaperBroker.ModifyPosition | backend/app/services/broker.py:379-424 | changes protections that fit the quote, or says why not |
| StructureDetectors.DetectSwings | backend/app/services/market_structure.py:84-124 | refuses bad parameters, else returns exactly the strict extremes of their windows, by bar, high first |
| StructureDetectors.ClassifyStructure | backend/app/services/market_structure.py:127-169 | each swing labelled against the last earlier one of its polarity |
| StructureDetectors.DetectBos | backend/app/services/market_structure.py:200-267 | the pointer scan emits exactly the crossings of the latest confirmed level in the trend |
| StructureDetectors.DetectChoch | backend/app/services/market_structure.py:270-337 | likewise for crossings against the trend |
| StructureDetectors.DetectRegimeChanges | backend/app/services/market_structure.py:363-390 | one event for every change of the voted regime |
| StructureDetectors.DetectBreakoutsAndRetests | backend/app/services/market_structure.py:398-507 | the scan emits exactly the breakouts and the retests of the live one |
| StructureCausality.NonRepainting | backend/app/services/market_structure.py:84-507 | for every detector, series, prefix and parameters, the run on the first k candles gives exactly the events before bar k of the whole run, with all their fields |
| StructureCausality.StructurePrefix | backend/app/services/market_structure.py:84-169 | the labels of a prefix are labels of the whole (with their strength if right is at least 2), all others being confirmed no earlier than the prefix ends |
| StructureCausality.DefaultNonRepainting | backend/app/services/market_structure.py:214 | with default parameters the code, fallback included, never repaints |
| StructureCausality.LabelledNonRepainting | backend/app/services/market_structure.py:214 | with any parameters the code does not repaint once the prefix has a label |
| StructureFallback.FallbackRepaintsIff | backend/app/services/market_structure.py:214 | where only the prefix takes the fallback, the code keeps its promise exactly when no bar of the prefix has a crossing, vote or touched breakout under the default labels confirmed there |
| StructureFallback.SilentIff | backend/app/services/market_structure.py:200-507 | any detector is silent exactly when no bar has, by the closes and the labels confirmed there, a crossing in or against the trend, a vote for a trend, a crossing of a last level, or a touch of the latest unbroken breakout |
| StructureFallback.FallbackOnBothSides | backend/app/services/market_structure.py:284 | where both take the fallback, nothing is repainted if right is at least 2, and for any right exactly when the default labels of prefix and whole call for the same at the last two bars of the prefix |
| StructureFallback.BreakoutFallbackIff | backend/app/services/market_structure.py:413 | there, for breakouts on well-formed candles, exactly when no breakout at those two bars is of a level that a label to come supersedes |
| StructureFallback.BreakFallbackIff | backend/app/services/market_structure.py:284 | there, for BOS and CHoCH on well-formed candles, exactly when no label to come supersedes the level broken at those bars, nor makes or unmakes the regime of a break |
| StructureFallback.RegimeFallbackIff | backend/app/services/market_structure.py:371 | there, for regime changes, exactly when the labels to come that count as confirmed at those bars do not turn the vote |
| StructureFallback.RetestFallbackIff | backend/app/services/market_structure.py:413 | there, for retests on well-formed candles, exactly when no breakout that a label to come hides at the last bar but one changes what the last bar retests |
| StructureFallback.EarlyBreakRepaints | backend/app/services/market_structure.py:413 | eleven well-formed bars on which that fails for right = 0 |
| StructureFallback.SpikeRepaints | backend/app/services/market_structure.py:413 | eleven bars on which the fallback's breakout vanishes |
| StructureProperties.PointerIsSimple | backend/app/services/market_structure.py:220-227 | in a sorted list the running last high and low are the last labels of their polarity confirmed by the bar |
| StructureProperties.StructureSorted | backend/app/services/market_structure.py:123 | labels come sorted by bar |
| StructureProperties.NeverBosAndChoch | backend/app/services/market_structure.py:228-301 | no bar emits both |
| StructureProperties.RefiresAfterCloseBack | backend/app/services/market_structure.py:230-250 | two breaks of one level are at least two bars apart, with a close back at or inside it before the second |
| StructureProperties.LevelFiresAgainIff | backend/app/services/market_structure.py:209-211 | a broken level, up or down, fires again exactly when a later close comes back to or inside it and it is the trend's own level at the first close beyond it after that |
| StructureProperties.StandingLevelFiresAgainIff | backend/app/services/market_structure.py:209-211 | while it stays the trend's own, exactly when a later close comes back and a still later one passes it |
| StructureProperties.LevelFiresTwice | backend/app/services/market_structure.py:209-211 | nine well-formed bars whose own higher high fires twice |
| StructureProperties.RetestIff | backend/app/services/market_structure.py:439-474 | a retest is emitted exactly when the latest breakout before the bar has had no close back between, and the bar wicks to its level and closes on its side; it names that breakout |
| StructureProperties.ChangesDecode | backend/app/services/market_structure.py:345-390 | the last change at or before any bar gives back the voted regime there |
| SmcGrowth.GapsOnlyFill | backend/app/services/smc_objects.py:86-141 | appending candles keeps every gap and never takes back a fill |
| SmcGrowth.OrderBlocksGrow | backend/app/services/smc_objects.py:345-414 | appending candles keeps every order block, its invalidation and the bar of it; with a positive multiplier it can only become invalidated, at a new bar |
| SmcGrowth.BlockChain | backend/app/services/smc_objects.py:386-414 | a block's origin is the latest opposite candle in the lookback of its displacement, the first with that origin if all have full strength; it is invalidated at the first later close beyond its far boundary, or not at all |
| SmcGrowth.DisplacementsFull | backend/app/services/smc_objects.py:166-199 | with a positive multiplier every displacement has strength one |
| SmcGrowth.BreakerChain | backend/app/services/smc_objects.py:425-480 | origin, invalidation and reclaim follow one another, the latter two each the first such bar |
| SmcGrowth.BreakersGrow | backend/app/services/smc_objects.py:425-480 | appending candles keeps every breaker at its bar, unchanged with a positive multiplier |
| SmcGrowth.DefaultFallbacks | backend/app/services/smc_objects.py:356 | with the default parameters neither fallback to a default list changes anything |
| SmcGrowth.DefaultBlocksGrow | backend/app/services/smc_objects.py:345-414 | as the code runs by default, a block of a prefix is a block of the whole, at most invalidated at a new bar |
| SmcGrowth.DefaultBreakersGrow | backend/app/services/smc_objects.py:425-480 | as the code runs by default, a breaker of a prefix is a breaker of the whole in every field |
| SmcObjects.DetectFvg | backend/app/services/smc_objects.py:86-130 | finds exactly the three-candle gaps, filled if a later bar trades through |
| SmcObjects.DetectDisplacement | backend/app/services/smc_objects.py:166-199 | finds exactly the impulse candles from the lookback on |
| SmcObjects.DetectOrderBlocks | backend/app/services/smc_objects.py:345-383 | one marked block per origin and direction, replaced only by a strictly stronger displacement, sorted by bar |
| SmcObjects.DetectBreakerBlocks | backend/app/services/smc_objects.py:425-480 | the reclaimed blocks, sorted by bar |
| Indicators.Adx | backend/app/services/indicators.py:298-342 | fills the three series, the index itself defined exactly from twice the period on |
| Indicators.MovementWithinRange | backend/app/services/indicators.py:235-243 | on well-formed bars the two directional movements together never exceed the true range |
| Indicators.WilderOrdered | backend/app/services/indicators.py:318-327 | the smoothing preserves that order |
| Indicators.DiBounds | backend/app/services/indicators.py:345-348 | both directional indicators lie in [0, 100], and before rounding even their sum does |
| Indicators.AdxBounds | backend/app/services/indicators.py:330-342 | the index lies in [0, 100] wherever it is defined |
| Indicators.Psar | backend/app/services/indicators.py:392-435 | the loop gives the rounded stop of every bar but the first |
| Indicators.SarInvariantHolds | backend/app/services/indicators.py:392-435 | at every bar: acceleration within bounds, stop on the far side of the extreme point through every reversal, extreme point that of the bars since the last one, and stop on the far side of each bar that does not reverse |
| Rounding.Round | backend/app/services/backtest.py:267 | rounding to the nearest unit, ties to even |
| Orders.ShrinkVolume | backend/app/services/backtest.py:423-428 | closing a volume takes exactly that from the position and from no other |
| Books.SweepKeeps | backend/app/services/broker.py:295-320 | resolving every position at once, staying or closed whole, keeps the books consistent |

## Left out

- Binary floating point: prices and ratios are exact reals, money and volume exact integers.
- Reentrant order callbacks: a callback that places a market order inside the fill loop would be picked up by the same loop; the callback of a backtest with the crossover strategy does nothing.
- Time stamps, comments and event lists that repeat the state change; the paper broker's order events are kept, and one clock reading serves a whole call.
- Symbol lookup and case folding, unknown symbols, time zones, and the provider that makes candles and quotes: candles and quotes are arbitrary inputs.
- The replay broker's quote, margin-used and exposure queries and the result serialisation: they only read.
- The strategy engine's registry of instances and hooks of other strategies: the runner is modelled for the crossover strategy, and the broker under arbitrary commands.
- Liquidity pools, sweeps and dealing zones, whose results do change as candles are appended, and the other indicators.
- Sharpe ratio, win rate and the other averages of the report: square roots and plain quotients.
- Whether two entries of a series are one candle object: the source finds an invalidation bar by identity, the model by position.
- The strength of a swing when right is below 2: its window is fixed, so it can change as candles arrive; everything else about the swing cannot.
- The fallback of the price-object detectors with other than default parameters; with the default ones it changes nothing.
