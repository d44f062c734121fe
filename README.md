# AlphaOptions core in Dafny

A Dafny model of the logic at the centre of AlphaOptions, a framework for
trading same-day-expiry ("0DTE") options. It covers three parts:

- **Option data model** (`models.dfy`, module `Models`). Contracts, positions,
  orders and completed trades as datatypes. Also the arithmetic read from
  them: mid price and spread, contract and order validation, notional value,
  unrealized and net profit, and percentage return.
- **Strategy signal generation** (`strategies.dfy`, module `Strategies`).
  - The 15:15 order cutoff.
  - The same-day filter.
  - Signal validation.
  - Order creation from a signal.
  - The four strategies' contract selection:
    - long call and long put pick the contract with the closest delta, or the
      one nearest the money when no delta is quoted;
    - the straddle takes the call and the put at the at-the-money strike;
    - the strangle takes the nearest out-of-the-money call and put.
- **Risk management** (`risk.dfy`, module `Risk`). `PositionSizer` is pure
  sizing arithmetic. `RiskManager` is a class holding the open positions and
  the day's P&L. Its trade gate is an ordered list of five checks, and the
  first failing check decides the verdict.

`wrappers.dfy` defines `Option` (Python's `Optional`) and `Result` (a call that
may raise).

Modelling choices:

- Money and percentages are `real`. Integers are unbounded.
- Timestamps are passed as explicit `DateTime` parameters. Each is a date and
  a time of day, compared field by field as Python's `time` is.
- Code that loops in the source is written as methods with loops, each proved
  against a specification function or predicate:
  - the closest-delta scan (`ClosestDeltaIndex`);
  - the straddle's scan for the at-the-money call and put (`ScanAtStrike`);
  - order creation (`CreateOrders`);
  - the two portfolio sums (`PortfolioRisk`, `CalculateMaxLoss`).
- Strategy settings are never changed after construction, so they are
  datatypes.
- `RiskManager` changes in place, so it is a class. Its methods state the
  new position list and P&L, and how the long exposure changes.

`StrategySignal.validate` is modelled as written. Its length check is Python's
chained comparison `len(contracts) != len(sides) != len(quantities)`. That
check rejects a signal only when both neighbouring pairs differ.
`ChainedLengthCheckAdmitsMismatch` exhibits a signal with two contracts, one
side and one quantity that passes validation. `CreateOrders` then emits only
as many orders as the shortest list has entries.

## Model

| member | source | states |
|---|---|---|
| `Models.MidPrice` | src/alphaoptions/models.py:53-58 | with both quotes present the mid is equidistant from bid and ask; otherwise it is the last price, which may be absent |
| `Models.Spread` | src/alphaoptions/models.py:60-65 | present exactly when both quotes are; bid plus spread gives the ask |
| `Models.ValidateContract` | src/alphaoptions/models.py:79-90 | holds iff symbol and underlying are non-empty, strike > 0, and with both quotes present they are non-negative and bid ≤ ask; a contract without both quotes passes on name and strike alone |
| `Models.ValidQuotesBracketMid` | src/alphaoptions/models.py:85-89 | for a valid contract with both quotes: spread ≥ 0, bid ≤ mid ≤ ask, mid = bid + spread/2 |
| `Models.Is0dte` | src/alphaoptions/models.py:74-77 | true exactly when the contract expires on the reference date |
| `Models.IsLong` | src/alphaoptions/models.py:104-106 | true exactly when the position was bought, false for a sold one |
| `Models.NotionalValue` | src/alphaoptions/models.py:108-111 | for a nonzero size, dividing by quantity × 100 gives back the entry price; zero for an empty position; never negative for a non-negative price and size |
| `Models.UnrealizedPnl` | src/alphaoptions/models.py:113-118 | long: (current − entry) × qty × 100; short: its negation; 0 when current equals entry |
| `Models.PnlIsChangeInNotional` | src/alphaoptions/models.py:108-118 | a long position's P&L is the change in notional value (entry × qty × 100) when re-priced at the current price; the short side earns exactly the opposite of the long side |
| `Models.ValidateOrder` | src/alphaoptions/models.py:137-145 | holds iff quantity > 0, a "limit" order has a limit price, and any limit price given is > 0 |
| `Models.NetPnl` | src/alphaoptions/models.py:161-164 | net plus commission gives gross P&L; a non-negative commission never raises it |
| `Models.ReturnPct` | src/alphaoptions/models.py:166-171 | 0 when the entry price is 0; otherwise growing the entry price by the returned percentage gives the exit price |
| `Models.TimeBeforeIsInstantOrder` | src/alphaoptions/strategies.py:72 | for well-formed times, the field-by-field order of `time` values is the order of microseconds since midnight |
| `Strategies.ValidateSignal` | src/alphaoptions/strategies.py:30-38 | valid iff there is at least one contract, the confidence is in [0,1], and the contract and side counts agree or the side and quantity counts agree (both directions) |
| `Strategies.ChainedLengthCheckAdmitsMismatch` | src/alphaoptions/strategies.py:34-35 | the chained length test lets through a signal with two contracts, one side and one quantity |
| `Strategies.IsWithinTradingHours` | src/alphaoptions/strategies.py:66-73 | always true when the cutoff is not respected; otherwise true iff the time of day is before 15:15:00.000000 |
| `Strategies.CutoffIsQuarterPastThree` | src/alphaoptions/strategies.py:14-15 | on a well-formed clock, respecting the cutoff means hour × 60 + minute < 915 |
| `Strategies.DefaultsStopAtQuarterPastThree` | src/alphaoptions/strategies.py:43-51 | the settings a strategy gets with no arguments respect the cutoff, so on a well-formed clock it trades only before 15:15; the long call and long put defaults share them |
| `Strategies.Filter` | src/alphaoptions/strategies.py:111 | keeps exactly the members of the input that the test accepts, and never lengthens it |
| `Strategies.FilterOrigin` | src/alphaoptions/strategies.py:111 | each kept contract comes from a position of the input, and the contracts kept before that position are exactly the ones kept ahead of it |
| `Strategies.FilterConcat` | src/alphaoptions/strategies.py:111 | filtering distributes over concatenation, which together with membership fixes the order of the kept contracts |
| `Strategies.FilterIdempotent` | src/alphaoptions/strategies.py:104-111 | filtering an already filtered list changes nothing |
| `Strategies.Filter0dteContracts` | src/alphaoptions/strategies.py:104-111 | keeps exactly the contracts expiring on the reference date |
| `Strategies.Filter0dteKeepsOrder` | src/alphaoptions/strategies.py:104-111 | the same-day filter of a concatenation is the concatenation of the filters, so chain order is kept |
| `Strategies.OfType` | src/alphaoptions/strategies.py:147 | keeps exactly the contracts of the given option type |
| `Strategies.FirstMinIndex` | src/alphaoptions/strategies.py:374 | returns an index of a smallest key, and every earlier key is strictly larger, so the first one wins |
| `Strategies.FirstMaxIndex` | src/alphaoptions/strategies.py:375 | returns an index of a largest key, and every earlier key is strictly smaller, so the first one wins |
| `Strategies.ClosestStrikeIndex` | src/alphaoptions/strategies.py:162-167 | the fallback: the first contract minimising \|strike − underlying price\| |
| `Strategies.ClosestDeltaIndex` | src/alphaoptions/strategies.py:151-160 | returns nothing iff no contract carries a delta; otherwise a delta-carrying contract minimising \|delta − target\|, and every earlier delta-carrying contract is strictly farther (strict `<` replacement) |
| `Strategies.LegChoiceIsUnique` | src/alphaoptions/strategies.py:151-167 | the selection rule (closest delta, else the first nearest the money) determines a single contract |
| `Strategies.SelectLongLeg` | src/alphaoptions/strategies.py:151-167 | selects by delta when any contract has a delta, and by the at-the-money fallback only when none does |
| `Strategies.LongCallOutcome` | src/alphaoptions/strategies.py:172-186 | a division error iff the mid price is present and nonzero and the underlying price is 0; no signal iff mid ÷ price × 100 exceeds the cap; otherwise one bought contract, quantity 1, confidence 0.7, with the premium within the cap |
| `Strategies.LongCallSignal` | src/alphaoptions/strategies.py:136-186 | no signal after the cutoff or without calls; otherwise the outcome for the uniquely selected call; a signal always validates, and its contract is a call from the chain |
| `Strategies.LongPutSignal` | src/alphaoptions/strategies.py:211-255 | no signal after the cutoff or without puts; otherwise one BUY of the selected put, quantity 1, confidence 0.7, which validates and is a put from the chain |
| `Strategies.FindAtmStrike` | src/alphaoptions/strategies.py:278-287 | absent iff the chain is empty; otherwise a strike present in the chain that minimises \|strike − price\| |
| `Strategies.LastIndexAt` | src/alphaoptions/strategies.py:307-312 | absent iff no contract of that type sits at that strike; otherwise such a contract with none after it |
| `Strategies.LastAt` | src/alphaoptions/strategies.py:307-312 | absent iff no contract of that type sits at that strike; otherwise a matching member of the chain |
| `Strategies.LastAtIsLastMatch` | src/alphaoptions/strategies.py:303-312 | the contract found is the LAST match: it sits at a position of the chain after which no contract of that type is at the strike |
| `Strategies.ScanAtStrike` | src/alphaoptions/strategies.py:303-312 | the overwriting scan ends with the last call and the last put at the strike |
| `Strategies.StraddleSignal` | src/alphaoptions/strategies.py:289-325 | no signal after the cutoff, on an empty chain, or when the call or the put at the ATM strike is missing; otherwise a straddle signal with [last call, last put] at that strike, both BUY with quantity 1, confidence 0.65 and the given timestamp; the strike is nearest the price among the chain's strikes |
| `Strategies.OtmCalls` | src/alphaoptions/strategies.py:360-366 | the strangle's call candidates are exactly the chain's calls struck strictly above the price |
| `Strategies.OtmPuts` | src/alphaoptions/strategies.py:360-367 | the strangle's put candidates are exactly the chain's puts struck strictly below the price |
| `Strategies.FirstOtmCallWins` | src/alphaoptions/strategies.py:366-374 | the first candidate with the lowest strike sits at a chain position before which every out-of-the-money call has a strictly higher strike |
| `Strategies.FirstOtmPutWins` | src/alphaoptions/strategies.py:367-375 | the first candidate with the highest strike sits at a chain position before which every out-of-the-money put has a strictly lower strike |
| `Strategies.LowestAmongOtmCalls` | src/alphaoptions/strategies.py:366-374 | the lowest strike among the candidates is at most the strike of every out-of-the-money call of the chain |
| `Strategies.HighestAmongOtmPuts` | src/alphaoptions/strategies.py:367-375 | the highest strike among the candidates is at least the strike of every out-of-the-money put of the chain |
| `Strategies.LowestOtmCall` | src/alphaoptions/strategies.py:360-374 | absent iff no call is struck strictly above the price; otherwise such a call with the lowest strike, and the first one in chain order on a tie (every earlier such call has a strictly higher strike), as Python's `min` returns |
| `Strategies.HighestOtmPut` | src/alphaoptions/strategies.py:360-375 | absent iff no put is struck strictly below the price; otherwise such a put with the highest strike, and the first one in chain order on a tie (every earlier such put has a strictly lower strike), as Python's `max` returns |
| `Strategies.StrangleSignal` | src/alphaoptions/strategies.py:350-385 | no signal iff past the cutoff or either OTM side is empty; otherwise a strangle signal with [lowest OTM call, highest OTM put], both BUY with quantity 1, confidence 0.6 and the given timestamp |
| `Strategies.LegOrder` | src/alphaoptions/strategies.py:94-99 | the leg order validates iff its quantity is positive and the contract's mid price is present and positive; it carries a limit price exactly when the contract has both quotes or a last price |
| `Strategies.CreateOrders` | src/alphaoptions/strategies.py:85-102 | raises iff the signal does not validate; otherwise one order per zipped leg (as many as the shortest list), each with quantity min(qty, max_position_size) and limit price equal to the contract's mid |
| `Risk.Trunc` | src/alphaoptions/risk.py:65 | truncation toward zero: for x ≥ 0, n ≤ x < n + 1; for x < 0, n − 1 < x ≤ n |
| `Risk.CalculatePositionSize` | src/alphaoptions/risk.py:37-68 | 0 without a positive mid price or with a non-positive stop; never above max_contracts once sizing runs, nor whenever max_contracts ≥ 0 |
| `Risk.PositionSizeFitsBudget` | src/alphaoptions/risk.py:55-68 | with a non-negative budget, the size is the largest whole count (up to the cap) whose combined stop-loss risk fits the per-trade budget |
| `Risk.ValidatePositionSize` | src/alphaoptions/risk.py:70-88 | holds iff 0 < n ≤ max_contracts, the mid price is present, and mid × n × 100 ≤ account value |
| `Risk.SizedPositionIsValid` | src/alphaoptions/risk.py:37-88 | a positive size from the sizer passes the sizer's validation whenever the per-trade risk percentage is at most the stop-loss percentage |
| `Risk.PremiumWithinAccount` | src/alphaoptions/risk.py:55-88 | when the stop-loss risk of n contracts fits a risk percentage no larger than the stop-loss percentage, their whole premium fits in the account |
| `Risk.DefaultSizing` | src/alphaoptions/risk.py:27-68 | with the defaults (1% per trade, at most 10 contracts, 50% stop) the size is between 0 and 10, its loss at the stop is at most 1% of the account, and a positive size passes validation |
| `Risk.LongExposure` | src/alphaoptions/risk.py:104-112 | a portfolio without long positions has zero portfolio risk |
| `Risk.UnderlyingExposure` | src/alphaoptions/risk.py:160-166 | a portfolio with no position on the underlying has zero exposure to it |
| `Risk.LongExposureAppend` | src/alphaoptions/risk.py:104-112 | portfolio risk (long notional only) adds up over a split of the position list |
| `Risk.UnderlyingExposureAppend` | src/alphaoptions/risk.py:160-166 | exposure to one underlying (long and short) adds up over a split of the position list |
| `Risk.LongExposureNonNegative` | src/alphaoptions/risk.py:104-112 | positions with non-negative entry price and size give non-negative portfolio risk |
| `Risk.RemoveFirst` | src/alphaoptions/risk.py:189-192 | unchanged when the position is absent; otherwise one element shorter, with exactly one copy of it removed (multiset) |
| `Risk.RemoveFirstCutsAtFirstCopy` | src/alphaoptions/risk.py:189-192 | it is the first copy that goes: the list is cut at a position holding the position with no copy before it, and the others keep their order |
| `Risk.LongExposureRemoveFirst` | src/alphaoptions/risk.py:189-192 | removing a present long position lowers portfolio risk by its notional value; any other removal leaves it unchanged |
| `Risk.RiskManager.constructor` | src/alphaoptions/risk.py:94-102 | stores the account value, uses the default limits when none are given, starts with no positions and a zero daily P&L |
| `Risk.RiskManager.PortfolioRisk` | src/alphaoptions/risk.py:104-112 | the loop total equals the long-only notional sum |
| `Risk.RiskManager.PortfolioRiskPct` | src/alphaoptions/risk.py:114-119 | 0 when the account value is ≤ 0; otherwise the percentage times the account value is 100 × portfolio risk |
| `Risk.RiskManager.AvailableRiskBudget` | src/alphaoptions/risk.py:121-127 | never negative; equals the portfolio budget less the risk, or 0 when that difference is negative |
| `Risk.RiskPctBelowLimitIffBudgetLeft` | src/alphaoptions/risk.py:114-127 | for a positive account, portfolio risk % is below its limit iff some risk budget is left (both directions) |
| `Risk.RiskManager.CanTakeTrade` | src/alphaoptions/risk.py:129-175 | checks run in a fixed order and the first failure decides, each verdict stated as an iff on its own failure and the earlier checks passing: daily P&L strictly below −limit; portfolio risk % ≥ max; priced order's premium above the per-trade maximum; quantity above max_position_size; priced order's addition to the underlying's long+short notional above the concentration cap; approved iff all pass; each refusal carries the amounts compared |
| `Risk.SmallerOrderStillApproved` | src/alphaoptions/risk.py:129-175 | an approved order with a non-negative limit price stays approved with fewer contracts |
| `Risk.TradeRiskMonotone` | src/alphaoptions/risk.py:146-148 | with a non-negative limit price, fewer contracts never carry a larger premium |
| `Risk.ResetClearsDailyLossGate` | src/alphaoptions/risk.py:136-141 | with a zero daily P&L and a non-negative limit, the daily-loss check never refuses |
| `Risk.RiskManager.UpdateDailyPnl` | src/alphaoptions/risk.py:177-179 | adds the amount to the daily P&L; positions, account value and limits unchanged |
| `Risk.RiskManager.ResetDailyPnl` | src/alphaoptions/risk.py:181-183 | daily P&L becomes 0; positions, account value and limits unchanged |
| `Risk.RiskManager.AddPosition` | src/alphaoptions/risk.py:185-187 | appends exactly one position; a long one raises portfolio risk by its notional; any side raises its underlying's concentration exposure by its notional; daily P&L unchanged |
| `Risk.RiskManager.RemovePosition` | src/alphaoptions/risk.py:189-192 | removes the first equal position if present, otherwise changes nothing; portfolio risk drops by its notional when it was a present long; daily P&L unchanged |
| `Risk.RiskManager.CalculateMaxLoss` | src/alphaoptions/risk.py:194-201 | the loop total equals the long-only notional sum; short positions contribute 0 |

## Left out

- The broker client (`src/alphaoptions/broker.py`): network calls, environment variables, clock-based order IDs and placeholder data. broker.py is not part of this model.
- `OptionContract.is_itm`: it is declared as a property but takes an argument, so it cannot be called as written.
- Implicit clock defaults (`datetime.now()`, `date.today()`): the time and date are always explicit parameters.
- Floating-point and `Decimal` details. These are binary rounding of deltas, confidence and percentages, `Decimal(str(float))` conversion, and the `Decimal` precision context. All of these numbers are exact reals here.
- `RiskManager.get_risk_summary`: it only casts values to float for a dictionary.
- Reason strings are structured tags rather than formatted text: `SignalReason` and `TradeVerdict`. `TradeApproved` stands for "Trade approved".
- Settings that no modelled logic reads: `min_confidence`, the long put's `max_premium_pct`, the straddle's `max_total_premium_pct`, the strangle's `call_delta`/`put_delta`, `RiskLimits.min_buying_power_reserve_pct`.
- The strategies' `name` and `strategy_type` properties, which only return constants.
- FindAtmStrike: the source takes the minimum over a set of strikes, so which of two equally near strikes it returns is not determined. The contract states only that the result is a strike in the chain nearest the price. The definition returns the first such strike in chain order.
- LongCallSignal: only the division by a zero underlying price is modelled as a raised error. Python would raise other exceptions only for inputs of the wrong type.
- CalculatePositionSize: computed over exact reals. The source rounds the percentage through `Decimal(str(float))`.
