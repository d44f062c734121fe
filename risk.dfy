/** Position sizing and portfolio risk control: how many contracts a trade
    may use, and whether a proposed order passes the risk limits given the
    open positions and the day's profit and loss. */
module Risk {
  import opened Wrappers
  import opened Models

  /** Risk limits; percentages are of the account value. */
  datatype RiskLimits = RiskLimits(
    maxPortfolioRiskPct: real,
    maxPositionSize: int,
    maxDailyLossPct: real,
    maxSingleTradeRiskPct: real,
    maxConcentrationPct: real)

  const DEFAULT_LIMITS: RiskLimits := RiskLimits(5.0, 10, 2.0, 1.0, 25.0)

  // ---------------------------------------------------------------------
  // Position sizing
  // ---------------------------------------------------------------------

  datatype PositionSizer = PositionSizer(accountValue: real, riskPerTradePct: real, maxContracts: int)

  /** A sizer built from an account value alone: 1% risk per trade, at
      most 10 contracts. */
  function DefaultSizer(accountValue: real): PositionSizer
  {
    PositionSizer(accountValue, 1.0, 10)
  }

  /** The stop loss assumed when none is given: half the premium. */
  const DEFAULT_STOP_LOSS_PCT: real := 50.0

  /** Python's `int(x)` on a number: truncation toward zero. */
  function Trunc(x: real): (n: int)
    ensures x >= 0.0 ==> n >= 0 && n as real <= x < n as real + 1.0
    ensures x < 0.0 ==> n <= 0 && n as real - 1.0 < x <= n as real
  {
    if x >= 0.0 then x.Floor else -((-x).Floor)
  }

  /** Dollars the sizer may lose on one trade. */
  function MaxTradeRisk(sz: PositionSizer): real
  {
    sz.accountValue * (sz.riskPerTradePct / 100.0)
  }

  /** Dollars lost per contract if the stop is hit: the stop fraction of
      the premium of 100 shares. */
  function RiskPerContract(mid: real, stopLossPct: real): real
  {
    mid * (stopLossPct / 100.0) * 100.0
  }

  /** Number of contracts to trade: the whole number of contracts whose
      stop-loss risk fits the per-trade budget, capped at `maxContracts`;
      0 without a positive mid price or a positive risk per contract. */
  function CalculatePositionSize(sz: PositionSizer, c: OptionContract, stopLossPct: real): (n: int)
    ensures MidPrice(c).None? || MidPrice(c).value <= 0.0 ==> n == 0
    ensures MidPrice(c).Some? && MidPrice(c).value > 0.0 && stopLossPct <= 0.0 ==> n == 0
    ensures MidPrice(c).Some? && MidPrice(c).value > 0.0 && stopLossPct > 0.0 ==> n <= sz.maxContracts
    ensures sz.maxContracts >= 0 ==> n <= sz.maxContracts
  {
    if MidPrice(c).None? || MidPrice(c).value <= 0.0 then 0
    else
      var maxRisk := MaxTradeRisk(sz);
      var riskPerContract := RiskPerContract(MidPrice(c).value, stopLossPct);
      if riskPerContract <= 0.0 then 0
      else
        var positionSize := Trunc(maxRisk / riskPerContract);
        if positionSize <= sz.maxContracts then positionSize else sz.maxContracts
  }

  /** With a non-negative budget, the size chosen is the largest whole
      number of contracts (up to the cap) whose combined stop-loss risk
      stays within the budget. */
  lemma PositionSizeFitsBudget(sz: PositionSizer, c: OptionContract, stopLossPct: real)
    requires MidPrice(c).Some? && MidPrice(c).value > 0.0 && stopLossPct > 0.0
    requires MaxTradeRisk(sz) >= 0.0 && sz.maxContracts >= 0
    ensures var n := CalculatePositionSize(sz, c, stopLossPct);
            var rpc := RiskPerContract(MidPrice(c).value, stopLossPct);
            && 0 <= n <= sz.maxContracts
            && n as real * rpc <= MaxTradeRisk(sz)
            && (n < sz.maxContracts ==> (n + 1) as real * rpc > MaxTradeRisk(sz))
  {
    var mid := MidPrice(c).value;
    var rpc := RiskPerContract(mid, stopLossPct);
    var budget := MaxTradeRisk(sz);
    assert rpc > 0.0 by {
      assert stopLossPct / 100.0 > 0.0;
      assert mid * (stopLossPct / 100.0) > 0.0;
    }
    var q := budget / rpc;
    var t := Trunc(q);
    assert 0.0 <= t as real <= q < t as real + 1.0;
    var n := CalculatePositionSize(sz, c, stopLossPct);
    assert n == if t <= sz.maxContracts then t else sz.maxContracts;
    WithinQuotient(budget, rpc, n as real);
    if n < sz.maxContracts {
      assert (n + 1) as real == t as real + 1.0;
      BeyondQuotient(budget, rpc, (n + 1) as real);
    }
  }

  /** A positive size chosen by the sizer passes the sizer's own
      validation when the per-trade risk percentage does not exceed the
      stop-loss percentage: the whole premium then fits in the account. */
  lemma SizedPositionIsValid(sz: PositionSizer, c: OptionContract, stopLossPct: real)
    requires MidPrice(c).Some? && MidPrice(c).value > 0.0
    requires sz.accountValue >= 0.0 && 0.0 <= sz.riskPerTradePct <= stopLossPct
    requires sz.maxContracts >= 0
    requires CalculatePositionSize(sz, c, stopLossPct) > 0
    ensures ValidatePositionSize(sz, CalculatePositionSize(sz, c, stopLossPct), c)
  {
    var mid := MidPrice(c).value;
    var n := CalculatePositionSize(sz, c, stopLossPct);
    assert stopLossPct > 0.0;
    MultiplyMonotone(0.0, sz.accountValue, sz.riskPerTradePct / 100.0);
    PositionSizeFitsBudget(sz, c, stopLossPct);
    PremiumWithinAccount(mid, n as real, stopLossPct, sz.riskPerTradePct, sz.accountValue);
  }

  /** If the stop-loss risk of `n` contracts fits a budget of `riskPct`
      percent of the account and `riskPct` is at most the stop-loss
      percentage, then their whole premium fits in the account. */
  lemma PremiumWithinAccount(mid: real, n: real, stopLossPct: real, riskPct: real, account: real)
    requires mid > 0.0 && n >= 0.0 && stopLossPct > 0.0 && 0.0 <= riskPct <= stopLossPct && account >= 0.0
    requires n * RiskPerContract(mid, stopLossPct) <= account * (riskPct / 100.0)
    ensures mid * n * 100.0 <= account
  {
    var cost := mid * n;
    assert n * RiskPerContract(mid, stopLossPct) == cost * stopLossPct;
    MultiplyMonotone(riskPct / 100.0, stopLossPct / 100.0, account);
    assert cost * stopLossPct <= account * (stopLossPct / 100.0);
    if cost * 100.0 > account {
      MultiplyStrict(account, cost * 100.0, stopLossPct);
    }
  }

  /** With the sizer's defaults (1% risk per trade, at most 10 contracts,
      a 50% stop), the loss at the stop of the chosen size is at most 1% of
      the account, and a positive size passes validation. */
  lemma DefaultSizing(accountValue: real, c: OptionContract)
    requires MidPrice(c).Some? && MidPrice(c).value > 0.0 && accountValue >= 0.0
    ensures var n := CalculatePositionSize(DefaultSizer(accountValue), c, DEFAULT_STOP_LOSS_PCT);
            && 0 <= n <= 10
            && n as real * MidPrice(c).value * 50.0 <= accountValue / 100.0
            && (n > 0 ==> ValidatePositionSize(DefaultSizer(accountValue), n, c))
  {
    var sz := DefaultSizer(accountValue);
    var mid := MidPrice(c).value;
    var n := CalculatePositionSize(sz, c, DEFAULT_STOP_LOSS_PCT);
    assert MaxTradeRisk(sz) == accountValue / 100.0;
    assert RiskPerContract(mid, DEFAULT_STOP_LOSS_PCT) == mid * 50.0;
    PositionSizeFitsBudget(sz, c, DEFAULT_STOP_LOSS_PCT);
    assert n as real * (mid * 50.0) == n as real * mid * 50.0;
    if n > 0 {
      SizedPositionIsValid(sz, c, DEFAULT_STOP_LOSS_PCT);
    }
  }

  /** At most `budget / unit` units cost at most `budget`. */
  lemma WithinQuotient(budget: real, unit: real, x: real)
    requires unit > 0.0 && x <= budget / unit
    ensures x * unit <= budget
  {
    MultiplyMonotone(x, budget / unit, unit);
    assert (budget / unit) * unit == budget;
  }

  /** More than `budget / unit` units cost more than `budget`. */
  lemma BeyondQuotient(budget: real, unit: real, x: real)
    requires unit > 0.0 && budget / unit < x
    ensures budget < x * unit
  {
    MultiplyStrict(budget / unit, x, unit);
    assert (budget / unit) * unit == budget;
  }

  lemma MultiplyMonotone(a: real, b: real, k: real)
    requires a <= b && k >= 0.0
    ensures a * k <= b * k
  {
  }

  lemma MultiplyStrict(a: real, b: real, k: real)
    requires a < b && k > 0.0
    ensures a * k < b * k
  {
  }

  /** A size is acceptable iff it is positive, within the cap, the contract
      has a mid price and the position costs no more than the account. */
  function ValidatePositionSize(sz: PositionSizer, contracts: int, c: OptionContract): (ok: bool)
    ensures ok <==>
      && 0 < contracts <= sz.maxContracts
      && MidPrice(c).Some?
      && MidPrice(c).value * contracts as real * 100.0 <= sz.accountValue
  {
    if contracts <= 0 then false
    else if contracts > sz.maxContracts then false
    else if MidPrice(c).None? then false
    else if MidPrice(c).value * contracts as real * 100.0 > sz.accountValue then false
    else true
  }

  // ---------------------------------------------------------------------
  // Exposure sums
  // ---------------------------------------------------------------------

  /** Premium at risk: the notional value of the long positions (a short
      position adds nothing). */
  function LongExposure(ps: seq<Position>): (r: real)
    ensures (forall i :: 0 <= i < |ps| ==> !IsLong(ps[i])) ==> r == 0.0
  {
    if ps == [] then 0.0
    else LongExposure(ps[..|ps| - 1]) + (if IsLong(ps[|ps| - 1]) then NotionalValue(ps[|ps| - 1]) else 0.0)
  }

  /** Notional value of all positions, long and short, on one underlying. */
  function UnderlyingExposure(ps: seq<Position>, underlying: string): (r: real)
    ensures (forall i :: 0 <= i < |ps| ==> ps[i].contract.underlying != underlying) ==> r == 0.0
  {
    if ps == [] then 0.0
    else UnderlyingExposure(ps[..|ps| - 1], underlying)
         + (if ps[|ps| - 1].contract.underlying == underlying then NotionalValue(ps[|ps| - 1]) else 0.0)
  }

  /** Long exposure adds up over a split of the position list. */
  lemma {:induction false} LongExposureAppend(a: seq<Position>, b: seq<Position>)
    ensures LongExposure(a + b) == LongExposure(a) + LongExposure(b)
    decreases |b|
  {
    if b == [] {
      assert a + b == a;
    } else {
      assert (a + b)[..|a + b| - 1] == a + b[..|b| - 1];
      LongExposureAppend(a, b[..|b| - 1]);
    }
  }

  /** Exposure to one underlying adds up over a split of the position list. */
  lemma {:induction false} UnderlyingExposureAppend(a: seq<Position>, b: seq<Position>, u: string)
    ensures UnderlyingExposure(a + b, u) == UnderlyingExposure(a, u) + UnderlyingExposure(b, u)
    decreases |b|
  {
    if b == [] {
      assert a + b == a;
    } else {
      assert (a + b)[..|a + b| - 1] == a + b[..|b| - 1];
      UnderlyingExposureAppend(a, b[..|b| - 1], u);
    }
  }

  /** Positions bought at a non-negative price in non-negative size put a
      non-negative amount at risk. */
  lemma {:induction false} LongExposureNonNegative(ps: seq<Position>)
    requires forall p :: p in ps ==> p.entryPrice >= 0.0 && p.quantity >= 0
    ensures LongExposure(ps) >= 0.0
    decreases |ps|
  {
    if ps != [] {
      var last := ps[|ps| - 1];
      assert last in ps;
      assert forall p :: p in ps[..|ps| - 1] ==> p in ps;
      LongExposureNonNegative(ps[..|ps| - 1]);
      assert NotionalValue(last) >= 0.0 by {
        MultiplyMonotone(0.0, last.entryPrice, last.quantity as real);
      }
    }
  }

  /** The open list with the first position equal to `p` taken out; the
      list itself when `p` is not in it. */
  function RemoveFirst(ps: seq<Position>, p: Position): (r: seq<Position>)
    ensures p !in ps ==> r == ps
    ensures p in ps ==> |r| == |ps| - 1
    ensures multiset(r) == multiset(ps) - multiset{p}
  {
    if p !in ps then
      assert multiset(ps)[p] == 0;
      ps
    else
      var i := FirstIndexOf(ps, p);
      var before, after := ps[..i], ps[i + 1..];
      assert multiset(ps) == multiset(before) + multiset{p} + multiset(after) by {
        assert ps == before + [p] + after;
      }
      assert multiset(before + after) == multiset(before) + multiset(after);
      before + after
  }

  /** It is the FIRST copy of `p` that goes, and the other positions keep
      their order: the list is cut at a position holding `p` with no copy
      of `p` before it. */
  lemma RemoveFirstCutsAtFirstCopy(ps: seq<Position>, p: Position)
    requires p in ps
    ensures exists i :: (0 <= i < |ps| && ps[i] == p && p !in ps[..i]
                         && RemoveFirst(ps, p) == ps[..i] + ps[i + 1..])
  {
    var i := FirstIndexOf(ps, p);
    assert RemoveFirst(ps, p) == ps[..i] + ps[i + 1..];
  }

  /** Position of the first copy of `p` in the list. */
  function FirstIndexOf(ps: seq<Position>, p: Position): (i: nat)
    requires p in ps
    ensures i < |ps| && ps[i] == p && p !in ps[..i]
  {
    if ps[0] == p then 0
    else
      assert ps == [ps[0]] + ps[1..];
      var k := FirstIndexOf(ps[1..], p);
      assert ps[..k + 1] == [ps[0]] + ps[1..][..k];
      k + 1
  }

  /** Removing a position removes its premium from the long exposure when it
      was present and long, and changes nothing otherwise. */
  lemma LongExposureRemoveFirst(ps: seq<Position>, p: Position)
    ensures LongExposure(RemoveFirst(ps, p))
         == LongExposure(ps) - (if p in ps && IsLong(p) then NotionalValue(p) else 0.0)
  {
    if p in ps {
      var i := FirstIndexOf(ps, p);
      var before, after := ps[..i], ps[i + 1..];
      assert ps == before + ([p] + after);
      assert RemoveFirst(ps, p) == before + after;
      LongExposureAppend(before, [p] + after);
      LongExposureAppend([p], after);
      LongExposureAppend(before, after);
      assert LongExposure([p]) == LongExposure([]) + (if IsLong(p) then NotionalValue(p) else 0.0) by {
        assert [p][..0] == [];
      }
    }
  }

  // ---------------------------------------------------------------------
  // The risk manager
  // ---------------------------------------------------------------------

  /** Outcome of the trade gate: approval, or the first limit the order
      breaks. */
  datatype TradeVerdict =
    | TradeApproved
    | DailyLossLimitReached
    | PortfolioRiskLimitReached
    | TradeRiskExceedsLimit(tradeRisk: real, maxTradeRisk: real)
    | PositionSizeExceedsLimit(quantity: int)
    | ConcentrationLimitReached(underlying: string)

  /** Premium an order commits at its limit price: 100 shares per
      contract. */
  function TradeRisk(o: Order): real
    requires o.limitPrice.Some?
  {
    o.limitPrice.value * o.quantity as real * 100.0
  }

  /** Open positions and the day's realized profit and loss of one account. */
  class RiskManager {
    var accountValue: real
    var limits: RiskLimits
    var dailyPnl: real
    var openPositions: seq<Position>

    /** A manager with no positions and a flat day; the default limits are
        used when none are given. */
    constructor (accountValue: real, limits: Option<RiskLimits>)
      ensures this.accountValue == accountValue
      ensures this.limits == if limits.Some? then limits.value else DEFAULT_LIMITS
      ensures dailyPnl == 0.0 && openPositions == []
    {
      this.accountValue := accountValue;
      this.limits := if limits.Some? then limits.value else DEFAULT_LIMITS;
      dailyPnl := 0.0;
      openPositions := [];
    }

    /** Total premium at risk in the long positions. */
    method PortfolioRisk() returns (totalRisk: real)
      ensures totalRisk == LongExposure(openPositions)
    {
      totalRisk := 0.0;
      for i := 0 to |openPositions|
        invariant totalRisk == LongExposure(openPositions[..i])
      {
        var position := openPositions[i];
        assert openPositions[..i + 1][..i] == openPositions[..i];
        if IsLong(position) {
          totalRisk := totalRisk + NotionalValue(position);
        }
      }
      assert openPositions[..|openPositions|] == openPositions;
    }

    /** Portfolio risk as a percentage of the account; 0 for an account
        that is not positive. */
    function PortfolioRiskPct(): (r: real)
      reads this
      ensures accountValue <= 0.0 ==> r == 0.0
      ensures accountValue > 0.0 ==> r * accountValue == LongExposure(openPositions) * 100.0
    {
      if accountValue <= 0.0 then 0.0
      else
        var r := LongExposure(openPositions) / accountValue * 100.0;
        assert r * accountValue == LongExposure(openPositions) * 100.0;
        r
    }

    /** How much more premium may be put at risk: the portfolio budget less
        the current risk, never below zero. */
    function AvailableRiskBudget(): (r: real)
      reads this
      ensures r >= 0.0
      ensures r >= accountValue * (limits.maxPortfolioRiskPct / 100.0) - LongExposure(openPositions)
      ensures r == 0.0 || r == accountValue * (limits.maxPortfolioRiskPct / 100.0) - LongExposure(openPositions)
    {
      var maxRisk := accountValue * (limits.maxPortfolioRiskPct / 100.0);
      var remaining := maxRisk - LongExposure(openPositions);
      if 0.0 >= remaining then 0.0 else remaining
    }

    function DailyLossLimit(): real
      reads this
    {
      accountValue * (limits.maxDailyLossPct / 100.0)
    }

    function MaxSingleTradeRisk(): real
      reads this
    {
      accountValue * (limits.maxSingleTradeRiskPct / 100.0)
    }

    function MaxConcentration(): real
      reads this
    {
      accountValue * (limits.maxConcentrationPct / 100.0)
    }

    /** The trade gate. Its checks run in a fixed order and the first that
        fails decides: daily loss, portfolio risk, single-trade risk (priced
        orders only), position size, concentration on the underlying
        (priced orders only). */
    function CanTakeTrade(order: Order): (r: (bool, TradeVerdict))
      reads this
      ensures r.0 <==> r.1 == TradeApproved
      ensures r.1 == DailyLossLimitReached <==> dailyPnl < -DailyLossLimit()
      ensures r.1 == PortfolioRiskLimitReached <==>
        !(dailyPnl < -DailyLossLimit()) && PortfolioRiskPct() >= limits.maxPortfolioRiskPct
      ensures r.1.TradeRiskExceedsLimit? <==>
        && !(dailyPnl < -DailyLossLimit()) && PortfolioRiskPct() < limits.maxPortfolioRiskPct
        && order.limitPrice.Some?
        && TradeRisk(order) > MaxSingleTradeRisk()
      ensures r.1.PositionSizeExceedsLimit? <==>
        && !(dailyPnl < -DailyLossLimit()) && PortfolioRiskPct() < limits.maxPortfolioRiskPct
        && (order.limitPrice.Some? ==> TradeRisk(order) <= MaxSingleTradeRisk())
        && order.quantity > limits.maxPositionSize
      ensures r.1.ConcentrationLimitReached? <==>
        && !(dailyPnl < -DailyLossLimit()) && PortfolioRiskPct() < limits.maxPortfolioRiskPct
        && (order.limitPrice.Some? ==> TradeRisk(order) <= MaxSingleTradeRisk())
        && order.quantity <= limits.maxPositionSize
        && order.limitPrice.Some?
        && UnderlyingExposure(openPositions, order.contract.underlying)
           + TradeRisk(order) > MaxConcentration()
      ensures r.1.TradeRiskExceedsLimit? ==>
        r.1.tradeRisk == TradeRisk(order)
        && r.1.maxTradeRisk == MaxSingleTradeRisk()
      ensures r.1.PositionSizeExceedsLimit? ==> r.1.quantity == order.quantity
      ensures r.1.ConcentrationLimitReached? ==> r.1.underlying == order.contract.underlying
      ensures r.0 <==>
        && dailyPnl >= -DailyLossLimit()
        && PortfolioRiskPct() < limits.maxPortfolioRiskPct
        && (order.limitPrice.Some? ==> TradeRisk(order) <= MaxSingleTradeRisk())
        && order.quantity <= limits.maxPositionSize
        && (order.limitPrice.Some? ==>
              UnderlyingExposure(openPositions, order.contract.underlying)
              + TradeRisk(order) <= MaxConcentration())
    {
      if dailyPnl < -DailyLossLimit() then (false, DailyLossLimitReached)
      else if PortfolioRiskPct() >= limits.maxPortfolioRiskPct then (false, PortfolioRiskLimitReached)
      else if order.limitPrice.Some? && TradeRisk(order) > MaxSingleTradeRisk() then
        (false, TradeRiskExceedsLimit(TradeRisk(order), MaxSingleTradeRisk()))
      else if order.quantity > limits.maxPositionSize then (false, PositionSizeExceedsLimit(order.quantity))
      else
        var exposure := UnderlyingExposure(openPositions, order.contract.underlying);
        if order.limitPrice.Some? && exposure + TradeRisk(order) > MaxConcentration() then
          (false, ConcentrationLimitReached(order.contract.underlying))
        else (true, TradeApproved)
    }

    /** Adds realized profit or loss to the day's total. */
    method UpdateDailyPnl(pnl: real)
      modifies this
      ensures dailyPnl == old(dailyPnl) + pnl
      ensures openPositions == old(openPositions) && accountValue == old(accountValue) && limits == old(limits)
    {
      dailyPnl := dailyPnl + pnl;
    }

    /** Starts a new trading day. */
    method ResetDailyPnl()
      modifies this
      ensures dailyPnl == 0.0
      ensures openPositions == old(openPositions) && accountValue == old(accountValue) && limits == old(limits)
    {
      dailyPnl := 0.0;
    }

    /** Tracks one more position; a long one adds its premium to the risk. */
    method AddPosition(position: Position)
      modifies this
      ensures openPositions == old(openPositions) + [position]
      ensures LongExposure(openPositions)
           == old(LongExposure(openPositions)) + (if IsLong(position) then NotionalValue(position) else 0.0)
      ensures UnderlyingExposure(openPositions, position.contract.underlying)
           == old(UnderlyingExposure(openPositions, position.contract.underlying)) + NotionalValue(position)
      ensures dailyPnl == old(dailyPnl) && accountValue == old(accountValue) && limits == old(limits)
    {
      openPositions := openPositions + [position];
      assert openPositions[..|openPositions| - 1] == old(openPositions);
    }

    /** Stops tracking the first position equal to `position`, if any. */
    method RemovePosition(position: Position)
      modifies this
      ensures openPositions == RemoveFirst(old(openPositions), position)
      ensures LongExposure(openPositions)
           == old(LongExposure(openPositions))
              - (if position in old(openPositions) && IsLong(position) then NotionalValue(position) else 0.0)
      ensures dailyPnl == old(dailyPnl) && accountValue == old(accountValue) && limits == old(limits)
    {
      LongExposureRemoveFirst(openPositions, position);
      if position in openPositions {
        openPositions := RemoveFirst(openPositions, position);
      }
    }

    /** Largest possible loss over the open positions: the premium paid for
        the long ones. */
    method CalculateMaxLoss() returns (maxLoss: real)
      ensures maxLoss == LongExposure(openPositions)
    {
      maxLoss := 0.0;
      for i := 0 to |openPositions|
        invariant maxLoss == LongExposure(openPositions[..i])
      {
        var position := openPositions[i];
        assert openPositions[..i + 1][..i] == openPositions[..i];
        if IsLong(position) {
          maxLoss := maxLoss + NotionalValue(position);
        }
      }
      assert openPositions[..|openPositions|] == openPositions;
    }
  }

  /** An approved order stays approved with fewer contracts, as long as
      its limit price (if any) is not negative. */
  lemma SmallerOrderStillApproved(rm: RiskManager, order: Order, quantity: int)
    requires rm.CanTakeTrade(order).0
    requires quantity <= order.quantity
    requires order.limitPrice.Some? ==> order.limitPrice.value >= 0.0
    ensures rm.CanTakeTrade(order.(quantity := quantity)).0
  {
    var smaller := order.(quantity := quantity);
    if order.limitPrice.Some? {
      var exposure := UnderlyingExposure(rm.openPositions, order.contract.underlying);
      TradeRiskMonotone(order, quantity);
      assert TradeRisk(order) <= rm.MaxSingleTradeRisk();
      assert exposure + TradeRisk(order) <= rm.MaxConcentration();
    }
  }

  lemma TradeRiskMonotone(order: Order, quantity: int)
    requires order.limitPrice.Some? && order.limitPrice.value >= 0.0 && quantity <= order.quantity
    ensures TradeRisk(order.(quantity := quantity)) <= TradeRisk(order)
  {
    MultiplyMonotone(quantity as real, order.quantity as real, order.limitPrice.value);
  }

  /** For a positive account, the portfolio-risk check of the gate passes
      exactly when some risk budget is left. */
  lemma RiskPctBelowLimitIffBudgetLeft(rm: RiskManager)
    requires rm.accountValue > 0.0
    ensures rm.PortfolioRiskPct() < rm.limits.maxPortfolioRiskPct <==> rm.AvailableRiskBudget() > 0.0
  {
    var a := rm.accountValue;
    var exposure := LongExposure(rm.openPositions);
    var pct := rm.PortfolioRiskPct();
    var maxRisk := a * (rm.limits.maxPortfolioRiskPct / 100.0);
    assert pct * a == exposure * 100.0;
    if pct < rm.limits.maxPortfolioRiskPct {
      MultiplyStrict(pct, rm.limits.maxPortfolioRiskPct, a);
      assert exposure * 100.0 < rm.limits.maxPortfolioRiskPct * a;
      assert exposure < maxRisk;
    } else {
      MultiplyMonotone(rm.limits.maxPortfolioRiskPct, pct, a);
      assert rm.limits.maxPortfolioRiskPct * a <= exposure * 100.0;
      assert maxRisk <= exposure;
    }
  }

  /** Right after a reset, a non-negative daily limit cannot be the reason
      a trade is refused. */
  lemma ResetClearsDailyLossGate(rm: RiskManager, order: Order)
    requires rm.dailyPnl == 0.0 && rm.accountValue >= 0.0 && rm.limits.maxDailyLossPct >= 0.0
    ensures rm.CanTakeTrade(order).1 != DailyLossLimitReached
  {
    MultiplyMonotone(0.0, rm.accountValue, rm.limits.maxDailyLossPct / 100.0);
  }
}
