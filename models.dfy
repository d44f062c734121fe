/** The value layer of the trading framework: option contracts, positions,
    orders and completed trades, with the arithmetic the rest of the system
    reads from them. Money is exact (`real` for Python's `Decimal`). */
module Models {
  import opened Wrappers

  /** A calendar date; the model only compares dates for equality. */
  datatype Date = Date(year: int, month: int, day: int)

  /** A time of day as Python's `datetime.time` holds it. */
  datatype TimeOfDay = TimeOfDay(hour: int, minute: int, second: int, microsecond: int)

  /** A wall-clock timestamp. */
  datatype DateTime = DateTime(date: Date, time: TimeOfDay)

  /** Python's ordering on `time` values: lexicographic on the four fields. */
  predicate TimeBefore(a: TimeOfDay, b: TimeOfDay)
  {
    a.hour < b.hour
    || (a.hour == b.hour && a.minute < b.minute)
    || (a.hour == b.hour && a.minute == b.minute && a.second < b.second)
    || (a.hour == b.hour && a.minute == b.minute && a.second == b.second && a.microsecond < b.microsecond)
  }

  /** The field ranges Python's `time` constructor enforces. */
  predicate ValidTime(t: TimeOfDay)
  {
    0 <= t.hour < 24 && 0 <= t.minute < 60 && 0 <= t.second < 60 && 0 <= t.microsecond < 1000000
  }

  /** Microseconds since midnight. */
  function Micros(t: TimeOfDay): int
  {
    ((t.hour * 60 + t.minute) * 60 + t.second) * 1000000 + t.microsecond
  }

  /** On valid times the field-wise order is the order of the instants. */
  lemma TimeBeforeIsInstantOrder(a: TimeOfDay, b: TimeOfDay)
    requires ValidTime(a) && ValidTime(b)
    ensures TimeBefore(a, b) <==> Micros(a) < Micros(b)
  {
    var sa := (a.hour * 60 + a.minute) * 60 + a.second;
    var sb := (b.hour * 60 + b.minute) * 60 + b.second;
    assert Micros(a) == sa * 1000000 + a.microsecond;
    assert Micros(b) == sb * 1000000 + b.microsecond;
    var ma := a.hour * 60 + a.minute;
    var mb := b.hour * 60 + b.minute;
    assert TimeBefore(a, b) <==>
      (ma < mb || (ma == mb && a.second < b.second)
       || (ma == mb && a.second == b.second && a.microsecond < b.microsecond));
    assert TimeBefore(a, b) <==> sa < sb || (sa == sb && a.microsecond < b.microsecond);
    if sa < sb {
      assert sa * 1000000 + 1000000 <= sb * 1000000;
    } else if sb < sa {
      assert sb * 1000000 + 1000000 <= sa * 1000000;
    }
  }

  function Abs(x: real): (r: real)
    ensures r >= 0.0 && (r == x || r == -x)
  {
    if x < 0.0 then -x else x
  }

  datatype OptionType = Call | Put

  datatype OrderSide = Buy | Sell

  datatype StrategyType = LongCall | LongPut | Straddle | Strangle | VerticalSpread

  /** An options contract with its (possibly missing) quotes and Greeks. */
  datatype OptionContract = OptionContract(
    symbol: string,
    underlying: string,
    optionType: OptionType,
    strike: real,
    expiration: Date,
    bid: Option<real>,
    ask: Option<real>,
    lastPrice: Option<real>,
    volume: int,
    openInterest: int,
    impliedVolatility: Option<real>,
    delta: Option<real>,
    gamma: Option<real>,
    theta: Option<real>,
    vega: Option<real>)

  predicate HasQuotes(c: OptionContract)
  {
    c.bid.Some? && c.ask.Some?
  }

  /** Mid price: the point halfway between bid and ask when both are
      quoted, otherwise the last traded price (which may be absent too). */
  function MidPrice(c: OptionContract): (r: Option<real>)
    ensures HasQuotes(c) ==> r.Some? && r.value - c.bid.value == c.ask.value - r.value
    ensures !HasQuotes(c) ==> r == c.lastPrice
  {
    if HasQuotes(c) then Some((c.bid.value + c.ask.value) / 2.0) else c.lastPrice
  }

  /** Bid-ask spread: the amount that takes the bid to the ask; absent
      unless both quotes are present. */
  function Spread(c: OptionContract): (r: Option<real>)
    ensures r.Some? <==> HasQuotes(c)
    ensures r.Some? ==> c.bid.value + r.value == c.ask.value
  {
    if HasQuotes(c) then Some(c.ask.value - c.bid.value) else None
  }

  /** Whether the contract expires on the given (reference) date: the
      definition of a same-day (0DTE) contract. */
  function Is0dte(c: OptionContract, referenceDate: Date): (r: bool)
    ensures r <==> c.expiration == referenceDate
  {
    c.expiration == referenceDate
  }

  /** Contract sanity check: named, positive strike, and when both quotes
      are present they are non-negative and not crossed. */
  function ValidateContract(c: OptionContract): (ok: bool)
    ensures ok <==>
      && |c.symbol| > 0 && |c.underlying| > 0
      && c.strike > 0.0
      && (HasQuotes(c) ==> c.bid.value >= 0.0 && c.ask.value >= 0.0 && c.bid.value <= c.ask.value)
    ensures !HasQuotes(c) && |c.symbol| > 0 && |c.underlying| > 0 && c.strike > 0.0 ==> ok
  {
    if |c.symbol| == 0 || |c.underlying| == 0 then false
    else if c.strike <= 0.0 then false
    else if HasQuotes(c) && (c.bid.value < 0.0 || c.ask.value < 0.0) then false
    else if HasQuotes(c) && c.bid.value > c.ask.value then false
    else true
  }

  /** A valid, fully quoted contract has a non-negative spread and its mid
      price lies between its bid and its ask. */
  lemma ValidQuotesBracketMid(c: OptionContract)
    requires ValidateContract(c) && HasQuotes(c)
    ensures Spread(c).Some? && Spread(c).value >= 0.0
    ensures MidPrice(c).Some? && c.bid.value <= MidPrice(c).value <= c.ask.value
    ensures MidPrice(c).value == c.bid.value + Spread(c).value / 2.0
  {
  }

  /** An open position in one contract. */
  datatype Position = Position(
    contract: OptionContract,
    quantity: int,
    entryPrice: real,
    entryTime: DateTime,
    side: OrderSide)

  /** A position is long exactly when it was bought; every other position
      is a sold (short) one. */
  function IsLong(p: Position): (r: bool)
    ensures r <==> p.side != Sell
  {
    p.side == Buy
  }

  /** Premium paid (or received) for the position: each contract covers
      100 shares, so spreading the value over the shares gives back the
      entry price. */
  function NotionalValue(p: Position): (r: real)
    ensures p.quantity != 0 ==> r / (p.quantity as real * 100.0) == p.entryPrice
    ensures p.entryPrice >= 0.0 && p.quantity >= 0 ==> r >= 0.0
    ensures p.quantity == 0 ==> r == 0.0
  {
    var r := p.entryPrice * p.quantity as real * 100.0;
    assert p.entryPrice >= 0.0 && p.quantity >= 0 ==> r >= 0.0 by {
      if p.entryPrice >= 0.0 && p.quantity >= 0 {
        assert p.entryPrice * p.quantity as real >= 0.0;
      }
    }
    r
  }

  /** Mark-to-market profit of the position at `currentPrice`: the price
      move times size, with the sign flipped for a short position. */
  function UnrealizedPnl(p: Position, currentPrice: real): (r: real)
    ensures IsLong(p) ==> r == (currentPrice - p.entryPrice) * p.quantity as real * 100.0
    ensures !IsLong(p) ==> r == -((currentPrice - p.entryPrice) * p.quantity as real * 100.0)
    ensures currentPrice == p.entryPrice ==> r == 0.0
  {
    var priceDiff := currentPrice - p.entryPrice;
    var signedDiff := if !IsLong(p) then -priceDiff else priceDiff;
    signedDiff * p.quantity as real * 100.0
  }

  /** The profit of a long position is the change in its notional value
      when re-priced at the current price; a short position earns exactly
      the opposite of the same long position. */
  lemma PnlIsChangeInNotional(p: Position, currentPrice: real)
    ensures IsLong(p) ==>
      UnrealizedPnl(p, currentPrice) == NotionalValue(p.(entryPrice := currentPrice)) - NotionalValue(p)
    ensures UnrealizedPnl(p.(side := Sell), currentPrice) == -UnrealizedPnl(p.(side := Buy), currentPrice)
  {
    var q := p.quantity as real;
    assert (currentPrice - p.entryPrice) * q * 100.0 == currentPrice * q * 100.0 - p.entryPrice * q * 100.0;
  }

  /** A trading order. `orderType` is the source's free-text type; only
      "limit" has a meaning to validation. */
  datatype Order = Order(
    contract: OptionContract,
    side: OrderSide,
    quantity: int,
    orderType: string,
    limitPrice: Option<real>,
    timeInForce: string,
    orderId: Option<string>,
    status: string,
    filledQuantity: int,
    filledPrice: Option<real>,
    createdAt: DateTime)

  /** An order is acceptable iff it asks for a positive quantity, a limit
      order names its limit, and any limit given is positive. */
  function ValidateOrder(o: Order): (ok: bool)
    ensures ok <==>
      && o.quantity > 0
      && (o.orderType == "limit" ==> o.limitPrice.Some?)
      && (o.limitPrice.Some? ==> o.limitPrice.value > 0.0)
  {
    if o.quantity <= 0 then false
    else if o.orderType == "limit" && o.limitPrice.None? then false
    else if o.limitPrice.Some? && o.limitPrice.value <= 0.0 then false
    else true
  }

  /** A completed trade. */
  datatype TradeResult = TradeResult(
    strategyType: StrategyType,
    entryTime: DateTime,
    exitTime: DateTime,
    entryPrice: real,
    exitPrice: real,
    quantity: int,
    pnl: real,
    commission: real)

  /** Profit after commission: adding the commission back gives the gross. */
  function NetPnl(t: TradeResult): (r: real)
    ensures r + t.commission == t.pnl
    ensures t.commission >= 0.0 ==> r <= t.pnl
  {
    t.pnl - t.commission
  }

  /** Percentage return from entry to exit (0 when the entry price is 0):
      growing the entry price by that percentage gives the exit price. */
  function ReturnPct(t: TradeResult): (r: real)
    ensures t.entryPrice == 0.0 ==> r == 0.0
    ensures t.entryPrice != 0.0 ==> t.entryPrice + t.entryPrice * r / 100.0 == t.exitPrice
  {
    if t.entryPrice == 0.0 then 0.0
    else
      var r := (t.exitPrice - t.entryPrice) / t.entryPrice * 100.0;
      assert t.entryPrice * r / 100.0 == t.exitPrice - t.entryPrice;
      r
  }
}
