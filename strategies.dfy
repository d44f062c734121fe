/** Same-day-expiry strategies: each turns an option chain, the underlying
    price and the current time into at most one trading signal, and a
    signal into orders. */
module Strategies {
  import opened Wrappers
  import opened Models

  /** The broker's last moment for same-day-expiry orders: 15:15. */
  const CUTOFF: TimeOfDay := TimeOfDay(15, 15, 0, 0)

  /** Why a signal was raised (the source's human-readable reason). */
  datatype SignalReason =
    | LongCallOn(underlying: string, strike: real)
    | LongPutOn(underlying: string, strike: real)
    | StraddleOn(underlying: string, strike: real)
    | StrangleAt(callStrike: real, putStrike: real)
    | Described(text: string)

  /** A trading signal: leg i trades `quantities[i]` of `contracts[i]` on
      side `sides[i]`. */
  datatype StrategySignal = StrategySignal(
    strategyType: StrategyType,
    contracts: seq<OptionContract>,
    sides: seq<OrderSide>,
    quantities: seq<int>,
    confidence: real,
    reason: SignalReason,
    timestamp: DateTime)

  /** What a strategy call raises. */
  datatype StrategyError = InvalidSignal | DivisionByZero

  /** Settings shared by every strategy. */
  datatype StrategyConfig = StrategyConfig(maxPositionSize: int, respectCutoff: bool)

  const DEFAULT_CONFIG: StrategyConfig := StrategyConfig(10, true)

  datatype LongCallStrategy = LongCallStrategy(base: StrategyConfig, targetDelta: real, maxPremiumPct: real)

  /** A long call built with no arguments: target delta 0.50, premium cap 2%. */
  const DEFAULT_LONG_CALL: LongCallStrategy := LongCallStrategy(DEFAULT_CONFIG, 0.50, 2.0)

  datatype LongPutStrategy = LongPutStrategy(base: StrategyConfig, targetDelta: real)

  /** A long put built with no arguments: target delta -0.50. */
  const DEFAULT_LONG_PUT: LongPutStrategy := LongPutStrategy(DEFAULT_CONFIG, -0.50)

  // ---------------------------------------------------------------------
  // Signal validation
  // ---------------------------------------------------------------------

  /** Signal check as written: the length test is Python's chained
      `len(contracts) != len(sides) != len(quantities)`, which fails only
      when BOTH neighbouring pairs differ. */
  function ValidateSignal(s: StrategySignal): (ok: bool)
    ensures ok <==>
      && |s.contracts| > 0
      && (|s.contracts| == |s.sides| || |s.sides| == |s.quantities|)
      && 0.0 <= s.confidence <= 1.0
  {
    if |s.contracts| == 0 then false
    else if |s.contracts| != |s.sides| && |s.sides| != |s.quantities| then false
    else if !(0.0 <= s.confidence && s.confidence <= 1.0) then false
    else true
  }

  /** The chained comparison lets a signal through whose leg lists have
      different lengths: two contracts with one side and one quantity. */
  lemma ChainedLengthCheckAdmitsMismatch(c1: OptionContract, c2: OptionContract, now: DateTime)
    ensures var s := StrategySignal(LongCall, [c1, c2], [Buy], [1], 0.5, Described(""), now);
            ValidateSignal(s) && |s.contracts| != |s.sides|
  {
  }

  // ---------------------------------------------------------------------
  // Trading-hours gate and same-day filter
  // ---------------------------------------------------------------------

  /** New positions may be opened only strictly before 15:15 when the
      cutoff is respected; otherwise at any time. */
  function IsWithinTradingHours(cfg: StrategyConfig, now: DateTime): (ok: bool)
    ensures !cfg.respectCutoff ==> ok
    ensures cfg.respectCutoff ==> (ok <==> TimeBefore(now.time, CUTOFF))
  {
    if cfg.respectCutoff then TimeBefore(now.time, CUTOFF) else true
  }

  /** On a well-formed clock the gate reads: minutes since midnight below
      15 * 60 + 15. */
  lemma CutoffIsQuarterPastThree(cfg: StrategyConfig, now: DateTime)
    requires cfg.respectCutoff && ValidTime(now.time)
    ensures IsWithinTradingHours(cfg, now) <==> now.time.hour * 60 + now.time.minute < 15 * 60 + 15
  {
    TimeBeforeIsInstantOrder(now.time, CUTOFF);
    var t := now.time;
    var m := t.hour * 60 + t.minute;
    assert Micros(t) == (m * 60 + t.second) * 1000000 + t.microsecond;
    assert Micros(CUTOFF) == (915 * 60) * 1000000;
    if m < 915 {
      assert m * 60 + t.second <= 915 * 60 - 1;
    } else {
      assert m * 60 + t.second >= 915 * 60;
    }
  }

  /** Strategies built with no arguments respect the cutoff, so on a
      well-formed clock they trade only before 15:15. */
  lemma DefaultsStopAtQuarterPastThree(now: DateTime)
    requires ValidTime(now.time)
    ensures IsWithinTradingHours(DEFAULT_CONFIG, now) <==> now.time.hour * 60 + now.time.minute < 915
    ensures DEFAULT_LONG_CALL.base == DEFAULT_LONG_PUT.base == DEFAULT_CONFIG
  {
    CutoffIsQuarterPastThree(DEFAULT_CONFIG, now);
  }

  /** The contracts of `s` that `keep` accepts, in their original order. */
  function Filter(s: seq<OptionContract>, keep: OptionContract -> bool): (r: seq<OptionContract>)
    ensures |r| <= |s|
    ensures forall x :: x in r <==> x in s && keep(x)
  {
    if s == [] then [] else (if keep(s[0]) then [s[0]] else []) + Filter(s[1..], keep)
  }

  /** Filtering distributes over concatenation, so it keeps the input's
      order. */
  lemma {:induction false} FilterConcat(a: seq<OptionContract>, b: seq<OptionContract>, keep: OptionContract -> bool)
    ensures Filter(a + b, keep) == Filter(a, keep) + Filter(b, keep)
  {
    if a == [] {
      assert a + b == b;
    } else {
      assert (a + b)[0] == a[0];
      assert (a + b)[1..] == a[1..] + b;
      FilterConcat(a[1..], b, keep);
    }
  }

  /** Filtering twice by the same test is filtering once. */
  lemma {:induction false} FilterIdempotent(s: seq<OptionContract>, keep: OptionContract -> bool)
    ensures Filter(Filter(s, keep), keep) == Filter(s, keep)
  {
    if s != [] {
      FilterIdempotent(s[1..], keep);
      var head := if keep(s[0]) then [s[0]] else [];
      FilterConcat(head, Filter(s[1..], keep), keep);
      if keep(s[0]) {
        assert Filter(head, keep) == [s[0]] + Filter([], keep);
      } else {
        assert head == [];
      }
    }
  }

  /** The contracts expiring on `referenceDate`, in chain order. */
  function Filter0dteContracts(contracts: seq<OptionContract>, referenceDate: Date): (r: seq<OptionContract>)
    ensures forall c :: c in r <==> c in contracts && c.expiration == referenceDate
    ensures |r| <= |contracts|
  {
    Filter(contracts, (c: OptionContract) => Is0dte(c, referenceDate))
  }

  /** The same-day filter keeps chain order: filtering a chain made of two
      parts gives the filtered parts one after the other. */
  lemma Filter0dteKeepsOrder(a: seq<OptionContract>, b: seq<OptionContract>, referenceDate: Date)
    ensures Filter0dteContracts(a + b, referenceDate)
         == Filter0dteContracts(a, referenceDate) + Filter0dteContracts(b, referenceDate)
  {
    FilterConcat(a, b, (c: OptionContract) => Is0dte(c, referenceDate));
  }

  /** The prefix of length `i + 1` starts with the head and goes on with
      the tail's prefix of length `i`. */
  lemma PrefixOfTail(s: seq<OptionContract>, i: nat)
    requires i < |s|
    ensures s[..i + 1][0] == s[0] && s[..i + 1][1..] == s[1..][..i]
  {
  }

  /** Where the `k`-th kept contract sits in `s`: the kept contracts
      before that position are exactly the first `k` kept ones. */
  lemma {:induction false} FilterOrigin(s: seq<OptionContract>, keep: OptionContract -> bool, k: nat)
    returns (i: nat)
    requires k < |Filter(s, keep)|
    ensures i < |s| && s[i] == Filter(s, keep)[k]
    ensures Filter(s[..i], keep) == Filter(s, keep)[..k]
  {
    assert s != [];
    if keep(s[0]) && k == 0 {
      i := 0;
      assert s[..0] == [];
    } else if keep(s[0]) {
      var i' := FilterOrigin(s[1..], keep, k - 1);
      FilterOriginKeptHead(s, keep, k - 1, i');
      i := i' + 1;
    } else {
      var i' := FilterOrigin(s[1..], keep, k);
      FilterOriginDroppedHead(s, keep, k, i');
      i := i' + 1;
    }
  }

  /** The step of `FilterOrigin` when the head of `s` is kept: an origin
      in the tail, shifted by one, is an origin in `s` one further on. */
  lemma FilterOriginKeptHead(s: seq<OptionContract>, keep: OptionContract -> bool, k: nat, i: nat)
    requires |s| > 0 && keep(s[0])
    requires k < |Filter(s[1..], keep)| && i < |s| - 1
    requires s[1..][i] == Filter(s[1..], keep)[k]
    requires Filter(s[1..][..i], keep) == Filter(s[1..], keep)[..k]
    ensures s[i + 1] == Filter(s, keep)[k + 1]
    ensures Filter(s[..i + 1], keep) == Filter(s, keep)[..k + 1]
  {
    PrefixOfTail(s, i);
    ConcatPrefix([s[0]], Filter(s[1..], keep), k);
  }

  /** The step of `FilterOrigin` when the head of `s` is dropped: an
      origin in the tail, shifted by one, is an origin in `s`. */
  lemma FilterOriginDroppedHead(s: seq<OptionContract>, keep: OptionContract -> bool, k: nat, i: nat)
    requires |s| > 0 && !keep(s[0])
    requires k < |Filter(s[1..], keep)| && i < |s| - 1
    requires s[1..][i] == Filter(s[1..], keep)[k]
    requires Filter(s[1..][..i], keep) == Filter(s[1..], keep)[..k]
    ensures s[i + 1] == Filter(s, keep)[k]
    ensures Filter(s[..i + 1], keep) == Filter(s, keep)[..k]
  {
    PrefixOfTail(s, i);
  }

  lemma ConcatPrefix(head: seq<OptionContract>, rest: seq<OptionContract>, k: nat)
    requires k < |rest|
    ensures (head + rest)[|head| + k] == rest[k]
    ensures (head + rest)[..|head| + k] == head + rest[..k]
  {
  }

  /** Every contract `keep` accepts before the origin of the `k`-th kept
      contract is among the first `k` kept ones. */
  lemma KeptBeforeOrigin(s: seq<OptionContract>, keep: OptionContract -> bool, k: nat) returns (i: nat)
    requires k < |Filter(s, keep)|
    ensures i < |s| && s[i] == Filter(s, keep)[k]
    ensures forall j :: 0 <= j < i && keep(s[j]) ==> s[j] in Filter(s, keep)[..k]
  {
    i := FilterOrigin(s, keep, k);
    forall j | 0 <= j < i && keep(s[j])
      ensures s[j] in Filter(s, keep)[..k]
    {
      assert s[..i][j] == s[j];
      assert s[j] in Filter(s[..i], keep);
    }
  }

  function TypeIs(t: OptionType): OptionContract -> bool
  {
    (c: OptionContract) => c.optionType == t
  }

  /** The contracts of one option type, in chain order. */
  function OfType(contracts: seq<OptionContract>, t: OptionType): (r: seq<OptionContract>)
    ensures forall c :: c in r <==> c in contracts && c.optionType == t
  {
    Filter(contracts, TypeIs(t))
  }

  /** Where the `k`-th contract of type `t` accepted by `keep` sits in the
      chain: every earlier contract of that type that `keep` accepts is
      among the first `k`. */
  lemma TypedFilterOrigin(chain: seq<OptionContract>, t: OptionType, keep: OptionContract -> bool, k: nat)
    returns (i: nat)
    requires k < |Filter(OfType(chain, t), keep)|
    ensures i < |chain| && chain[i] == Filter(OfType(chain, t), keep)[k]
    ensures forall j :: 0 <= j < i && chain[j].optionType == t && keep(chain[j]) ==>
      chain[j] in Filter(OfType(chain, t), keep)[..k]
  {
    var typed := OfType(chain, t);
    var i1 := KeptBeforeOrigin(typed, keep, k);
    i := KeptBeforeOrigin(chain, TypeIs(t), i1);
    forall j | 0 <= j < i && chain[j].optionType == t && keep(chain[j])
      ensures chain[j] in Filter(typed, keep)[..k]
    {
      assert TypeIs(t)(chain[j]);
      var m :| 0 <= m < i1 && typed[m] == chain[j];
    }
  }

  // ---------------------------------------------------------------------
  // First-wins minimum and maximum selection
  // ---------------------------------------------------------------------

  /** Index of the first smallest key: what a stable sort's head, or
      Python's `min(..., key=...)`, picks. */
  function FirstMinIndex(keys: seq<real>): (i: nat)
    requires |keys| > 0
    ensures i < |keys|
    ensures forall j :: 0 <= j < |keys| ==> keys[i] <= keys[j]
    ensures forall j :: 0 <= j < i ==> keys[i] < keys[j]
    decreases |keys|
  {
    if |keys| == 1 then 0
    else
      var k := FirstMinIndex(keys[..|keys| - 1]);
      if keys[|keys| - 1] < keys[k] then |keys| - 1 else k
  }

  /** Index of the first largest key: what Python's `max(..., key=...)`
      picks. */
  function FirstMaxIndex(keys: seq<real>): (i: nat)
    requires |keys| > 0
    ensures i < |keys|
    ensures forall j :: 0 <= j < |keys| ==> keys[j] <= keys[i]
    ensures forall j :: 0 <= j < i ==> keys[j] < keys[i]
  {
    var negated := seq(|keys|, j requires 0 <= j < |keys| => -keys[j]);
    assert forall j :: 0 <= j < |keys| ==> negated[j] == -keys[j];
    FirstMinIndex(negated)
  }

  function StrikeDistances(cs: seq<OptionContract>, price: real): seq<real>
  {
    seq(|cs|, i requires 0 <= i < |cs| => Abs(cs[i].strike - price))
  }

  function Strikes(cs: seq<OptionContract>): seq<real>
  {
    seq(|cs|, i requires 0 <= i < |cs| => cs[i].strike)
  }

  /** The at-the-money choice: the first contract whose strike is nearest
      the underlying price. */
  function ClosestStrikeIndex(cs: seq<OptionContract>, price: real): (i: nat)
    requires |cs| > 0
    ensures i < |cs|
    ensures forall j :: 0 <= j < |cs| ==> Abs(cs[i].strike - price) <= Abs(cs[j].strike - price)
    ensures forall j :: 0 <= j < i ==> Abs(cs[i].strike - price) < Abs(cs[j].strike - price)
  {
    var d := StrikeDistances(cs, price);
    var i := FirstMinIndex(d);
    assert forall j :: 0 <= j < |cs| ==> d[j] == Abs(cs[j].strike - price);
    i
  }

  // ---------------------------------------------------------------------
  // Long call / long put: closest delta, else at the money
  // ---------------------------------------------------------------------

  predicate HasDelta(cs: seq<OptionContract>)
  {
    exists i :: 0 <= i < |cs| && cs[i].delta.Some?
  }

  function DeltaDistance(c: OptionContract, target: real): real
    requires c.delta.Some?
  {
    Abs(c.delta.value - target)
  }

  /** `cs[i]` carries a delta nearest `target` among those that carry one,
      and every earlier such contract is strictly farther (first wins). */
  predicate IsClosestDelta(cs: seq<OptionContract>, target: real, i: int)
  {
    && 0 <= i < |cs|
    && cs[i].delta.Some?
    && (forall j :: 0 <= j < |cs| && cs[j].delta.Some? ==>
          DeltaDistance(cs[i], target) <= DeltaDistance(cs[j], target))
    && (forall j :: 0 <= j < i && cs[j].delta.Some? ==>
          DeltaDistance(cs[i], target) < DeltaDistance(cs[j], target))
  }

  /** The scan over `cs` that keeps the best contract so far, replacing it
      only on a strictly smaller delta distance. */
  method ClosestDeltaIndex(cs: seq<OptionContract>, target: real) returns (best: Option<nat>)
    ensures best.None? <==> !HasDelta(cs)
    ensures best.Some? ==> IsClosestDelta(cs, target, best.value)
  {
    best := None;
    var bestDiff: real := 0.0;  // meaningful once `best` is set; stands for +infinity before
    for i := 0 to |cs|
      invariant best.None? ==> forall j :: 0 <= j < i ==> cs[j].delta.None?
      invariant best.Some? ==> best.value < i && cs[best.value].delta.Some?
      invariant best.Some? ==> bestDiff == DeltaDistance(cs[best.value], target)
      invariant best.Some? ==> forall j :: 0 <= j < i && cs[j].delta.Some? ==> bestDiff <= DeltaDistance(cs[j], target)
      invariant best.Some? ==> forall j :: 0 <= j < best.value && cs[j].delta.Some? ==> bestDiff < DeltaDistance(cs[j], target)
    {
      var contract := cs[i];
      if contract.delta.Some? {
        var deltaDiff := Abs(contract.delta.value - target);
        if best.None? || deltaDiff < bestDiff {
          bestDiff := deltaDiff;
          best := Some(i);
        }
      }
    }
  }

  /** The long-leg choice: the closest-delta contract when any contract
      carries a delta, otherwise the first one nearest the money. */
  predicate IsLegChoice(cs: seq<OptionContract>, target: real, price: real, i: int)
  {
    && 0 <= i < |cs|
    && (if HasDelta(cs) then IsClosestDelta(cs, target, i) else i == ClosestStrikeIndex(cs, price))
  }

  /** The choice is unique: the rule leaves no tie unresolved. */
  lemma LegChoiceIsUnique(cs: seq<OptionContract>, target: real, price: real, i: int, k: int)
    requires IsLegChoice(cs, target, price, i) && IsLegChoice(cs, target, price, k)
    ensures i == k
  {
  }

  method SelectLongLeg(cs: seq<OptionContract>, target: real, price: real) returns (i: nat)
    requires |cs| > 0
    ensures IsLegChoice(cs, target, price, i)
  {
    var best := ClosestDeltaIndex(cs, target);
    if best.Some? {
      i := best.value;
    } else {
      i := ClosestStrikeIndex(cs, price);
    }
  }

  /** A one-leg signal buying a single contract. */
  function BuyOne(t: StrategyType, c: OptionContract, confidence: real, reason: SignalReason, now: DateTime): StrategySignal
  {
    StrategySignal(t, [c], [Buy], [1], confidence, reason, now)
  }

  /** The premium cap applies only when the mid price is present and
      nonzero (the source tests the mid price for truthiness). */
  predicate PremiumIsChecked(c: OptionContract)
  {
    MidPrice(c).Some? && MidPrice(c).value != 0.0
  }

  /** What the long call makes of its chosen contract: no signal when the
      premium is more than `maxPremiumPct` percent of the underlying price,
      a division error when that price is 0, else one bought contract. */
  function LongCallOutcome(st: LongCallStrategy, price: real, c: OptionContract, now: DateTime)
    : (r: Result<Option<StrategySignal>, StrategyError>)
    ensures r.Failure? <==> PremiumIsChecked(c) && price == 0.0
    ensures r.Failure? ==> r.error == DivisionByZero
    ensures r == Success(None) <==>
      PremiumIsChecked(c) && price != 0.0 && MidPrice(c).value / price * 100.0 > st.maxPremiumPct
    ensures r.Success? && r.value.Some? ==>
      && r.value.value == BuyOne(LongCall, c, 0.7, LongCallOn(c.underlying, c.strike), now)
      && (PremiumIsChecked(c) ==> MidPrice(c).value / price * 100.0 <= st.maxPremiumPct)
  {
    if PremiumIsChecked(c) && price == 0.0 then Failure(DivisionByZero)
    else if PremiumIsChecked(c) && MidPrice(c).value / price * 100.0 > st.maxPremiumPct then Success(None)
    else Success(Some(BuyOne(LongCall, c, 0.7, LongCallOn(c.underlying, c.strike), now)))
  }

  /** Long call signal: outside trading hours or with no calls in the chain
      there is none; otherwise the chosen call (closest delta, else nearest
      the money) is judged by `LongCallOutcome`. */
  method LongCallSignal(st: LongCallStrategy, price: real, chain: seq<OptionContract>, now: DateTime)
    returns (r: Result<Option<StrategySignal>, StrategyError>)
    ensures !IsWithinTradingHours(st.base, now) ==> r == Success(None)
    ensures OfType(chain, Call) == [] ==> r == Success(None)
    ensures IsWithinTradingHours(st.base, now) && OfType(chain, Call) != [] ==>
      exists i :: IsLegChoice(OfType(chain, Call), st.targetDelta, price, i)
               && r == LongCallOutcome(st, price, OfType(chain, Call)[i], now)
    ensures r.Success? && r.value.Some? ==>
      && ValidateSignal(r.value.value)
      && r.value.value.contracts[0] in chain
      && r.value.value.contracts[0].optionType == Call
  {
    if !IsWithinTradingHours(st.base, now) {
      return Success(None);
    }
    var calls := OfType(chain, Call);
    if calls == [] {
      return Success(None);
    }
    var i := SelectLongLeg(calls, st.targetDelta, price);
    assert calls[i] in calls;
    r := LongCallOutcome(st, price, calls[i], now);
  }

  /** Long put signal: as the long call, with puts and without the premium
      cap. */
  method LongPutSignal(st: LongPutStrategy, price: real, chain: seq<OptionContract>, now: DateTime)
    returns (r: Option<StrategySignal>)
    ensures !IsWithinTradingHours(st.base, now) ==> r == None
    ensures OfType(chain, Put) == [] ==> r == None
    ensures IsWithinTradingHours(st.base, now) && OfType(chain, Put) != [] ==>
      exists i :: IsLegChoice(OfType(chain, Put), st.targetDelta, price, i)
               && r == Some(BuyOne(LongPut, OfType(chain, Put)[i], 0.7,
                                   LongPutOn(OfType(chain, Put)[i].underlying, OfType(chain, Put)[i].strike), now))
    ensures r.Some? ==>
      && ValidateSignal(r.value)
      && r.value.contracts[0] in chain
      && r.value.contracts[0].optionType == Put
  {
    if !IsWithinTradingHours(st.base, now) {
      return None;
    }
    var puts := OfType(chain, Put);
    if puts == [] {
      return None;
    }
    var i := SelectLongLeg(puts, st.targetDelta, price);
    var best := puts[i];
    assert best in puts;
    r := Some(BuyOne(LongPut, best, 0.7, LongPutOn(best.underlying, best.strike), now));
  }

  // ---------------------------------------------------------------------
  // Straddle
  // ---------------------------------------------------------------------

  /** The at-the-money strike: absent on an empty chain, otherwise a strike
      present in the chain that is nearest the underlying price. The source
      takes the minimum over a set, so which of two equally near strikes it
      returns is not determined; this model returns the first in chain
      order. */
  function FindAtmStrike(contracts: seq<OptionContract>, price: real): (r: Option<real>)
    ensures r.None? <==> contracts == []
    ensures r.Some? ==> exists i :: 0 <= i < |contracts| && contracts[i].strike == r.value
    ensures r.Some? ==> forall c :: c in contracts ==> Abs(r.value - price) <= Abs(c.strike - price)
  {
    if contracts == [] then None else Some(contracts[ClosestStrikeIndex(contracts, price)].strike)
  }

  predicate AtStrike(c: OptionContract, t: OptionType, strike: real)
  {
    c.optionType == t && c.strike == strike
  }

  /** Index of the last contract of type `t` at `strike`, if any. */
  function LastIndexAt(cs: seq<OptionContract>, t: OptionType, strike: real): (r: Option<nat>)
    ensures r.None? <==> forall j :: 0 <= j < |cs| ==> !AtStrike(cs[j], t, strike)
    ensures r.Some? ==> r.value < |cs| && AtStrike(cs[r.value], t, strike)
    ensures r.Some? ==> forall j :: r.value < j < |cs| ==> !AtStrike(cs[j], t, strike)
    decreases |cs|
  {
    if cs == [] then None
    else if AtStrike(cs[|cs| - 1], t, strike) then Some(|cs| - 1)
    else LastIndexAt(cs[..|cs| - 1], t, strike)
  }

  /** The last contract of type `t` at `strike`, if any. */
  function LastAt(cs: seq<OptionContract>, t: OptionType, strike: real): (r: Option<OptionContract>)
    ensures r.None? <==> forall c :: c in cs ==> !AtStrike(c, t, strike)
    ensures r.Some? ==> r.value in cs && AtStrike(r.value, t, strike)
  {
    match LastIndexAt(cs, t, strike)
    case None => None
    case Some(i) => Some(cs[i])
  }

  /** The contract `LastAt` returns is the LAST match: it sits at a
      position after which nothing matches. */
  lemma LastAtIsLastMatch(cs: seq<OptionContract>, t: OptionType, strike: real)
    requires LastAt(cs, t, strike).Some?
    ensures exists i :: (0 <= i < |cs| && cs[i] == LastAt(cs, t, strike).value
      && forall j :: i < j < |cs| ==> !AtStrike(cs[j], t, strike))
  {
    var i := LastIndexAt(cs, t, strike).value;
    assert cs[i] == LastAt(cs, t, strike).value;
  }

  /** One more contract of the chain scanned: it wins when it matches. */
  lemma LastAtStep(chain: seq<OptionContract>, i: nat, t: OptionType, strike: real)
    requires i < |chain|
    ensures LastAt(chain[..i + 1], t, strike)
         == if AtStrike(chain[i], t, strike) then Some(chain[i]) else LastAt(chain[..i], t, strike)
  {
    assert chain[..i + 1][..i] == chain[..i];
  }

  /** The scan over the chain that overwrites the call and the put found
      at `strike`, so the last of each wins. */
  method ScanAtStrike(chain: seq<OptionContract>, strike: real)
    returns (atmCall: Option<OptionContract>, atmPut: Option<OptionContract>)
    ensures atmCall == LastAt(chain, Call, strike)
    ensures atmPut == LastAt(chain, Put, strike)
  {
    atmCall, atmPut := None, None;
    for i := 0 to |chain|
      invariant atmCall == LastAt(chain[..i], Call, strike)
      invariant atmPut == LastAt(chain[..i], Put, strike)
    {
      var contract := chain[i];
      LastAtStep(chain, i, Call, strike);
      LastAtStep(chain, i, Put, strike);
      if contract.strike == strike {
        if contract.optionType == Call {
          atmCall := Some(contract);
        } else if contract.optionType == Put {
          atmPut := Some(contract);
        }
      }
    }
    assert chain[..|chain|] == chain;
  }

  /** Straddle signal: buy one call and one put at the at-the-money strike;
      when several contracts match, the last in chain order is taken. */
  method StraddleSignal(cfg: StrategyConfig, price: real, chain: seq<OptionContract>, now: DateTime)
    returns (r: Option<StrategySignal>)
    ensures !IsWithinTradingHours(cfg, now) || chain == [] ==> r == None
    ensures IsWithinTradingHours(cfg, now) && chain != [] ==>
      var k := FindAtmStrike(chain, price).value;
      (r.Some? <==> LastAt(chain, Call, k).Some? && LastAt(chain, Put, k).Some?)
      && (r.Some? ==> r.value.contracts == [LastAt(chain, Call, k).value, LastAt(chain, Put, k).value])
    ensures r.Some? ==>
      && ValidateSignal(r.value)
      && |r.value.contracts| == 2
      && r.value.strategyType == Straddle && r.value.confidence == 0.65 && r.value.timestamp == now
      && r.value.sides == [Buy, Buy] && r.value.quantities == [1, 1]
      && r.value.contracts[0] in chain && r.value.contracts[0].optionType == Call
      && r.value.contracts[1] in chain && r.value.contracts[1].optionType == Put
      && r.value.contracts[0].strike == r.value.contracts[1].strike
      && (forall c :: c in chain ==>
            Abs(r.value.contracts[0].strike - price) <= Abs(c.strike - price))
  {
    if !IsWithinTradingHours(cfg, now) {
      return None;
    }
    var atmStrike := FindAtmStrike(chain, price);
    if atmStrike.None? {
      return None;
    }
    var k := atmStrike.value;
    var atmCall, atmPut := ScanAtStrike(chain, k);
    if atmCall.None? || atmPut.None? {
      return None;
    }
    r := Some(StrategySignal(Straddle, [atmCall.value, atmPut.value], [Buy, Buy], [1, 1], 0.65,
                             StraddleOn(atmCall.value.underlying, k), now));
  }

  // ---------------------------------------------------------------------
  // Strangle
  // ---------------------------------------------------------------------

  function StrikeAbove(price: real): OptionContract -> bool
  {
    (c: OptionContract) => c.strike > price
  }

  function StrikeBelow(price: real): OptionContract -> bool
  {
    (c: OptionContract) => c.strike < price
  }

  /** A call struck strictly above the underlying price. */
  predicate IsOtmCall(c: OptionContract, price: real)
  {
    c.optionType == Call && c.strike > price
  }

  /** A put struck strictly below the underlying price. */
  predicate IsOtmPut(c: OptionContract, price: real)
  {
    c.optionType == Put && c.strike < price
  }

  /** The strangle's call candidates, in chain order. */
  function OtmCalls(chain: seq<OptionContract>, price: real): (r: seq<OptionContract>)
    ensures forall c :: c in r <==> c in chain && IsOtmCall(c, price)
  {
    Filter(OfType(chain, Call), StrikeAbove(price))
  }

  /** The strangle's put candidates, in chain order. */
  function OtmPuts(chain: seq<OptionContract>, price: real): (r: seq<OptionContract>)
    ensures forall c :: c in r <==> c in chain && IsOtmPut(c, price)
  {
    Filter(OfType(chain, Put), StrikeBelow(price))
  }

  /** Where candidate `k` of the strangle's calls sits in the chain: when
      every earlier candidate has a higher strike, so does every earlier
      out-of-the-money call of the chain. */
  lemma FirstOtmCallWins(chain: seq<OptionContract>, price: real, k: nat)
    requires k < |OtmCalls(chain, price)|
    requires var f := OtmCalls(chain, price);
             forall m :: 0 <= m < k ==> Strikes(f)[k] < Strikes(f)[m]
    ensures var best := OtmCalls(chain, price)[k];
            exists i :: (0 <= i < |chain| && chain[i] == best
              && forall j :: 0 <= j < i && IsOtmCall(chain[j], price) ==> chain[j].strike > best.strike)
  {
    var f := OtmCalls(chain, price);
    var i := TypedFilterOrigin(chain, Call, StrikeAbove(price), k);
    forall j | 0 <= j < i && IsOtmCall(chain[j], price)
      ensures chain[j].strike > f[k].strike
    {
      assert StrikeAbove(price)(chain[j]);
      var m :| 0 <= m < k && f[m] == chain[j];
      assert Strikes(f)[m] == f[m].strike && Strikes(f)[k] == f[k].strike;
    }
  }

  /** The mirror image for the strangle's puts. */
  lemma FirstOtmPutWins(chain: seq<OptionContract>, price: real, k: nat)
    requires k < |OtmPuts(chain, price)|
    requires var f := OtmPuts(chain, price);
             forall m :: 0 <= m < k ==> Strikes(f)[m] < Strikes(f)[k]
    ensures var best := OtmPuts(chain, price)[k];
            exists i :: (0 <= i < |chain| && chain[i] == best
              && forall j :: 0 <= j < i && IsOtmPut(chain[j], price) ==> chain[j].strike < best.strike)
  {
    var f := OtmPuts(chain, price);
    var i := TypedFilterOrigin(chain, Put, StrikeBelow(price), k);
    forall j | 0 <= j < i && IsOtmPut(chain[j], price)
      ensures chain[j].strike < f[k].strike
    {
      assert StrikeBelow(price)(chain[j]);
      var m :| 0 <= m < k && f[m] == chain[j];
      assert Strikes(f)[m] == f[m].strike && Strikes(f)[k] == f[k].strike;
    }
  }

  /** The lowest strike among the candidates is the lowest among the
      chain's out-of-the-money calls. */
  lemma LowestAmongOtmCalls(chain: seq<OptionContract>, price: real, k: nat)
    requires k < |OtmCalls(chain, price)|
    requires var f := OtmCalls(chain, price);
             forall m :: 0 <= m < |f| ==> Strikes(f)[k] <= Strikes(f)[m]
    ensures forall c :: c in chain && IsOtmCall(c, price) ==> OtmCalls(chain, price)[k].strike <= c.strike
  {
    var f := OtmCalls(chain, price);
    forall c | c in chain && IsOtmCall(c, price)
      ensures f[k].strike <= c.strike
    {
      var m :| 0 <= m < |f| && f[m] == c;
      assert Strikes(f)[m] == f[m].strike && Strikes(f)[k] == f[k].strike;
    }
  }

  /** The highest strike among the candidates is the highest among the
      chain's out-of-the-money puts. */
  lemma HighestAmongOtmPuts(chain: seq<OptionContract>, price: real, k: nat)
    requires k < |OtmPuts(chain, price)|
    requires var f := OtmPuts(chain, price);
             forall m :: 0 <= m < |f| ==> Strikes(f)[m] <= Strikes(f)[k]
    ensures forall c :: c in chain && IsOtmPut(c, price) ==> c.strike <= OtmPuts(chain, price)[k].strike
  {
    var f := OtmPuts(chain, price);
    forall c | c in chain && IsOtmPut(c, price)
      ensures c.strike <= f[k].strike
    {
      var m :| 0 <= m < |f| && f[m] == c;
      assert Strikes(f)[m] == f[m].strike && Strikes(f)[k] == f[k].strike;
    }
  }

  /** The strangle's call: among the calls struck strictly above the
      underlying price, the first with the lowest strike. */
  function LowestOtmCall(chain: seq<OptionContract>, price: real): (r: Option<OptionContract>)
    ensures r.None? <==> forall c :: c in chain ==> !IsOtmCall(c, price)
    ensures r.Some? ==> r.value in chain && IsOtmCall(r.value, price)
    ensures r.Some? ==> forall c :: c in chain && IsOtmCall(c, price) ==> r.value.strike <= c.strike
    ensures r.Some? ==> exists i :: (0 <= i < |chain| && chain[i] == r.value
      && forall j :: 0 <= j < i && IsOtmCall(chain[j], price) ==> chain[j].strike > r.value.strike)
  {
    var otmCalls := OtmCalls(chain, price);
    if otmCalls == [] then None
    else
      var k := FirstMinIndex(Strikes(otmCalls));
      LowestAmongOtmCalls(chain, price, k);
      FirstOtmCallWins(chain, price, k);
      assert otmCalls[k] in otmCalls;
      Some(otmCalls[k])
  }

  /** The strangle's put: among the puts struck strictly below the
      underlying price, the first with the highest strike. */
  function HighestOtmPut(chain: seq<OptionContract>, price: real): (r: Option<OptionContract>)
    ensures r.None? <==> forall c :: c in chain ==> !IsOtmPut(c, price)
    ensures r.Some? ==> r.value in chain && IsOtmPut(r.value, price)
    ensures r.Some? ==> forall c :: c in chain && IsOtmPut(c, price) ==> c.strike <= r.value.strike
    ensures r.Some? ==> exists i :: (0 <= i < |chain| && chain[i] == r.value
      && forall j :: 0 <= j < i && IsOtmPut(chain[j], price) ==> chain[j].strike < r.value.strike)
  {
    var otmPuts := OtmPuts(chain, price);
    if otmPuts == [] then None
    else
      var k := FirstMaxIndex(Strikes(otmPuts));
      HighestAmongOtmPuts(chain, price, k);
      FirstOtmPutWins(chain, price, k);
      assert otmPuts[k] in otmPuts;
      Some(otmPuts[k])
  }

  /** Strangle signal: buy the nearest out-of-the-money call and put; none
      outside trading hours or when either side has no candidate. */
  function StrangleSignal(cfg: StrategyConfig, price: real, chain: seq<OptionContract>, now: DateTime)
    : (r: Option<StrategySignal>)
    ensures r.None? <==>
      !IsWithinTradingHours(cfg, now) || LowestOtmCall(chain, price).None? || HighestOtmPut(chain, price).None?
    ensures r.Some? ==>
      && ValidateSignal(r.value)
      && r.value.strategyType == Strangle && r.value.confidence == 0.6 && r.value.timestamp == now
      && r.value.contracts == [LowestOtmCall(chain, price).value, HighestOtmPut(chain, price).value]
      && r.value.sides == [Buy, Buy] && r.value.quantities == [1, 1]
  {
    if !IsWithinTradingHours(cfg, now) then None
    else if OfType(chain, Call) == [] || OfType(chain, Put) == [] then None
    else
      match (LowestOtmCall(chain, price), HighestOtmPut(chain, price))
      case (Some(call), Some(put)) =>
        Some(StrategySignal(Strangle, [call, put], [Buy, Buy], [1, 1], 0.6, StrangleAt(call.strike, put.strike), now))
      case _ => None
  }

  // ---------------------------------------------------------------------
  // Orders from a signal
  // ---------------------------------------------------------------------

  function Min(a: int, b: int): int
  {
    if a <= b then a else b
  }

  /** The order placed for one leg: a new, unfilled day limit order at the
      contract's mid price. It is valid exactly when its quantity is
      positive and its contract has a positive mid price. */
  function LegOrder(c: OptionContract, side: OrderSide, quantity: int, now: DateTime): (r: Order)
    ensures ValidateOrder(r) <==> quantity > 0 && MidPrice(c).Some? && MidPrice(c).value > 0.0
    ensures r.limitPrice.Some? <==> HasQuotes(c) || c.lastPrice.Some?
  {
    Order(c, side, quantity, "limit", MidPrice(c), "day", None, "new", 0, None, now)
  }

  /** Orders for a signal: an invalid signal raises; otherwise one order
      per leg of the zipped lists (as many as the shortest list), each
      sized at most `maxPositionSize`. `now` is the orders' creation time. */
  method CreateOrders(cfg: StrategyConfig, signal: StrategySignal, now: DateTime)
    returns (r: Result<seq<Order>, StrategyError>)
    ensures r.Failure? <==> !ValidateSignal(signal)
    ensures r.Failure? ==> r.error == InvalidSignal
    ensures r.Success? ==>
      |r.value| == Min(Min(|signal.contracts|, |signal.sides|), |signal.quantities|)
    ensures r.Success? ==> forall k :: 0 <= k < |r.value| ==>
      r.value[k] == LegOrder(signal.contracts[k], signal.sides[k],
                             Min(signal.quantities[k], cfg.maxPositionSize), now)
    ensures r.Success? ==> forall o :: o in r.value ==>
      o.quantity <= cfg.maxPositionSize && o.limitPrice == MidPrice(o.contract)
  {
    if !ValidateSignal(signal) {
      return Failure(InvalidSignal);
    }
    var n := Min(Min(|signal.contracts|, |signal.sides|), |signal.quantities|);
    var orders: seq<Order> := [];
    for k := 0 to n
      invariant |orders| == k
      invariant forall j :: 0 <= j < k ==>
        orders[j] == LegOrder(signal.contracts[j], signal.sides[j],
                              Min(signal.quantities[j], cfg.maxPositionSize), now)
    {
      var order := LegOrder(signal.contracts[k], signal.sides[k],
                            Min(signal.quantities[k], cfg.maxPositionSize), now);
      orders := orders + [order];
    }
    r := Success(orders);
  }
}
