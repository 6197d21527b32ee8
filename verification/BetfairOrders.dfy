/** From an order to a Betfair request (`engine/place.go`): which orders are sent at all, and what
    price limit and size they carry. Credentials, the network call and its reply are left out; the
    request the program would hand to the exchange client is the result.
 */
module BetfairOrders {
  import opened Racing
  import opened Wrappers
  import opened TickLadder

  const MAX_CUSTOMER_REF := 32

  datatype PriceSize = PriceSize(price: real, size: real)

  /** `selectionId` is `None` when the text does not parse. */
  datatype Runner = Runner(marketId: string, selectionId: Option<int>, back: seq<PriceSize>, lay: seq<PriceSize>, ltp: real)

  datatype BetfairStake = BetfairStake(backStake: real, layStake: real, minOdds: real, maxOdds: real)

  datatype Order = Order(
    hasBetfair: bool, race: Option<map<int, Runner>>,
    side: Side, runner: int, unit: real, stake: BetfairStake, betLabel: string)

  datatype Request = Request(
    marketId: string, selectionId: int, customerRef: string, lay: bool, limitPrice: real, liability: real)

  /** Rounding half away from zero. */
  function Round(x: real): int {
    if x >= 0.0 then (x + 0.5).Floor else -(-x + 0.5).Floor
  }

  lemma RoundIsNearest(x: real)
    ensures -0.5 <= Round(x) as real - x <= 0.5
  {}

  // ----- what the order asks for

  function Book(o: Order, r: Runner): seq<PriceSize> {
    if o.side == BetfairLay then r.lay else r.back
  }

  /** Everything about the order, except the limit, is in place. */
  predicate Quoted(o: Order) {
    && o.hasBetfair && o.race.Some? && o.runner in o.race.value
    && var r := o.race.value[o.runner];
    && r.selectionId.Some?
    && Book(o, r) != []
    && var price := Book(o, r)[0].price;
    && price >= 1.01
    && o.stake.minOdds <= price && (o.stake.maxOdds > 0.0 ==> price <= o.stake.maxOdds)
    && o.stake.minOdds <= r.ltp
  }

  function Price(o: Order): real
    requires Quoted(o)
  {
    Book(o, o.race.value[o.runner])[0].price
  }

  /** What a back order is to win. */
  function Target(o: Order): real {
    o.stake.backStake * o.unit
  }

  /** What a lay order is to risk. */
  function LayTarget(o: Order): real {
    o.stake.layStake * o.unit
  }

  ghost predicate BackLimit(o: Order, t: int)
    requires Quoted(o)
  {
    BetfairTick(t) && o.stake.minOdds <= Odds(t) && t as real <= Price(o) * 0.9 * 100.0 + LIFT
  }

  ghost predicate LayLimit(o: Order, t: int)
    requires Quoted(o)
  {
    && BetfairTick(t) && Price(o) <= Odds(t)
    && (o.stake.maxOdds > 0.0 ==> t as real <= o.stake.maxOdds * 100.0 + LIFT)
  }

  /** The orders that go out: quoted ones for which some tick would do as a limit. */
  ghost predicate Sendable(o: Order) {
    Quoted(o) && exists t :: if o.side == BetfairLay then LayLimit(o, t) else BackLimit(o, t)
  }

  predicate WholeCents(x: real) {
    x * 100.0 == (x * 100.0).Floor as real
  }

  /** To the nearest cent, half away from zero, and at least a dollar. */
  function Staked(x: real): real {
    var cents := Round(x * 100.0);
    if cents < 100 then 1.0 else cents as real / 100.0
  }

  /** The back limit is the highest tick at or under 90% of the price. */
  ghost predicate BackEnvelope(o: Order, limit: real, size: real)
    requires Quoted(o)
  {
    && (exists t :: BackLimit(o, t) && limit == Odds(t))
    && (forall t :: BackLimit(o, t) ==> Odds(t) <= limit)
    && size == Staked(Target(o) / (Price(o) - 1.0))
    && size >= 1.0 && WholeCents(size)
    && (size == 1.0 || -0.005 <= size - Target(o) / (Price(o) - 1.0) <= 0.005)
    && Target(o) / (Price(o) - 1.0) <= size + 0.005
  }

  /** The lowest tick at or over 110% of the price; the top tick when there is none. */
  ghost predicate LayAsk(o: Order, t: int)
    requires Quoted(o)
  {
    && BetfairTick(t)
    && (Price(o) * 1.1 * 100.0 - LIFT <= t as real || t == 100000)
    && forall u :: BetfairTick(u) && Price(o) * 1.1 * 100.0 - LIFT <= u as real ==> t <= u
  }

  /** That tick, unless it is over the odds ceiling: then the highest one permitted. */
  ghost predicate LayChoice(o: Order, limit: real)
    requires Quoted(o)
  {
    exists t :: LayAsk(o, t) &&
      if o.stake.maxOdds > 0.0 && Odds(t) > o.stake.maxOdds
      then forall u :: LayLimit(o, u) ==> Odds(u) <= limit
      else limit == Odds(t)
  }

  ghost predicate LayEnvelope(o: Order, limit: real, liability: real)
    requires Quoted(o)
  {
    && (exists t :: LayLimit(o, t) && limit == Odds(t))
    && LayChoice(o, limit)
    && liability == Round(LayTarget(o)) as real
  }

  // ----- the program

  /** The checks before pricing: who to bet on and at what price on screen. */
  method Quote(o: Order) returns (quoted: bool)
    ensures quoted <==> Quoted(o)
  {
    if !o.hasBetfair {
      return false;
    }
    if o.race.None? {
      return false;
    }
    if o.runner !in o.race.value {
      return false;
    }
    var runner := o.race.value[o.runner];
    if runner.selectionId.None? {
      return false;
    }
    var book := runner.back;
    if o.side == BetfairLay {
      book := runner.lay;
    }
    if |book| == 0 || book[0].price < 1.01 {
      return false;
    }
    var price := book[0].price;
    if price < o.stake.minOdds || (o.stake.maxOdds > 0.0 && price > o.stake.maxOdds) {
      return false;
    }
    return runner.ltp >= o.stake.minOdds;
  }

  method LayPrice(o: Order) returns (limit: real, ok: bool)
    requires Quoted(o)
    ensures ok <==> exists t :: LayLimit(o, t)
    ensures ok ==> exists t :: LayLimit(o, t) && limit == Odds(t)
    ensures ok ==> LayChoice(o, limit)
  {
    var price := Price(o);
    limit := CeilToBetfairTick(price * 1.1);
    ghost var ask := AskedTick(o, limit);
    if o.stake.maxOdds > 0.0 && limit > o.stake.maxOdds {
      limit := FloorToBetfairTick(o.stake.maxOdds);
    }
    ok := limit != 0.0 && limit >= price;
    forall t | LayLimit(o, t) ensures ok {
      TicksAreBounded(t);
      assert OnLadder(limit);
    }
    if ok {
      ghost var g :| BetfairTick(g) && limit == Odds(g);
      TicksAreBounded(g);
      assert LayLimit(o, g);
    }
  }

  /** Rounding 110% of the price up gives the asking tick. */
  lemma AskedTick(o: Order, limit: real) returns (t: int)
    requires Quoted(o) && OnLadder(limit)
    requires Price(o) * 1.1 * 100.0 - LIFT <= 100000.0 ==>
               forall u :: BetfairTick(u) ==> (Price(o) * 1.1 * 100.0 - LIFT <= u as real <==> limit <= Odds(u))
    requires Price(o) * 1.1 * 100.0 - LIFT > 100000.0 ==> limit == 1000.0
    ensures LayAsk(o, t) && limit == Odds(t)
  {
    t :| BetfairTick(t) && limit == Odds(t);
    TicksAreBounded(t);
    forall u | BetfairTick(u) && Price(o) * 1.1 * 100.0 - LIFT <= u as real ensures t <= u {
      TicksAreBounded(u);
    }
  }

  method BackPrice(o: Order) returns (limit: real, ok: bool)
    requires Quoted(o)
    ensures ok <==> exists t :: BackLimit(o, t)
    ensures ok ==> exists t :: BackLimit(o, t) && limit == Odds(t)
    ensures ok ==> forall t :: BackLimit(o, t) ==> Odds(t) <= limit
  {
    limit := FloorToBetfairTick(Price(o) * 0.9);
    ok := limit != 0.0 && limit >= o.stake.minOdds;
    forall t | BackLimit(o, t) ensures ok {
      TicksAreBounded(t);
      assert Odds(t) <= limit;
    }
    if ok {
      ghost var g :| BetfairTick(g) && limit == Odds(g);
      assert BackLimit(o, g);
    }
  }

  /** Stake for a back bet: what wins the target, to the cent, never under a dollar. */
  method BackSize(target: real, price: real) returns (size: real)
    requires price >= 1.01
    ensures size == Staked(target / (price - 1.0))
    ensures size >= 1.0 && WholeCents(size)
    ensures size == 1.0 || -0.005 <= size - target / (price - 1.0) <= 0.005
    ensures target / (price - 1.0) <= size + 0.005
  {
    var q := target / (price - 1.0);
    RoundIsNearest(q * 100.0);
    size := Round(q * 100.0) as real / 100.0;
    if size < 1.0 {
      size := 1.0;
    }
  }

  method PlaceBetfair(o: Order) returns (sent: Option<Request>)
    ensures sent.Some? <==> Sendable(o)
    ensures sent.Some? ==> SameBet(o, sent.value)
    ensures sent.Some? && o.side == BetfairLay ==> LayEnvelope(o, sent.value.limitPrice, sent.value.liability)
    ensures sent.Some? && o.side != BetfairLay ==> BackEnvelope(o, sent.value.limitPrice, sent.value.liability)
  {
    var quoted := Quote(o);
    if !quoted {
      return None;
    }
    var runner := o.race.value[o.runner];
    var ref := o.betLabel;
    if |ref| > MAX_CUSTOMER_REF {
      ref := ref[..MAX_CUSTOMER_REF];
    }
    if o.side == BetfairLay {
      var limit, ok := LayPrice(o);
      if !ok {
        return None;
      }
      var liability := Round(LayTarget(o)) as real;
      return Some(Request(runner.marketId, runner.selectionId.value, ref, true, limit, liability));
    } else {
      var limit, ok := BackPrice(o);
      if !ok {
        return None;
      }
      var size := BackSize(Target(o), Price(o));
      return Some(Request(runner.marketId, runner.selectionId.value, ref, false, limit, size));
    }
  }

  /** The request is for the runner and side ordered, under the order's label cut to length. */
  predicate SameBet(o: Order, req: Request)
    requires Quoted(o)
  {
    var r := o.race.value[o.runner];
    && req.lay == (o.side == BetfairLay)
    && req.marketId == r.marketId && r.selectionId == Some(req.selectionId)
    && req.customerRef <= o.betLabel
    && |req.customerRef| == (if |o.betLabel| < MAX_CUSTOMER_REF then |o.betLabel| else MAX_CUSTOMER_REF)
  }

  /** Dispatch by side: nothing is sent for a side with no stake. */
  method Place(o: Order) returns (sent: Option<Request>)
    ensures sent.Some? <==>
      && Sendable(o)
      && ((o.side == BetfairBack && o.stake.backStake > 0.0) || (o.side == BetfairLay && o.stake.layStake > 0.0))
    ensures sent.Some? ==> SameBet(o, sent.value)
    ensures sent.Some? && o.side == BetfairLay ==> LayEnvelope(o, sent.value.limitPrice, sent.value.liability)
    ensures sent.Some? && o.side == BetfairBack ==> BackEnvelope(o, sent.value.limitPrice, sent.value.liability)
  {
    sent := None;
    match o.side
    case BetmaticWin =>
    case BetfairBack =>
      if o.stake.backStake > 0.0 {
        sent := PlaceBetfair(o);
      }
    case BetfairLay =>
      if o.stake.layStake > 0.0 {
        sent := PlaceBetfair(o);
      }
  }

  // ----- what the envelopes promise in money

  /** What a stake returns at odds `d` to one. */
  function Winnings(stake: real, d: real): real {
    stake * d
  }

  lemma WinningsMonotone(x: real, y: real, d: real)
    requires x <= y && d > 0.0
    ensures Winnings(x, d) <= Winnings(y, d)
  {
    assert Winnings(y, d) - Winnings(x, d) == (y - x) * d;
  }

  lemma WinningsAdd(x: real, y: real, d: real)
    ensures Winnings(x + y, d) == Winnings(x, d) + Winnings(y, d)
  {}

  lemma WinningsOfQuotient(target: real, d: real)
    requires d > 0.0
    ensures Winnings(target / d, d) == target
  {}

  lemma SizeMeetsTarget(size: real, target: real, d: real)
    requires d > 0.0 && target / d <= size + 0.005
    ensures target <= Winnings(size, d) + Winnings(0.005, d)
    ensures size <= target / d + 0.005 ==> Winnings(size, d) <= target + Winnings(0.005, d)
  {
    var q := target / d;
    WinningsOfQuotient(target, d);
    WinningsMonotone(q, size + 0.005, d);
    WinningsAdd(size, 0.005, d);
    if size <= q + 0.005 {
      WinningsMonotone(size, q + 0.005, d);
      WinningsAdd(q, 0.005, d);
    }
  }

  /** The target is met by the stake, give or take half a cent of it, or passed with the least there is. */
  predicate Meets(stake: real, target: real, d: real) {
    && stake >= 1.0
    && target <= Winnings(stake, d) + Winnings(0.005, d)
    && (Winnings(stake, d) <= target + Winnings(0.005, d) || stake == 1.0)
  }

  lemma SameTarget(stake: real, target: real, d: real, target': real, d': real)
    requires Meets(stake, target, d) && target == target' && d == d'
    ensures Meets(stake, target', d')
  {}

  lemma Asked(o: Order)
    requires Quoted(o) && o.side != BetfairLay
    ensures Target(o) == o.stake.backStake * o.unit && Price(o) == o.race.value[o.runner].back[0].price
  {}

  /** A back order wins its target to within half a cent of stake, unless the $1 minimum binds, and
      in that case it never stakes less than the target asks for. */
  lemma BackMeetsTarget(o: Order, limit: real, size: real)
    requires Quoted(o) && o.side != BetfairLay && BackEnvelope(o, limit, size)
    ensures OnLadder(limit) && o.stake.minOdds <= limit <= Price(o) * 0.9 + LIFT / 100.0
    ensures Meets(size, Target(o), Price(o) - 1.0)
  {
    SizeMeetsTarget(size, Target(o), Price(o) - 1.0);
  }

  /** The target being the stake times the unit, and the price the first one backed. */
  lemma BackSizeSent(o: Order, limit: real, size: real)
    requires Quoted(o) && o.side != BetfairLay && BackEnvelope(o, limit, size)
    ensures Meets(size, o.stake.backStake * o.unit, o.race.value[o.runner].back[0].price - 1.0)
  {
    BackMeetsTarget(o, limit, size);
    Asked(o);
    SameTarget(size, Target(o), Price(o) - 1.0, o.stake.backStake * o.unit, o.race.value[o.runner].back[0].price - 1.0);
  }

  // ----- what the exchange client accepts

  /** The client's own checks (`betting/betfair/bsp.go`); the side is one of its two by construction. */
  predicate Accepted(req: Request) {
    req.marketId != "" && req.selectionId > 0 && req.liability > 0.0 && (req.limitPrice == 0.0 || req.limitPrice >= 1.01)
  }

  /** The order names a market and a selection the client can take. */
  predicate Named(o: Order)
    requires Quoted(o)
  {
    var r := o.race.value[o.runner];
    r.marketId != "" && r.selectionId.value > 0
  }

  lemma LayEnvelopeRounds(o: Order, limit: real, liability: real)
    requires Quoted(o) && LayEnvelope(o, limit, liability)
    ensures liability > 0.0 <==> LayTarget(o) >= 0.5
    ensures liability == 0.0 <==> -0.5 < LayTarget(o) < 0.5
    ensures -0.5 <= liability - LayTarget(o) <= 0.5
    ensures limit >= 1.01
  {
    var t :| LayLimit(o, t) && limit == Odds(t);
    TicksAreBounded(t);
  }

  lemma BackEnvelopeIsPositive(o: Order, limit: real, size: real)
    requires Quoted(o) && BackEnvelope(o, limit, size)
    ensures size >= 1.0 && limit >= 1.01
  {
    var t :| BackLimit(o, t) && limit == Odds(t);
    TicksAreBounded(t);
  }

  /** Of the orders sent, exactly these are accepted: those on a named runner, and a lay only when what
      it is to risk rounds to a dollar or more. */
  lemma AcceptedExactlyWhen(o: Order, req: Request)
    requires Quoted(o) && SameBet(o, req)
    requires if o.side == BetfairLay then LayEnvelope(o, req.limitPrice, req.liability)
             else BackEnvelope(o, req.limitPrice, req.liability)
    ensures Accepted(req) <==> Named(o) && (o.side == BetfairLay ==> LayTarget(o) >= 0.5)
  {
    if o.side == BetfairLay {
      LayEnvelopeRounds(o, req.limitPrice, req.liability);
    } else {
      BackEnvelopeIsPositive(o, req.limitPrice, req.liability);
    }
  }

  /** Forty cents on a lay at 2.00: sent, and refused for its liability of 0. */
  method RefusedLay() returns (o: Order, sent: Option<Request>)
    ensures Quoted(o) && Named(o) && o.side == BetfairLay && o.stake.layStake > 0.0 && o.unit > 0.0
    ensures sent.Some? && sent.value.liability == 0.0 && !Accepted(sent.value)
  {
    var runner := Runner("1.1", Some(7), [], [PriceSize(2.0, 10.0)], 2.0);
    o := Order(true, Some(map[3 := runner]), BetfairLay, 3, 1.0, BetfairStake(0.0, 0.4, 1.01, 0.0), "");
    assert Quoted(o) && Price(o) == 2.0;
    BetfairIsWellFormed();
    assert InBand(BETFAIR, 0, 200);
    assert BetfairTick(200);
    assert LayLimit(o, 200);
    sent := Place(o);
    assert LayTarget(o) == 0.4;
    LayEnvelopeRounds(o, sent.value.limitPrice, sent.value.liability);
  }

  /** A lay order never offers less than the price on screen nor more than the odds ceiling. */
  lemma LayStaysUnderCeiling(o: Order, limit: real, liability: real)
    requires Quoted(o) && o.side == BetfairLay && LayEnvelope(o, limit, liability)
    ensures OnLadder(limit) && Price(o) <= limit
    ensures o.stake.maxOdds > 0.0 ==> limit <= o.stake.maxOdds + LIFT / 100.0
  {}

  // ----- an order sent, on the books themselves

  /** The tick is a limit for this price on screen: at or under 90% of it and not under the odds floor. */
  ghost predicate Under90(t: int, price: real, floor: real) {
    BetfairTick(t) && floor <= Odds(t) && Odds(t) <= price * 0.9 + LIFT / 100.0
  }

  /** The tick is a limit for this price on screen: at or over it and not over the odds ceiling, if any. */
  ghost predicate UnderCeiling(t: int, price: real, ceiling: real) {
    BetfairTick(t) && price <= Odds(t) && (ceiling > 0.0 ==> Odds(t) <= ceiling + LIFT / 100.0)
  }

  /** The price on screen is one to bet at, and so was the last one traded. */
  predicate WithinOdds(price: real, ltp: real, stake: BetfairStake) {
    && price >= 1.01 && ltp >= stake.minOdds
    && stake.minOdds <= price && (stake.maxOdds > 0.0 ==> price <= stake.maxOdds)
  }

  /** Which orders go out: a back at the first price backed, a lay at the first price laid, within the odds
      both there and on the last trade, when the ladder has a limit for it. */
  lemma SentExactlyWhen(o: Order)
    ensures Sendable(o) <==>
              && o.hasBetfair && o.race.Some? && o.runner in o.race.value
              && o.race.value[o.runner].selectionId.Some?
              && var r := o.race.value[o.runner];
              if o.side == BetfairLay then
                && r.lay != [] && WithinOdds(r.lay[0].price, r.ltp, o.stake)
                && exists t :: UnderCeiling(t, r.lay[0].price, o.stake.maxOdds)
              else
                && r.back != [] && WithinOdds(r.back[0].price, r.ltp, o.stake)
                && exists t :: Under90(t, r.back[0].price, o.stake.minOdds)
  {
    if Quoted(o) {
      if o.side == BetfairLay {
        forall t ensures LayLimit(o, t) <==> UnderCeiling(t, o.race.value[o.runner].lay[0].price, o.stake.maxOdds) {}
      } else {
        forall t ensures BackLimit(o, t) <==> Under90(t, o.race.value[o.runner].back[0].price, o.stake.minOdds) {}
      }
    }
  }

  lemma BackLimitIs(o: Order, t: int)
    requires Quoted(o) && o.side != BetfairLay
    ensures BackLimit(o, t) <==> Under90(t, o.race.value[o.runner].back[0].price, o.stake.minOdds)
  {}

  lemma LayLimitIs(o: Order, t: int)
    requires Quoted(o) && o.side == BetfairLay
    ensures LayLimit(o, t) <==> UnderCeiling(t, o.race.value[o.runner].lay[0].price, o.stake.maxOdds)
  {}

  /** A back sent: its limit is a tick at or under 90% of the first price backed, and no tick between the
      two is passed over. */
  lemma BackSent(o: Order, limit: real, size: real)
    requires Quoted(o) && o.side != BetfairLay && BackEnvelope(o, limit, size)
    ensures var r := o.race.value[o.runner];
            && r.back != [] && WithinOdds(r.back[0].price, r.ltp, o.stake)
            && OnLadder(limit) && o.stake.minOdds <= limit <= r.back[0].price * 0.9 + LIFT / 100.0
            && forall t :: BetfairTick(t) && limit < Odds(t) ==> r.back[0].price * 0.9 + LIFT / 100.0 < Odds(t)
  {
    var g :| BackLimit(o, g) && limit == Odds(g);
    BackLimitIs(o, g);
    forall t | BetfairTick(t) && limit < Odds(t)
      ensures o.race.value[o.runner].back[0].price * 0.9 + LIFT / 100.0 < Odds(t)
    {
      BackLimitIs(o, t);
    }
  }

  /** Halves round away from zero. */
  lemma HalvesRoundAway(n: nat)
    ensures Round(n as real + 0.5) == n + 1 && Round(-(n as real) - 0.5) == -(n + 1)
  {
    assert n as real + 0.5 + 0.5 == (n + 1) as real;
    assert -(-(n as real) - 0.5) + 0.5 == (n + 1) as real;
  }

  /** The tick is at or over 110% of the price on screen. */
  predicate Over110(t: int, price: real) {
    Odds(t) >= price * 1.1 - LIFT / 100.0
  }

  lemma LayAskIs(o: Order, ask: int, t: int)
    requires Quoted(o) && o.side == BetfairLay && LayAsk(o, ask)
    ensures BetfairTick(ask) && (Over110(ask, o.race.value[o.runner].lay[0].price) || Odds(ask) == 1000.0)
    ensures BetfairTick(t) && Over110(t, o.race.value[o.runner].lay[0].price) ==> Odds(ask) <= Odds(t)
  {}

  /** The limit is the lowest tick at or over 110% of the price, or the top tick when there is none. */
  ghost predicate LowestOver110(limit: real, price: real) {
    && (limit >= price * 1.1 - LIFT / 100.0 || limit == 1000.0)
    && forall t :: BetfairTick(t) && Over110(t, price) ==> limit <= Odds(t)
  }

  /** The limit is the highest tick permitted, the ceiling being under every tick for 110% of the price. */
  ghost predicate AtCeiling(limit: real, price: real, ceiling: real) {
    && ceiling > 0.0
    && (forall t :: BetfairTick(t) && Over110(t, price) ==> Odds(t) > ceiling)
    && forall t :: UnderCeiling(t, price, ceiling) ==> Odds(t) <= limit
  }

  lemma AskIsLowest(o: Order, ask: int)
    requires Quoted(o) && o.side == BetfairLay && LayAsk(o, ask)
    ensures LowestOver110(Odds(ask), o.race.value[o.runner].lay[0].price)
  {
    LayAskIs(o, ask, ask);
    forall t | BetfairTick(t) && Over110(t, o.race.value[o.runner].lay[0].price) ensures Odds(ask) <= Odds(t) {
      LayAskIs(o, ask, t);
    }
  }

  lemma OverTheCeiling(o: Order, ask: int, limit: real)
    requires Quoted(o) && o.side == BetfairLay && LowestOver110(Odds(ask), o.race.value[o.runner].lay[0].price)
    requires 0.0 < o.stake.maxOdds < Odds(ask) && forall u :: LayLimit(o, u) ==> Odds(u) <= limit
    ensures AtCeiling(limit, o.race.value[o.runner].lay[0].price, o.stake.maxOdds)
  {
    forall t | UnderCeiling(t, o.race.value[o.runner].lay[0].price, o.stake.maxOdds) ensures Odds(t) <= limit {
      LayLimitIs(o, t);
    }
  }

  /** A lay sent: its limit is a tick between the first price laid and the odds ceiling, and of those the
      lowest for 110% of that price; failing that, the highest. */
  lemma LaySent(o: Order, limit: real, liability: real)
    requires Quoted(o) && o.side == BetfairLay && LayEnvelope(o, limit, liability)
    ensures var r := o.race.value[o.runner];
            && r.lay != [] && WithinOdds(r.lay[0].price, r.ltp, o.stake)
            && (exists t :: UnderCeiling(t, r.lay[0].price, o.stake.maxOdds) && limit == Odds(t))
            && (LowestOver110(limit, r.lay[0].price) || AtCeiling(limit, r.lay[0].price, o.stake.maxOdds))
  {
    var g :| LayLimit(o, g) && limit == Odds(g);
    LayLimitIs(o, g);
    var ask :| LayAsk(o, ask) &&
      if o.stake.maxOdds > 0.0 && Odds(ask) > o.stake.maxOdds
      then forall u :: LayLimit(o, u) ==> Odds(u) <= limit
      else limit == Odds(ask);
    AskIsLowest(o, ask);
    if 0.0 < o.stake.maxOdds < Odds(ask) {
      OverTheCeiling(o, ask, limit);
    }
  }

  /** It risks its stake times the unit, to the nearest dollar. */
  lemma LaySizeSent(o: Order, limit: real, liability: real)
    requires Quoted(o) && o.side == BetfairLay && LayEnvelope(o, limit, liability)
    ensures liability == liability.Floor as real && -0.5 <= liability - o.stake.layStake * o.unit <= 0.5
  {
    RoundIsNearest(LayTarget(o));
  }

  /** The order's label is sent whole up to 32 characters, and cut to its first 32 beyond. */
  lemma LabelIsCut(o: Order, req: Request)
    requires Quoted(o) && SameBet(o, req)
    ensures req.customerRef == if |o.betLabel| <= 32 then o.betLabel else o.betLabel[..32]
  {}
}
