/**
 * The read-only query side of the Live Play Predictor: the payout quote
 * for a hypothetical bet, and the list projections over the active-market
 * list and the per-user and per-market bet indices.  Queries never write
 * the state.  Each list query is a loop that builds its result one element
 * at a time; it is proved equal to a recursive definition over the index
 * list, and what that definition returns on a state satisfying the
 * invariant is proved separately.
 */
module Service {
  import opened Types
  import opened Odds
  import opened State
  import opened Effects

  /** What the payout quote reports: odds (scaled by 1000), net payout and the fee rate used. */
  datatype PotentialPayout = PotentialPayout(odds: nat, potentialPayout: Amount, feeRate: nat)

  // ---------------------------------------------------------------------
  // calculate_payout

  /**
   * The quote for staking `amount` on `optionId` of market `marketId`:
   * nothing for an unknown market, a market that is not Open or an option
   * out of range; otherwise the odds place_bet would lock in and the
   * fee-reduced payout at those odds.  The lock time is not consulted.
   */
  function Quote(markets: map<MarketId, Market>, feeRateBps: nat, marketId: MarketId,
                 optionId: nat, amount: Amount): (r: Option<PotentialPayout>)
    requires feeRateBps <= BPS_SCALE
    ensures r.None? <==> (marketId !in markets || markets[marketId].status != Open
                          || optionId >= |markets[marketId].options|)
    ensures r.Some? ==> r.value.feeRate == feeRateBps && r.value.odds <= MAX_ODDS
    ensures r.Some? ==> r.value.potentialPayout <= GrossPayout(amount, r.value.odds) <= amount * 10
    ensures r.Some? && amount > 0 ==> ODDS_SCALE <= r.value.odds && amount - Fee(amount * 10, feeRateBps) <= r.value.potentialPayout
  {
    if marketId !in markets then None
    else
      var market := markets[marketId];
      if market.status != Open then None
      else if optionId >= |market.options| then None
      else
        var odds := QuotedOdds(market.options, optionId, amount);
        var payout := CalculatePayout(amount, odds, feeRateBps);
        QuoteBounds(amount, odds, feeRateBps);
        Some(PotentialPayout(odds, payout, feeRateBps))
  }

  /** At odds between 1x and 10x, the net payout lies between the stake less the largest fee and ten times the stake. */
  lemma QuoteBounds(amount: Amount, odds: nat, feeRateBps: nat)
    requires feeRateBps <= BPS_SCALE && odds <= MAX_ODDS
    ensures GrossPayout(amount, odds) <= amount * 10
    ensures amount > 0 && ODDS_SCALE <= odds ==> amount - Fee(amount * 10, feeRateBps) <= CalculatePayout(amount, odds, feeRateBps)
  {
    MulLeft(odds, MAX_ODDS, amount);
    DivMonotone(amount * odds, amount * MAX_ODDS, ODDS_SCALE);
    assert amount * MAX_ODDS / ODDS_SCALE == amount * 10;
    if amount > 0 && ODDS_SCALE <= odds {
      var gross := GrossPayout(amount, odds);
      MulLeft(ODDS_SCALE, odds, amount);
      DivMonotone(amount * ODDS_SCALE, amount * odds, ODDS_SCALE);
      assert amount * ODDS_SCALE / ODDS_SCALE == amount;
      MulLeft(gross, amount * 10, feeRateBps);
      assert gross * feeRateBps <= amount * 10 * feeRateBps;
      DivMonotone(gross * feeRateBps, amount * 10 * feeRateBps, BPS_SCALE);
    }
  }

  /**
   * The quote agrees with the bet place_bet would record from the same
   * state: the same odds, and, should that option win, exactly the quoted
   * payout when the bet is claimed.
   */
  lemma QuoteMatchesPlacedBet(s: Store, caller: Owner, marketId: MarketId, optionId: nat,
                              amount: Amount, now: Timestamp)
    requires BetAccepted(s, caller, marketId, optionId, amount, now)
    requires s.feeRateBps <= BPS_SCALE
    ensures var q := Quote(s.markets, s.feeRateBps, marketId, optionId, amount);
            var b := PlaceBetEffect(s, caller, marketId, optionId, amount, now).bets[s.nextBetId];
            && q.Some?
            && q.value.odds == b.odds
            && q.value.potentialPayout == ClaimPayout(b, optionId, s.feeRateBps)
  {
    var b := NewBet(s, caller, marketId, optionId, amount, now);
    assert PlaceBetEffect(s, caller, marketId, optionId, amount, now).bets[s.nextBetId] == b;
  }

  /**
   * An Open market past its lock time still gets a quote, although no
   * caller can place that bet.
   */
  lemma QuoteIgnoresLockTime(s: Store, marketId: MarketId, optionId: nat, amount: Amount, now: Timestamp)
    requires s.feeRateBps <= BPS_SCALE
    requires marketId in s.markets && s.markets[marketId].status == Open
    requires optionId < |s.markets[marketId].options|
    requires s.markets[marketId].locksAt <= now
    ensures Quote(s.markets, s.feeRateBps, marketId, optionId, amount).Some?
    ensures forall caller :: !BetAccepted(s, caller, marketId, optionId, amount, now)
  {
  }

  // ---------------------------------------------------------------------
  // List projections, defined over the index lists

  /**
   * The stored entries for the listed keys, in list order, skipping keys
   * with no entry: what active_markets, user_bets and market_bets build.
   */
  function Listed<K, V>(ids: seq<K>, entries: map<K, V>): (r: seq<V>)
    ensures |r| <= |ids|
  {
    if ids == [] then []
    else
      var last := ids[|ids| - 1];
      Listed(ids[..|ids| - 1], entries) + (if last in entries then [entries[last]] else [])
  }

  /** Of the stored markets for the listed ids, those of one match, in list order. */
  function MatchMarketsListed(ids: seq<MarketId>, markets: map<MarketId, Market>, matchId: string): (r: seq<Market>)
    ensures |r| <= |ids|
  {
    if ids == [] then []
    else
      var last := ids[|ids| - 1];
      MatchMarketsListed(ids[..|ids| - 1], markets, matchId)
        + (if last in markets && markets[last].matchId == matchId then [markets[last]] else [])
  }

  /** When every listed key has an entry, the list holds exactly their entries, position by position. */
  lemma {:induction false} ListedPointwise<K, V>(ids: seq<K>, entries: map<K, V>)
    requires forall j :: 0 <= j < |ids| ==> ids[j] in entries
    ensures |Listed(ids, entries)| == |ids|
    ensures forall j :: 0 <= j < |ids| ==> Listed(ids, entries)[j] == entries[ids[j]]
  {
    if ids != [] {
      ListedPointwise(ids[..|ids| - 1], entries);
    }
  }

  /** The match filter keeps exactly the listed markets of that match. */
  lemma {:induction false} MatchMarketsFilter(ids: seq<MarketId>, markets: map<MarketId, Market>, matchId: string)
    ensures forall m :: m in MatchMarketsListed(ids, markets, matchId) <==> m in Listed(ids, markets) && m.matchId == matchId
  {
    if ids != [] {
      MatchMarketsFilter(ids[..|ids| - 1], markets, matchId);
    }
  }

  // ---------------------------------------------------------------------
  // What the projections return on a consistent state

  /**
   * On a consistent state the active-market query returns every Open
   * market and nothing else, each once, one per active id in list order.
   */
  lemma ActiveMarketsAreOpen(active: seq<MarketId>, markets: map<MarketId, Market>, nextMarketId: nat)
    requires ActiveInv(active, markets) && MarketsInv(markets, nextMarketId)
    ensures var r := Listed(active, markets);
            && |r| == |active|
            && (forall j :: 0 <= j < |active| ==> r[j] == markets[active[j]])
            && (forall m :: m in r <==> m in markets.Values && m.status == Open)
            && (forall i, j :: 0 <= i < j < |r| ==> r[i].id != r[j].id)
  {
    var r := Listed(active, markets);
    ListedPointwise(active, markets);
    forall m | m in markets.Values && m.status == Open ensures m in r {
      var k :| k in markets && markets[k] == m;
      assert k in active;
      var j :| 0 <= j < |active| && active[j] == k;
      assert r[j] == m;
    }
    forall i, j | 0 <= i < j < |r| ensures r[i].id != r[j].id {
      assert r[i].id == active[i] && r[j].id == active[j];
    }
  }

  /** On a consistent state the match query returns exactly the Open markets of that match. */
  lemma MarketsByMatchAreOpen(active: seq<MarketId>, markets: map<MarketId, Market>, nextMarketId: nat, matchId: string)
    requires ActiveInv(active, markets) && MarketsInv(markets, nextMarketId)
    ensures forall m :: m in MatchMarketsListed(active, markets, matchId) <==>
              m in markets.Values && m.status == Open && m.matchId == matchId
  {
    ActiveMarketsAreOpen(active, markets, nextMarketId);
    MatchMarketsFilter(active, markets, matchId);
  }

  /**
   * On a consistent state the user-bets query returns every bet the owner
   * placed and nothing else, each once, one per listed id in index-list order.
   */
  lemma UserBetsAreOwnBets(s: Store, owner: Owner)
    requires UserIndexInv(s.userBets, s.bets)
    requires BetsInv(s.bets, s.nextBetId, s.markets)
    ensures var ids := IdsFor(s.userBets, owner);
            var r := Listed(ids, s.bets);
            && |r| == |ids|
            && (forall j :: 0 <= j < |ids| ==> r[j] == s.bets[ids[j]])
            && (forall b :: b in r <==> b in s.bets.Values && b.owner == owner)
            && (forall i, j :: 0 <= i < j < |r| ==> r[i].id != r[j].id)
  {
    var ids := IdsFor(s.userBets, owner);
    var r := Listed(ids, s.bets);
    ListedPointwise(ids, s.bets);
    forall b | b in s.bets.Values && b.owner == owner ensures b in r {
      var k :| k in s.bets && s.bets[k] == b;
      assert k in ids;
      var j :| 0 <= j < |ids| && ids[j] == k;
      assert r[j] == b;
    }
    forall i, j | 0 <= i < j < |r| ensures r[i].id != r[j].id {
      assert BetFits(s.bets[ids[i]], ids[i], s.markets);
      assert BetFits(s.bets[ids[j]], ids[j], s.markets);
    }
  }

  /**
   * On a consistent state the market-bets query returns every bet on the
   * market and nothing else, each once, one per listed id in index-list order.
   */
  lemma MarketBetsAreMarketsBets(s: Store, marketId: MarketId)
    requires MarketIndexInv(s.marketBets, s.bets, s.markets)
    requires BetsInv(s.bets, s.nextBetId, s.markets)
    ensures var ids := IdsFor(s.marketBets, marketId);
            var r := Listed(ids, s.bets);
            && |r| == |ids|
            && (forall j :: 0 <= j < |ids| ==> r[j] == s.bets[ids[j]])
            && (forall b :: b in r <==> b in s.bets.Values && b.marketId == marketId)
            && (forall i, j :: 0 <= i < j < |r| ==> r[i].id != r[j].id)
  {
    var ids := IdsFor(s.marketBets, marketId);
    var r := Listed(ids, s.bets);
    ListedPointwise(ids, s.bets);
    forall b | b in s.bets.Values && b.marketId == marketId ensures b in r {
      var k :| k in s.bets && s.bets[k] == b;
      assert k in ids;
      var j :| 0 <= j < |ids| && ids[j] == k;
      assert r[j] == b;
    }
    forall i, j | 0 <= i < j < |r| ensures r[i].id != r[j].id {
      assert BetFits(s.bets[ids[i]], ids[i], s.markets);
      assert BetFits(s.bets[ids[j]], ids[j], s.markets);
    }
  }

  // ---------------------------------------------------------------------
  // The query root

  /** The query object: a read-only view of the contract state. */
  class QueryRoot {
    const state: LivePredictState

    constructor (state: LivePredictState)
      ensures this.state == state
    {
      this.state := state;
    }

    ghost predicate Valid()
      reads this, state
    {
      state.Valid()
    }

    /** The market stored for each active id, in list order; ids without a market are skipped. */
    method ActiveMarkets() returns (markets: seq<Market>)
      ensures markets == Listed(state.activeMarkets, state.markets)
      ensures Valid() ==> forall m :: m in markets <==> m in state.markets.Values && m.status == Open
    {
      var ids := state.activeMarkets;
      markets := [];
      for i := 0 to |ids|
        invariant markets == Listed(ids[..i], state.markets)
      {
        assert ids[..i + 1][..i] == ids[..i];
        var market := state.GetMarket(ids[i]);
        if market.Some? {
          markets := markets + [market.value];
        }
      }
      assert ids[..|ids|] == ids;
      if Valid() {
        ActiveMarketsAreOpen(ids, state.markets, state.nextMarketId);
      }
    }

    /** The active markets of one match, in active-list order. */
    method MarketsByMatch(matchId: string) returns (markets: seq<Market>)
      ensures markets == MatchMarketsListed(state.activeMarkets, state.markets, matchId)
      ensures Valid() ==> forall m :: m in markets <==> m in state.markets.Values && m.status == Open && m.matchId == matchId
    {
      var ids := state.activeMarkets;
      markets := [];
      for i := 0 to |ids|
        invariant markets == MatchMarketsListed(ids[..i], state.markets, matchId)
      {
        assert ids[..i + 1][..i] == ids[..i];
        var market := state.GetMarket(ids[i]);
        if market.Some? && market.value.matchId == matchId {
          markets := markets + [market.value];
        }
      }
      assert ids[..|ids|] == ids;
      if Valid() {
        MarketsByMatchAreOpen(ids, state.markets, state.nextMarketId, matchId);
      }
    }

    /** The stored bets for the listed ids, in list order; ids without a bet are skipped. */
    method CollectBets(ids: seq<BetId>) returns (bets: seq<Bet>)
      ensures bets == Listed(ids, state.bets)
    {
      bets := [];
      for i := 0 to |ids|
        invariant bets == Listed(ids[..i], state.bets)
      {
        assert ids[..i + 1][..i] == ids[..i];
        var bet := state.GetBet(ids[i]);
        if bet.Some? {
          bets := bets + [bet.value];
        }
      }
      assert ids[..|ids|] == ids;
    }

    /** The owner's bets in index-list order; empty for an owner with no index entry. */
    method UserBets(owner: Owner) returns (bets: seq<Bet>)
      ensures bets == Listed(IdsFor(state.userBets, owner), state.bets)
      ensures owner !in state.userBets ==> bets == []
      ensures Valid() ==> forall b :: b in bets <==> b in state.bets.Values && b.owner == owner
    {
      if owner in state.userBets {
        bets := CollectBets(state.userBets[owner]);
      } else {
        bets := [];
      }
      if Valid() {
        UserBetsAreOwnBets(state.Snapshot(), owner);
      }
    }

    /** The market's bets in index-list order; empty for a market with no index entry. */
    method MarketBets(marketId: MarketId) returns (bets: seq<Bet>)
      ensures bets == Listed(IdsFor(state.marketBets, marketId), state.bets)
      ensures marketId !in state.marketBets ==> bets == []
      ensures Valid() ==> forall b :: b in bets <==> b in state.bets.Values && b.marketId == marketId
    {
      if marketId in state.marketBets {
        bets := CollectBets(state.marketBets[marketId]);
      } else {
        bets := [];
      }
      if Valid() {
        MarketBetsAreMarketsBets(state.Snapshot(), marketId);
      }
    }
  }
}
