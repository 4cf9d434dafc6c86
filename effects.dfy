/**
 * What each operation handler does to the store when it succeeds, as a
 * function of the store before it, and the lemmas that these effects keep
 * the state invariant and what they promise about balances, pools, volume
 * and settlement.  The handlers in contract.dfy are proved to produce
 * exactly these effects.
 */
module Effects {
  import opened Types
  import opened Odds
  import opened State

  // ---------------------------------------------------------------------
  // Relations between stores before and after an operation

  /** Two records of the same wager: everything fixed at placement agrees. */
  ghost predicate SameWager(a: Bet, b: Bet)
  {
    && a.id == b.id && a.owner == b.owner && a.marketId == b.marketId
    && a.optionId == b.optionId && a.amount == b.amount && a.odds == b.odds
    && a.placedAt == b.placedAt
  }

  /**
   * No bet is ever deleted or re-priced (odds stay locked in), and a
   * settled bet never changes again (settlement happens at most once).
   */
  ghost predicate BetHistoryKept(before: map<BetId, Bet>, after: map<BetId, Bet>)
  {
    forall k :: k in before ==>
      && k in after
      && SameWager(before[k], after[k])
      && (before[k].settled ==> after[k] == before[k])
  }

  /**
   * `bets'` is `bets` with some bets settled: the same ids and wagers, and
   * every payout present exactly when its bet is settled.
   */
  ghost predicate SettledFrom(bets: map<BetId, Bet>, bets': map<BetId, Bet>)
  {
    && bets'.Keys == bets.Keys
    && forall k :: k in bets ==> SameWager(bets[k], bets'[k]) && PayoutMatchesSettled(bets'[k])
  }

  /** Every market of `markets` is still there with as many options. */
  ghost predicate KeepsOptionCounts(markets: map<MarketId, Market>, markets': map<MarketId, Market>)
  {
    forall k :: k in markets ==> k in markets' && |markets'[k].options| == |markets[k].options|
  }

  // ---------------------------------------------------------------------
  // Frame lemmas for the parts of the invariant

  lemma MarketsInvUpdate(markets: map<MarketId, Market>, n: nat, k: MarketId, m: Market)
    requires MarketsInv(markets, n)
    requires k in markets && m.id == k && WellFormedMarket(m)
    ensures MarketsInv(markets[k := m], n)
  {
  }

  lemma BetsInvFrame(bets: map<BetId, Bet>, n: nat, markets: map<MarketId, Market>, markets': map<MarketId, Market>)
    requires BetsInv(bets, n, markets) && KeepsOptionCounts(markets, markets')
    ensures BetsInv(bets, n, markets')
  {
    forall k | k in bets ensures BetFits(bets[k], k, markets') {
      assert BetFits(bets[k], k, markets);
    }
  }

  lemma MarketIndexFrame(marketBets: map<MarketId, seq<BetId>>, bets: map<BetId, Bet>,
                         markets: map<MarketId, Market>, markets': map<MarketId, Market>)
    requires MarketIndexInv(marketBets, bets, markets) && KeepsOptionCounts(markets, markets')
    ensures MarketIndexInv(marketBets, bets, markets')
  {
  }

  lemma PoolsOptionsFrame(markets: map<MarketId, Market>, markets': map<MarketId, Market>,
                          marketBets: map<MarketId, seq<BetId>>, bets: map<BetId, Bet>)
    requires PoolsInv(markets, marketBets, bets)
    requires markets'.Keys == markets.Keys
    requires forall k :: k in markets ==> markets'[k].options == markets[k].options
    ensures PoolsInv(markets', marketBets, bets)
  {
  }

  lemma ActiveStatusFrame(active: seq<MarketId>, markets: map<MarketId, Market>, markets': map<MarketId, Market>)
    requires ActiveInv(active, markets)
    requires markets'.Keys == markets.Keys
    requires forall k :: k in markets ==> markets'[k].status == markets[k].status
    ensures ActiveInv(active, markets')
  {
  }

  /** The invariant says nothing about balances or collected fees. */
  lemma LedgerKeepsInv(s: Store, balances: map<Owner, Amount>, protocolFees: Amount)
    requires Inv(s)
    ensures Inv(s.(balances := balances, protocolFees := protocolFees))
  {
  }

  // ---------------------------------------------------------------------
  // create_market

  /** The market create_market stores: Open, no winner, one empty option per label. */
  function NewMarket(id: MarketId, matchId: string, marketType: string, title: string,
                     labels: seq<string>, locksAt: Timestamp, now: Timestamp): (m: Market)
    ensures m.id == id && m.status == Open && m.winningOption == None
    ensures |m.options| == |labels| && OptionIdsArePositions(m.options)
    ensures forall i :: 0 <= i < |labels| ==> m.options[i].optionLabel == labels[i] && m.options[i].pool == 0
  {
    Market(id, matchId, marketType, title, OptionsFromLabels(labels), Open, now, locksAt, None)
  }

  /** create_market's effect: one new Open market under the next id, listed as active; no bet or balance changes. */
  function CreateMarketEffect(s: Store, matchId: string, marketType: string, title: string,
                              labels: seq<string>, locksAt: Timestamp, now: Timestamp): (r: Store)
    ensures r.markets.Keys == s.markets.Keys + {s.nextMarketId} && r.nextMarketId == s.nextMarketId + 1
    ensures r.markets[s.nextMarketId].status == Open && r.markets[s.nextMarketId].id == s.nextMarketId
    ensures s.nextMarketId in r.activeMarkets
    ensures r.bets == s.bets && r.balances == s.balances && r.totalVolume == s.totalVolume
  {
    var id := s.nextMarketId;
    s.(nextMarketId := id + 1,
       markets := s.markets[id := NewMarket(id, matchId, marketType, title, labels, locksAt, now)],
       activeMarkets := s.activeMarkets + [id])
  }

  lemma CreateKeepsMarkets(markets: map<MarketId, Market>, id: MarketId, m: Market)
    requires MarketsInv(markets, id) && 1 <= id
    requires m.id == id && WellFormedMarket(m)
    ensures id !in markets
    ensures MarketsInv(markets[id := m], id + 1)
  {
  }

  lemma CreateKeepsPools(markets: map<MarketId, Market>, marketBets: map<MarketId, seq<BetId>>,
                         bets: map<BetId, Bet>, id: MarketId, m: Market)
    requires PoolsInv(markets, marketBets, bets)
    requires id !in marketBets
    requires forall i :: 0 <= i < |m.options| ==> m.options[i].pool == 0
    ensures PoolsInv(markets[id := m], marketBets, bets)
  {
    assert IdsFor(marketBets, id) == [];
  }

  lemma CreateKeepsActive(active: seq<MarketId>, markets: map<MarketId, Market>, id: MarketId, m: Market)
    requires ActiveInv(active, markets)
    requires id !in markets && m.status == Open
    ensures id !in active
    ensures ActiveInv(active + [id], markets[id := m])
  {
  }

  lemma CreateMarketKeepsInv(s: Store, matchId: string, marketType: string, title: string,
                             labels: seq<string>, locksAt: Timestamp, now: Timestamp)
    requires Inv(s)
    requires MIN_OPTIONS <= |labels| <= MAX_OPTIONS
    ensures s.nextMarketId !in s.markets && s.nextMarketId !in s.activeMarkets
    ensures Inv(CreateMarketEffect(s, matchId, marketType, title, labels, locksAt, now))
  {
    var id := s.nextMarketId;
    var m := NewMarket(id, matchId, marketType, title, labels, locksAt, now);
    var markets' := s.markets[id := m];
    CreateKeepsMarkets(s.markets, id, m);
    assert KeepsOptionCounts(s.markets, markets');
    BetsInvFrame(s.bets, s.nextBetId, s.markets, markets');
    MarketIndexFrame(s.marketBets, s.bets, s.markets, markets');
    CreateKeepsPools(s.markets, s.marketBets, s.bets, id, m);
    CreateKeepsActive(s.activeMarkets, s.markets, id, m);
  }

  // ---------------------------------------------------------------------
  // place_bet

  /** place_bet's checks, in order; the first that fails names the error. */
  ghost predicate BetAccepted(s: Store, caller: Owner, marketId: MarketId, optionId: nat,
                              amount: Amount, now: Timestamp)
  {
    && amount > 0
    && BalanceOf(s.balances, caller) >= amount
    && marketId in s.markets
    && s.markets[marketId].status == Open
    && now < s.markets[marketId].locksAt
    && optionId < |s.markets[marketId].options|
  }

  /** The bet place_bet records, at the odds quoted from the pools before it. */
  function NewBet(s: Store, caller: Owner, marketId: MarketId, optionId: nat,
                  amount: Amount, now: Timestamp): (b: Bet)
    requires marketId in s.markets && optionId < |s.markets[marketId].options|
    ensures b.id == s.nextBetId && b.owner == caller && b.marketId == marketId
    ensures b.optionId == optionId && b.amount == amount && b.placedAt == now
    ensures !b.settled && b.payout == None
    ensures b.odds == QuotedOdds(s.markets[marketId].options, optionId, amount) <= MAX_ODDS
  {
    Bet(s.nextBetId, caller, marketId, optionId, amount,
        QuotedOdds(s.markets[marketId].options, optionId, amount), now, false, None)
  }

  /**
   * place_bet's effect: the stake leaves the caller's balance, one new
   * unsettled bet is recorded under the next id at the quoted odds, and
   * both indices list it.  No market is added or removed.
   */
  function PlaceBetEffect(s: Store, caller: Owner, marketId: MarketId, optionId: nat,
                          amount: Amount, now: Timestamp): (r: Store)
    requires marketId in s.markets && optionId < |s.markets[marketId].options|
    requires amount <= BalanceOf(s.balances, caller)
    ensures r.bets.Keys == s.bets.Keys + {s.nextBetId} && r.markets.Keys == s.markets.Keys
    ensures BalanceOf(r.balances, caller) + amount == BalanceOf(s.balances, caller)
    ensures s.nextBetId in IdsFor(r.userBets, caller) && s.nextBetId in IdsFor(r.marketBets, marketId)
    ensures r.protocolFees == s.protocolFees && r.activeMarkets == s.activeMarkets
  {
    var m := s.markets[marketId];
    var id := s.nextBetId;
    s.(balances := s.balances[caller := BalanceOf(s.balances, caller) - amount],
       markets := s.markets[marketId := m.(options := AddStake(m.options, optionId, amount))],
       nextBetId := id + 1,
       bets := s.bets[id := NewBet(s, caller, marketId, optionId, amount, now)],
       userBets := s.userBets[caller := IdsFor(s.userBets, caller) + [id]],
       marketBets := s.marketBets[marketId := IdsFor(s.marketBets, marketId) + [id]],
       totalVolume := s.totalVolume + amount)
  }

  lemma PlaceBetKeepsBets(bets: map<BetId, Bet>, id: BetId, markets: map<MarketId, Market>, b: Bet)
    requires BetsInv(bets, id, markets) && BetFits(b, id, markets)
    ensures id !in bets
    ensures BetsInv(bets[id := b], id + 1, markets)
  {
  }

  /** Appending an id that is not in a duplicate-free list keeps it duplicate-free. */
  lemma DistinctAppend(ids: seq<BetId>, id: BetId)
    requires Distinct(ids) && id !in ids
    ensures Distinct(ids + [id])
  {
  }

  /** A bet id not yet stored is listed in no index entry. */
  lemma FreshIdUnlisted<K>(index: map<K, seq<BetId>>, bets: map<BetId, Bet>, id: BetId, key: K)
    requires forall m, j :: m in index && 0 <= j < |index[m]| ==> index[m][j] in bets
    requires id !in bets
    ensures id !in IdsFor(index, key)
  {
    if key in index {
      forall j | 0 <= j < |index[key]| ensures index[key][j] != id {
        assert index[key][j] in bets;
      }
    }
  }

  lemma PlaceBetKeepsMarketIndex(marketBets: map<MarketId, seq<BetId>>, bets: map<BetId, Bet>,
                                 markets: map<MarketId, Market>, id: BetId, b: Bet)
    requires MarketIndexInv(marketBets, bets, markets)
    requires id !in bets && b.marketId in markets
    ensures MarketIndexInv(marketBets[b.marketId := IdsFor(marketBets, b.marketId) + [id]], bets[id := b], markets)
  {
    var ids := IdsFor(marketBets, b.marketId);
    var mb' := marketBets[b.marketId := ids + [id]];
    var bets' := bets[id := b];
    FreshIdUnlisted(marketBets, bets, id, b.marketId);
    DistinctAppend(ids, id);
    assert forall m :: m in mb' ==> m in markets && Distinct(mb'[m]);
    PlaceBetListsBets(marketBets, bets, id, b);
    PlaceBetIndexesBet(marketBets, bets, markets, id, b);
  }

  lemma PlaceBetListsBets(marketBets: map<MarketId, seq<BetId>>, bets: map<BetId, Bet>, id: BetId, b: Bet)
    requires forall m, j :: m in marketBets && 0 <= j < |marketBets[m]| ==>
               marketBets[m][j] in bets && bets[marketBets[m][j]].marketId == m
    requires id !in bets
    ensures var mb' := marketBets[b.marketId := IdsFor(marketBets, b.marketId) + [id]];
            forall m, j :: m in mb' && 0 <= j < |mb'[m]| ==>
              mb'[m][j] in bets[id := b] && bets[id := b][mb'[m][j]].marketId == m
  {
    var ids := IdsFor(marketBets, b.marketId);
    var mb' := marketBets[b.marketId := ids + [id]];
    var bets' := bets[id := b];
    forall m, j | m in mb' && 0 <= j < |mb'[m]|
      ensures mb'[m][j] in bets' && bets'[mb'[m][j]].marketId == m
    {
      if m != b.marketId {
        assert mb'[m] == marketBets[m];
      } else if j < |ids| {
        assert mb'[m][j] == marketBets[m][j];
      } else {
        assert mb'[m][j] == id;
      }
    }
  }

  lemma PlaceBetIndexesBet(marketBets: map<MarketId, seq<BetId>>, bets: map<BetId, Bet>,
                           markets: map<MarketId, Market>, id: BetId, b: Bet)
    requires forall k :: k in bets ==> k in IdsFor(marketBets, bets[k].marketId)
    ensures var mb' := marketBets[b.marketId := IdsFor(marketBets, b.marketId) + [id]];
            var bets' := bets[id := b];
            forall k :: k in bets' ==> k in IdsFor(mb', bets'[k].marketId)
  {
    var ids := IdsFor(marketBets, b.marketId);
    var mb' := marketBets[b.marketId := ids + [id]];
    var bets' := bets[id := b];
    forall k | k in bets' ensures k in IdsFor(mb', bets'[k].marketId) {
      if k == id {
        assert (ids + [id])[|ids|] == id;
      } else {
        var m := bets[k].marketId;
        assert k in IdsFor(marketBets, m);
        if m == b.marketId {
          assert IdsFor(mb', m) == ids + [id];
        } else {
          assert IdsFor(mb', m) == IdsFor(marketBets, m);
        }
      }
    }
  }

  lemma PlaceBetKeepsUserIndex(userBets: map<Owner, seq<BetId>>, bets: map<BetId, Bet>, id: BetId, b: Bet)
    requires UserIndexInv(userBets, bets)
    requires id !in bets
    ensures UserIndexInv(userBets[b.owner := IdsFor(userBets, b.owner) + [id]], bets[id := b])
  {
    var ids := IdsFor(userBets, b.owner);
    var ub' := userBets[b.owner := ids + [id]];
    FreshIdUnlisted(userBets, bets, id, b.owner);
    DistinctAppend(ids, id);
    assert forall o :: o in ub' ==> Distinct(ub'[o]);
    PlaceBetListsOwnBets(userBets, bets, id, b);
    PlaceBetIndexesOwner(userBets, bets, id, b);
  }

  lemma PlaceBetListsOwnBets(userBets: map<Owner, seq<BetId>>, bets: map<BetId, Bet>, id: BetId, b: Bet)
    requires UserIndexInv(userBets, bets)
    requires id !in bets
    ensures var ub' := userBets[b.owner := IdsFor(userBets, b.owner) + [id]];
            forall o, j :: o in ub' && 0 <= j < |ub'[o]| ==>
              ub'[o][j] in bets[id := b] && bets[id := b][ub'[o][j]].owner == o
  {
  }

  lemma PlaceBetIndexesOwner(userBets: map<Owner, seq<BetId>>, bets: map<BetId, Bet>, id: BetId, b: Bet)
    requires UserIndexInv(userBets, bets)
    ensures var ub' := userBets[b.owner := IdsFor(userBets, b.owner) + [id]];
            var bets' := bets[id := b];
            forall k :: k in bets' ==> k in IdsFor(ub', bets'[k].owner)
  {
    var ub' := userBets[b.owner := IdsFor(userBets, b.owner) + [id]];
    var bets' := bets[id := b];
    forall k | k in bets' ensures k in IdsFor(ub', bets'[k].owner) {
      if k != id {
        assert k in IdsFor(userBets, bets[k].owner);
      }
    }
  }

  /** Appending a bet id not yet listed adds exactly that bet's stake. */
  lemma OptionStakeAppend(ids: seq<BetId>, bets: map<BetId, Bet>, k: BetId, b: Bet, optionId: nat)
    requires k !in ids
    ensures OptionStake(ids + [k], bets[k := b], optionId)
            == OptionStake(ids, bets, optionId) + (if b.optionId == optionId then b.amount else 0)
  {
    assert (ids + [k])[..|ids|] == ids;
    OptionStakeFrame(ids, bets, bets[k := b], optionId);
  }

  lemma PlaceBetKeepsPools(markets: map<MarketId, Market>, marketBets: map<MarketId, seq<BetId>>,
                           bets: map<BetId, Bet>, id: BetId, b: Bet)
    requires PoolsInv(markets, marketBets, bets)
    requires forall m, j :: m in marketBets && 0 <= j < |marketBets[m]| ==> marketBets[m][j] in bets
    requires id !in bets
    requires b.marketId in markets && b.optionId < |markets[b.marketId].options|
    ensures var m := markets[b.marketId];
            PoolsInv(markets[b.marketId := m.(options := AddStake(m.options, b.optionId, b.amount))],
                     marketBets[b.marketId := IdsFor(marketBets, b.marketId) + [id]], bets[id := b])
  {
    var m0 := markets[b.marketId];
    var markets' := markets[b.marketId := m0.(options := AddStake(m0.options, b.optionId, b.amount))];
    var mb' := marketBets[b.marketId := IdsFor(marketBets, b.marketId) + [id]];
    var bets' := bets[id := b];
    forall m, i | m in markets' && 0 <= i < |markets'[m].options|
      ensures markets'[m].options[i].pool == OptionStake(IdsFor(mb', m), bets', i)
    {
      var ids := IdsFor(marketBets, m);
      assert id !in ids;
      if m == b.marketId {
        OptionStakeAppend(ids, bets, id, b, i);
      } else {
        OptionStakeFrame(ids, bets, bets', i);
      }
    }
  }

  /** Recording bet `id` adds its amount to the volume counted up to it. */
  lemma VolumeAppend(bets: map<BetId, Bet>, id: BetId, b: Bet)
    requires 1 <= id
    ensures Volume(bets[id := b], id + 1) == Volume(bets, id) + b.amount
  {
    VolumeFrame(bets, bets[id := b], id);
  }

  lemma PlaceBetKeepsInv(s: Store, caller: Owner, marketId: MarketId, optionId: nat,
                         amount: Amount, now: Timestamp)
    requires Inv(s)
    requires BetAccepted(s, caller, marketId, optionId, amount, now)
    ensures Inv(PlaceBetEffect(s, caller, marketId, optionId, amount, now))
  {
    PlaceBetKeepsMarketsAndBets(s, caller, marketId, optionId, amount, now);
    PlaceBetKeepsIndices(s, caller, marketId, optionId, amount, now);
    PlaceBetKeepsPoolsAndActive(s, caller, marketId, optionId, amount, now);
    PlaceBetKeepsVolume(s, caller, marketId, optionId, amount, now);
  }

  lemma PlaceBetKeepsVolume(s: Store, caller: Owner, marketId: MarketId, optionId: nat,
                            amount: Amount, now: Timestamp)
    requires s.totalVolume == Volume(s.bets, s.nextBetId) && 1 <= s.nextBetId
    requires BetAccepted(s, caller, marketId, optionId, amount, now)
    ensures var s' := PlaceBetEffect(s, caller, marketId, optionId, amount, now);
            s'.totalVolume == Volume(s'.bets, s'.nextBetId)
  {
    VolumeAppend(s.bets, s.nextBetId, NewBet(s, caller, marketId, optionId, amount, now));
  }

  lemma PlaceBetKeepsMarketsAndBets(s: Store, caller: Owner, marketId: MarketId, optionId: nat,
                                    amount: Amount, now: Timestamp)
    requires MarketsInv(s.markets, s.nextMarketId) && BetsInv(s.bets, s.nextBetId, s.markets)
    requires BetAccepted(s, caller, marketId, optionId, amount, now)
    ensures var s' := PlaceBetEffect(s, caller, marketId, optionId, amount, now);
            && MarketsInv(s'.markets, s'.nextMarketId)
            && BetsInv(s'.bets, s'.nextBetId, s'.markets)
  {
    var s' := PlaceBetEffect(s, caller, marketId, optionId, amount, now);
    MarketsInvUpdate(s.markets, s.nextMarketId, marketId, s'.markets[marketId]);
    assert KeepsOptionCounts(s.markets, s'.markets);
    BetsInvFrame(s.bets, s.nextBetId, s.markets, s'.markets);
    PlaceBetKeepsBets(s.bets, s.nextBetId, s'.markets, s'.bets[s.nextBetId]);
  }

  lemma PlaceBetKeepsIndices(s: Store, caller: Owner, marketId: MarketId, optionId: nat,
                             amount: Amount, now: Timestamp)
    requires MarketIndexInv(s.marketBets, s.bets, s.markets) && UserIndexInv(s.userBets, s.bets)
    requires s.nextBetId !in s.bets
    requires BetAccepted(s, caller, marketId, optionId, amount, now)
    ensures var s' := PlaceBetEffect(s, caller, marketId, optionId, amount, now);
            && MarketIndexInv(s'.marketBets, s'.bets, s'.markets)
            && UserIndexInv(s'.userBets, s'.bets)
  {
    var s' := PlaceBetEffect(s, caller, marketId, optionId, amount, now);
    var b := NewBet(s, caller, marketId, optionId, amount, now);
    MarketIndexFrame(s.marketBets, s.bets, s.markets, s'.markets);
    PlaceBetKeepsMarketIndex(s.marketBets, s.bets, s'.markets, s.nextBetId, b);
    PlaceBetKeepsUserIndex(s.userBets, s.bets, s.nextBetId, b);
  }

  lemma PlaceBetKeepsPoolsAndActive(s: Store, caller: Owner, marketId: MarketId, optionId: nat,
                                    amount: Amount, now: Timestamp)
    requires PoolsInv(s.markets, s.marketBets, s.bets) && ActiveInv(s.activeMarkets, s.markets)
    requires forall m, j :: m in s.marketBets && 0 <= j < |s.marketBets[m]| ==> s.marketBets[m][j] in s.bets
    requires s.nextBetId !in s.bets
    requires BetAccepted(s, caller, marketId, optionId, amount, now)
    ensures var s' := PlaceBetEffect(s, caller, marketId, optionId, amount, now);
            && PoolsInv(s'.markets, s'.marketBets, s'.bets)
            && ActiveInv(s'.activeMarkets, s'.markets)
  {
    var s' := PlaceBetEffect(s, caller, marketId, optionId, amount, now);
    PlaceBetKeepsPools(s.markets, s.marketBets, s.bets, s.nextBetId, NewBet(s, caller, marketId, optionId, amount, now));
    ActiveStatusFrame(s.activeMarkets, s.markets, s'.markets);
  }

  /**
   * A successful bet moves its amount out of the caller's balance and
   * into the chosen option's pool, the market's total pool and the
   * lifetime volume; no other balance or market changes.
   */
  lemma {:induction false} PlaceBetConserves(s: Store, caller: Owner, marketId: MarketId, optionId: nat,
                                             amount: Amount, now: Timestamp)
    requires BetAccepted(s, caller, marketId, optionId, amount, now)
    ensures var s' := PlaceBetEffect(s, caller, marketId, optionId, amount, now);
            && BalanceOf(s'.balances, caller) + amount == BalanceOf(s.balances, caller)
            && (forall o :: o != caller ==> BalanceOf(s'.balances, o) == BalanceOf(s.balances, o))
            && s'.markets[marketId].options[optionId].pool == s.markets[marketId].options[optionId].pool + amount
            && TotalPool(s'.markets[marketId].options) == TotalPool(s.markets[marketId].options) + amount
            && s'.totalVolume == s.totalVolume + amount
            && (forall m :: m in s.markets && m != marketId ==> s'.markets[m] == s.markets[m])
  {
    TotalPoolAddStake(s.markets[marketId].options, optionId, amount);
  }

  // ---------------------------------------------------------------------
  // lock_market, resolve_market and the closing step of cancel_market

  /** lock_market's effect: the market is Locked and no longer active; no bet or balance changes. */
  function LockEffect(s: Store, marketId: MarketId): (r: Store)
    requires marketId in s.markets
    ensures r.markets.Keys == s.markets.Keys && r.markets[marketId].status == Locked
    ensures marketId !in r.activeMarkets
    ensures r.bets == s.bets && r.balances == s.balances
  {
    RemoveAllMembers(s.activeMarkets, marketId);
    s.(markets := s.markets[marketId := s.markets[marketId].(status := Locked)],
       activeMarkets := RemoveAll(s.activeMarkets, marketId))
  }

  /** resolve_market's effect: the market is Resolved with its winner and no longer active; nobody is paid. */
  function ResolveEffect(s: Store, marketId: MarketId, winningOption: nat): (r: Store)
    requires marketId in s.markets
    ensures r.markets.Keys == s.markets.Keys
    ensures r.markets[marketId].status == Resolved && r.markets[marketId].winningOption == Some(winningOption)
    ensures marketId !in r.activeMarkets
    ensures r.bets == s.bets && r.balances == s.balances
  {
    RemoveAllMembers(s.activeMarkets, marketId);
    s.(markets := s.markets[marketId := s.markets[marketId].(status := Resolved, winningOption := Some(winningOption))],
       activeMarkets := RemoveAll(s.activeMarkets, marketId))
  }

  lemma CloseKeepsActive(active: seq<MarketId>, markets: map<MarketId, Market>, k: MarketId, closed: Market)
    requires ActiveInv(active, markets)
    requires k in markets && closed.status != Open
    ensures ActiveInv(RemoveAll(active, k), markets[k := closed])
  {
    var active' := RemoveAll(active, k);
    var markets' := markets[k := closed];
    RemoveAllMembers(active, k);
    RemoveAllDistinct(active, k);
    forall j | 0 <= j < |active'| ensures active'[j] in markets' && markets'[active'[j]].status == Open {
      var x := active'[j];
      assert x in active' && x in active && x != k;
      var i :| 0 <= i < |active| && active[i] == x;
      assert markets[x].status == Open;
    }
    forall m | m in markets' && markets'[m].status == Open ensures m in active' {
      assert m != k && m in active;
    }
  }

  /**
   * Replacing one market by a well-formed one with the same options and
   * a status other than Open, and dropping it from the active list, keeps
   * the invariant.
   */
  lemma CloseMarketKeepsInv(s: Store, marketId: MarketId, closed: Market)
    requires Inv(s)
    requires marketId in s.markets
    requires closed.id == marketId && closed.options == s.markets[marketId].options
    requires closed.status != Open && WellFormedMarket(closed)
    ensures Inv(s.(markets := s.markets[marketId := closed], activeMarkets := RemoveAll(s.activeMarkets, marketId)))
  {
    var markets' := s.markets[marketId := closed];
    MarketsInvUpdate(s.markets, s.nextMarketId, marketId, closed);
    assert KeepsOptionCounts(s.markets, markets');
    BetsInvFrame(s.bets, s.nextBetId, s.markets, markets');
    MarketIndexFrame(s.marketBets, s.bets, s.markets, markets');
    PoolsOptionsFrame(s.markets, markets', s.marketBets, s.bets);
    CloseKeepsActive(s.activeMarkets, s.markets, marketId, closed);
  }

  lemma LockKeepsInv(s: Store, marketId: MarketId)
    requires Inv(s)
    requires marketId in s.markets && s.markets[marketId].status == Open
    ensures Inv(LockEffect(s, marketId))
  {
    CloseMarketKeepsInv(s, marketId, s.markets[marketId].(status := Locked));
  }

  lemma ResolveKeepsInv(s: Store, marketId: MarketId, winningOption: nat)
    requires Inv(s)
    requires marketId in s.markets && winningOption < |s.markets[marketId].options|
    ensures Inv(ResolveEffect(s, marketId, winningOption))
  {
    CloseMarketKeepsInv(s, marketId, s.markets[marketId].(status := Resolved, winningOption := Some(winningOption)));
  }

  // ---------------------------------------------------------------------
  // Settling bets

  /**
   * Replacing bets by records of the same wagers whose payout is present
   * exactly when they are settled keeps the invariant.
   */
  lemma SettleKeepsInv(s: Store, bets': map<BetId, Bet>)
    requires Inv(s)
    requires SettledFrom(s.bets, bets')
    ensures Inv(s.(bets := bets'))
  {
    SettleKeepsBets(s.bets, bets', s.nextBetId, s.markets);
    SettleKeepsMarketIndex(s.marketBets, s.bets, bets', s.markets);
    SettleKeepsUserIndex(s.userBets, s.bets, bets');
    SettleKeepsPools(s.markets, s.marketBets, s.bets, bets');
    SettleKeepsVolume(s.bets, bets', s.nextBetId);
  }

  lemma SettleKeepsVolume(bets: map<BetId, Bet>, bets': map<BetId, Bet>, n: nat)
    requires SettledFrom(bets, bets')
    ensures Volume(bets', n) == Volume(bets, n)
  {
    forall i | 1 <= i < n ensures AmountAt(bets, i) == AmountAt(bets', i) {
    }
    VolumeFrame(bets, bets', n);
  }

  lemma SettleKeepsBets(bets: map<BetId, Bet>, bets': map<BetId, Bet>, nextBetId: nat, markets: map<MarketId, Market>)
    requires BetsInv(bets, nextBetId, markets)
    requires SettledFrom(bets, bets')
    ensures BetsInv(bets', nextBetId, markets)
  {
  }

  lemma SettleKeepsMarketIndex(marketBets: map<MarketId, seq<BetId>>, bets: map<BetId, Bet>,
                               bets': map<BetId, Bet>, markets: map<MarketId, Market>)
    requires MarketIndexInv(marketBets, bets, markets)
    requires SettledFrom(bets, bets')
    ensures MarketIndexInv(marketBets, bets', markets)
  {
  }

  lemma SettleKeepsUserIndex(userBets: map<Owner, seq<BetId>>, bets: map<BetId, Bet>, bets': map<BetId, Bet>)
    requires UserIndexInv(userBets, bets)
    requires SettledFrom(bets, bets')
    ensures UserIndexInv(userBets, bets')
  {
  }

  lemma SettleKeepsPools(markets: map<MarketId, Market>, marketBets: map<MarketId, seq<BetId>>,
                         bets: map<BetId, Bet>, bets': map<BetId, Bet>)
    requires PoolsInv(markets, marketBets, bets)
    requires SettledFrom(bets, bets')
    ensures PoolsInv(markets, marketBets, bets')
  {
    forall m, i | m in markets && 0 <= i < |markets[m].options|
      ensures markets[m].options[i].pool == OptionStake(IdsFor(marketBets, m), bets', i)
    {
      OptionStakeFrame(IdsFor(marketBets, m), bets, bets', i);
    }
  }

  // ---------------------------------------------------------------------
  // cancel_market

  /** A bet after its refund: settled, paid back its own amount. */
  function Refunded(b: Bet): (r: Bet)
    ensures SameWager(b, r) && r.settled && r.payout == Some(b.amount)
  {
    b.(settled := true, payout := Some(b.amount))
  }

  /** The bets after refunding every listed bet that was not yet settled. */
  function RefundAll(bets: map<BetId, Bet>, ids: seq<BetId>): (r: map<BetId, Bet>)
    ensures r.Keys == bets.Keys
    ensures forall k :: k in bets ==> SameWager(bets[k], r[k])
    ensures forall k :: k in bets && k !in ids ==> r[k] == bets[k]
    ensures forall k :: k in bets && k in ids ==> r[k].settled
    ensures forall k :: k in bets && bets[k].settled ==> r[k] == bets[k]
    ensures forall k :: k in bets ==> r[k] == bets[k] || r[k] == Refunded(bets[k])
  {
    if ids == [] then bets
    else
      var prior := RefundAll(bets, ids[..|ids| - 1]);
      var k := ids[|ids| - 1];
      if k in bets && !bets[k].settled then prior[k := Refunded(bets[k])] else prior
  }

  /** The balances after crediting, in list order, the amount of each listed unsettled bet to its owner. */
  function ApplyRefunds(balances: map<Owner, Amount>, ids: seq<BetId>, bets: map<BetId, Bet>): map<Owner, Amount>
  {
    if ids == [] then balances
    else
      var prior := ApplyRefunds(balances, ids[..|ids| - 1], bets);
      var k := ids[|ids| - 1];
      if k in bets && !bets[k].settled then
        prior[bets[k].owner := BalanceOf(prior, bets[k].owner) + bets[k].amount]
      else prior
  }

  /** The total refunded to `owner` for the listed unsettled bets. */
  function RefundTotal(ids: seq<BetId>, bets: map<BetId, Bet>, owner: Owner): Amount
  {
    if ids == [] then 0
    else
      var k := ids[|ids| - 1];
      RefundTotal(ids[..|ids| - 1], bets, owner)
        + (if k in bets && !bets[k].settled && bets[k].owner == owner then bets[k].amount else 0)
  }

  /**
   * One pass of cancel_market's refund loop over bet `k`: a stored bet
   * that is not yet settled is refunded and its amount credited to its
   * owner; otherwise both maps stay as they are.
   */
  function RefundOne(bets: map<BetId, Bet>, balances: map<Owner, Amount>, k: BetId)
    : (r: (map<BetId, Bet>, map<Owner, Amount>))
    ensures r.0.Keys == bets.Keys
    ensures forall j :: j in bets && j != k ==> r.0[j] == bets[j]
    ensures forall o :: o != (if k in bets then bets[k].owner else o) ==> BalanceOf(r.1, o) == BalanceOf(balances, o)
    ensures k in bets && !bets[k].settled ==>
              && r.0[k] == Refunded(bets[k])
              && BalanceOf(r.1, bets[k].owner) == BalanceOf(balances, bets[k].owner) + bets[k].amount
    ensures !(k in bets && !bets[k].settled) ==> r == (bets, balances)
  {
    if k in bets && !bets[k].settled then
      var b := bets[k];
      (bets[k := Refunded(b)], balances[b.owner := BalanceOf(balances, b.owner) + b.amount])
    else (bets, balances)
  }

  /** cancel_market's refund loop: `RefundOne` over the listed bets, in order, each seeing the maps the previous one left. */
  function RefundFold(bets: map<BetId, Bet>, balances: map<Owner, Amount>, ids: seq<BetId>)
    : (map<BetId, Bet>, map<Owner, Amount>)
  {
    if ids == [] then (bets, balances)
    else
      var prior := RefundFold(bets, balances, ids[..|ids| - 1]);
      RefundOne(prior.0, prior.1, ids[|ids| - 1])
  }

  /** The loop over `ids[..i + 1]` is the loop over `ids[..i]` followed by one pass over `ids[i]`. */
  lemma RefundFoldStep(bets: map<BetId, Bet>, balances: map<Owner, Amount>, ids: seq<BetId>, i: nat)
    requires i < |ids|
    ensures var prior := RefundFold(bets, balances, ids[..i]);
            RefundFold(bets, balances, ids[..i + 1]) == RefundOne(prior.0, prior.1, ids[i])
  {
    var next := ids[..i + 1];
    assert next[..|next| - 1] == ids[..i] && next[|next| - 1] == ids[i];
  }

  /** The bets the loop leaves are those of `RefundAll`, whether or not the list repeats an id. */
  lemma {:induction false} RefundFoldBets(bets: map<BetId, Bet>, balances: map<Owner, Amount>, ids: seq<BetId>)
    ensures RefundFold(bets, balances, ids).0 == RefundAll(bets, ids)
  {
    if ids != [] {
      RefundFoldBets(bets, balances, ids[..|ids| - 1]);
    }
  }

  /** On a list without repetition the loop credits what `ApplyRefunds` credits. */
  lemma {:induction false} RefundFoldBalances(bets: map<BetId, Bet>, balances: map<Owner, Amount>, ids: seq<BetId>)
    requires Distinct(ids)
    ensures RefundFold(bets, balances, ids).1 == ApplyRefunds(balances, ids, bets)
  {
    if ids != [] {
      var prefix := ids[..|ids| - 1];
      var k := ids[|ids| - 1];
      assert Distinct(prefix);
      assert k !in prefix;
      RefundFoldBets(bets, balances, prefix);
      RefundFoldBalances(bets, balances, prefix);
    }
  }

  /**
   * cancel_market's effect: the refund loop over the market's bet list,
   * then the market is Cancelled and no longer active.  No bet is added
   * or removed and no fee is taken.
   */
  function CancelEffect(s: Store, marketId: MarketId): (r: Store)
    requires marketId in s.markets
    ensures r.markets.Keys == s.markets.Keys && r.markets[marketId].status == Cancelled
    ensures marketId !in r.activeMarkets
    ensures r.bets.Keys == s.bets.Keys && r.protocolFees == s.protocolFees
  {
    RemoveAllMembers(s.activeMarkets, marketId);
    RefundFoldBets(s.bets, s.balances, IdsFor(s.marketBets, marketId));
    var refunded := RefundFold(s.bets, s.balances, IdsFor(s.marketBets, marketId));
    s.(bets := refunded.0,
       balances := refunded.1,
       markets := s.markets[marketId := s.markets[marketId].(status := Cancelled)],
       activeMarkets := RemoveAll(s.activeMarkets, marketId))
  }

  /** Every owner's balance grows by exactly the refunds of that owner's listed unsettled bets. */
  lemma {:induction false} ApplyRefundsCredits(balances: map<Owner, Amount>, ids: seq<BetId>,
                                               bets: map<BetId, Bet>, owner: Owner)
    ensures BalanceOf(ApplyRefunds(balances, ids, bets), owner) == BalanceOf(balances, owner) + RefundTotal(ids, bets, owner)
  {
    if ids != [] {
      ApplyRefundsCredits(balances, ids[..|ids| - 1], bets, owner);
    }
  }

  /** Once every listed bet is refunded, no prefix of the list yields a further refund. */
  lemma {:induction false} RefundTotalAfterRefund(prefix: seq<BetId>, ids: seq<BetId>,
                                                  bets: map<BetId, Bet>, owner: Owner)
    requires forall k :: k in prefix ==> k in ids
    ensures RefundTotal(prefix, RefundAll(bets, ids), owner) == 0
  {
    if prefix != [] {
      var init := prefix[..|prefix| - 1];
      assert forall k :: k in init ==> k in prefix;
      RefundTotalAfterRefund(init, ids, bets, owner);
      assert prefix[|prefix| - 1] in prefix;
    }
  }

  lemma RefundsMatchSettled(bets: map<BetId, Bet>, nextBetId: nat, markets: map<MarketId, Market>, r: map<BetId, Bet>)
    requires BetsInv(bets, nextBetId, markets)
    requires r.Keys == bets.Keys
    requires forall k :: k in bets ==> r[k] == bets[k] || r[k] == Refunded(bets[k])
    ensures SettledFrom(bets, r)
  {
    forall k | k in bets ensures PayoutMatchesSettled(r[k]) {
      assert BetFits(bets[k], k, markets);
    }
  }

  lemma RefundKeepsInv(s: Store, ids: seq<BetId>, balances: map<Owner, Amount>)
    requires Inv(s)
    ensures Inv(s.(bets := RefundAll(s.bets, ids), balances := balances))
  {
    var r := RefundAll(s.bets, ids);
    RefundsMatchSettled(s.bets, s.nextBetId, s.markets, r);
    SettleKeepsInv(s, r);
  }

  lemma CancelKeepsInv(s: Store, marketId: MarketId)
    requires Inv(s)
    requires marketId in s.markets && s.markets[marketId].status != Resolved
    ensures Inv(CancelEffect(s, marketId))
  {
    var ids := IdsFor(s.marketBets, marketId);
    var refunded := RefundFold(s.bets, s.balances, ids);
    RefundFoldBets(s.bets, s.balances, ids);
    RefundKeepsInv(s, ids, refunded.1);
    CloseMarketKeepsInv(s.(bets := refunded.0, balances := refunded.1), marketId, s.markets[marketId].(status := Cancelled));
  }

  /** After a cancellation every bet on the market is settled. */
  lemma CancelSettlesEveryBet(s: Store, marketId: MarketId)
    requires MarketIndexInv(s.marketBets, s.bets, s.markets)
    requires marketId in s.markets
    ensures var s' := CancelEffect(s, marketId);
            forall k :: k in s'.bets && s'.bets[k].marketId == marketId ==> s'.bets[k].settled
  {
    var ids := IdsFor(s.marketBets, marketId);
    RefundFoldBets(s.bets, s.balances, ids);
    forall k | k in s.bets && s.bets[k].marketId == marketId ensures k in ids {
    }
  }

  /** A cancellation credits each owner exactly the amounts of that owner's still unsettled bets on the market. */
  lemma CancelRefundsStakes(s: Store, marketId: MarketId, owner: Owner)
    requires marketId in s.markets && Distinct(IdsFor(s.marketBets, marketId))
    ensures BalanceOf(CancelEffect(s, marketId).balances, owner)
            == BalanceOf(s.balances, owner) + RefundTotal(IdsFor(s.marketBets, marketId), s.bets, owner)
  {
    RefundFoldBalances(s.bets, s.balances, IdsFor(s.marketBets, marketId));
    ApplyRefundsCredits(s.balances, IdsFor(s.marketBets, marketId), s.bets, owner);
  }

  /** Cancelling a market a second time refunds nothing and changes no bet. */
  lemma CancelTwiceRefundsNothing(s: Store, marketId: MarketId, owner: Owner)
    requires marketId in s.markets && Distinct(IdsFor(s.marketBets, marketId))
    ensures var s1 := CancelEffect(s, marketId);
            var s2 := CancelEffect(s1, marketId);
            && s2.bets == s1.bets
            && BalanceOf(s2.balances, owner) == BalanceOf(s1.balances, owner)
  {
    var s1 := CancelEffect(s, marketId);
    var ids := IdsFor(s.marketBets, marketId);
    assert IdsFor(s1.marketBets, marketId) == ids;
    RefundFoldBets(s.bets, s.balances, ids);
    RefundFoldBets(s1.bets, s1.balances, ids);
    RefundFoldBalances(s1.bets, s1.balances, ids);
    assert RefundAll(s1.bets, ids) == s1.bets;
    ApplyRefundsCredits(s1.balances, ids, s1.bets, owner);
    RefundTotalAfterRefund(ids, ids, s.bets, owner);
  }

  // ---------------------------------------------------------------------
  // claim_winnings

  /** claim_winnings' checks, in order. */
  ghost predicate ClaimAccepted(s: Store, caller: Owner, betId: BetId)
  {
    && betId in s.bets
    && s.bets[betId].owner == caller
    && !s.bets[betId].settled
    && s.bets[betId].marketId in s.markets
    && s.markets[s.bets[betId].marketId].status == Resolved
  }

  /** What a claim pays: the fee-reduced payout at the bet's locked odds if it won, otherwise 0. */
  function ClaimPayout(b: Bet, winningOption: nat, feeRateBps: nat): (payout: Amount)
    requires feeRateBps <= BPS_SCALE
    ensures b.optionId != winningOption ==> payout == 0
    ensures payout <= GrossPayout(b.amount, b.odds)
  {
    if b.optionId == winningOption then CalculatePayout(b.amount, b.odds, feeRateBps) else 0
  }

  /**
   * claim_winnings' effect: the bet is settled with its payout, which is
   * credited to the caller; the rest of the gross goes to the protocol
   * fee register.  Markets are untouched.
   */
  function ClaimEffect(s: Store, caller: Owner, betId: BetId): (r: Store)
    requires ClaimAccepted(s, caller, betId)
    requires s.feeRateBps <= BPS_SCALE
    requires s.markets[s.bets[betId].marketId].winningOption.Some?
    ensures var payout := ClaimPayout(s.bets[betId], s.markets[s.bets[betId].marketId].winningOption.value, s.feeRateBps);
            && r.bets.Keys == s.bets.Keys
            && r.bets[betId].settled && r.bets[betId].payout == Some(payout)
            && BalanceOf(r.balances, caller) == BalanceOf(s.balances, caller) + payout
    ensures r.markets == s.markets
  {
    var b := s.bets[betId];
    var payout := ClaimPayout(b, s.markets[b.marketId].winningOption.value, s.feeRateBps);
    var s1 := s.(bets := s.bets[betId := b.(settled := true, payout := Some(payout))]);
    if payout > 0 then
      s1.(balances := s1.balances[caller := BalanceOf(s1.balances, caller) + payout],
          protocolFees := s1.protocolFees + (GrossPayout(b.amount, b.odds) - payout))
    else s1
  }

  lemma ClaimKeepsInv(s: Store, caller: Owner, betId: BetId)
    requires Inv(s)
    requires ClaimAccepted(s, caller, betId)
    ensures s.markets[s.bets[betId].marketId].winningOption.Some?
    ensures Inv(ClaimEffect(s, caller, betId))
  {
    var b := s.bets[betId];
    var s1 := ClaimSettleKeepsInv(s, caller, betId);
    var s' := ClaimEffect(s, caller, betId);
    assert s' == s1.(balances := s'.balances, protocolFees := s'.protocolFees);
    LedgerKeepsInv(s1, s'.balances, s'.protocolFees);
  }

  /** Settling the claimed bet with its payout keeps the invariant; `s1` is the store with only that bet changed. */
  lemma ClaimSettleKeepsInv(s: Store, caller: Owner, betId: BetId) returns (s1: Store)
    requires Inv(s)
    requires ClaimAccepted(s, caller, betId)
    ensures s.markets[s.bets[betId].marketId].winningOption.Some?
    ensures var b := s.bets[betId];
            s1 == s.(bets := s.bets[betId := b.(settled := true,
                       payout := Some(ClaimPayout(b, s.markets[b.marketId].winningOption.value, s.feeRateBps)))])
    ensures Inv(s1)
  {
    var b := s.bets[betId];
    ResolvedHasWinner(s.markets, s.nextMarketId, b.marketId);
    var payout := ClaimPayout(b, s.markets[b.marketId].winningOption.value, s.feeRateBps);
    var b' := b.(settled := true, payout := Some(payout));
    SettleOneFits(s.bets, s.nextBetId, s.markets, betId, b');
    s1 := s.(bets := s.bets[betId := b']);
    SettleKeepsInv(s, s1.bets);
  }

  /** A stored Resolved market records a winning option that is one of its options. */
  lemma ResolvedHasWinner(markets: map<MarketId, Market>, nextMarketId: nat, marketId: MarketId)
    requires MarketsInv(markets, nextMarketId)
    requires marketId in markets && markets[marketId].status == Resolved
    ensures markets[marketId].winningOption.Some?
    ensures markets[marketId].winningOption.value < |markets[marketId].options|
  {
    assert WellFormedMarket(markets[marketId]);
  }

  /** Replacing one stored bet by a settled copy of its wager changes no other bet and keeps every payout matching its settlement. */
  lemma SettleOneFits(bets: map<BetId, Bet>, nextBetId: nat, markets: map<MarketId, Market>, betId: BetId, b': Bet)
    requires BetsInv(bets, nextBetId, markets)
    requires betId in bets && SameWager(bets[betId], b') && PayoutMatchesSettled(b')
    ensures SettledFrom(bets, bets[betId := b'])
  {
    forall k | k in bets
      ensures SameWager(bets[k], bets[betId := b'][k]) && PayoutMatchesSettled(bets[betId := b'][k])
    {
      if k != betId {
        assert BetFits(bets[k], k, markets);
      }
    }
  }

  /**
   * A claim on a winning bet splits the gross payout between the owner
   * and the protocol, and the owner's share is positive whenever the gross
   * is (the fee rate being below 100%); a losing bet moves nothing.
   * Either way the bet becomes settled with its payout recorded.
   */
  lemma ClaimSplitsGross(s: Store, caller: Owner, betId: BetId)
    requires ClaimAccepted(s, caller, betId)
    requires s.feeRateBps <= MAX_FEE_BPS
    requires s.markets[s.bets[betId].marketId].winningOption.Some?
    ensures var b := s.bets[betId];
            var w := s.markets[b.marketId].winningOption.value;
            var s' := ClaimEffect(s, caller, betId);
            && s'.bets[betId] == b.(settled := true, payout := Some(ClaimPayout(b, w, s.feeRateBps)))
            && (BalanceOf(s'.balances, caller) - BalanceOf(s.balances, caller))
               + (s'.protocolFees - s.protocolFees) == (if b.optionId == w then GrossPayout(b.amount, b.odds) else 0)
            && (b.optionId == w && GrossPayout(b.amount, b.odds) > 0 ==>
                  BalanceOf(s'.balances, caller) > BalanceOf(s.balances, caller))
            && (b.optionId != w ==> s'.balances == s.balances && s'.protocolFees == s.protocolFees)
  {
    var b := s.bets[betId];
    PayoutPositiveIffGross(b.amount, b.odds, s.feeRateBps);
  }

  // ---------------------------------------------------------------------
  // deposit and withdraw

  /** deposit's effect: the caller's balance grows by the amount; nothing else changes. */
  function DepositEffect(s: Store, caller: Owner, amount: Amount): (r: Store)
    ensures BalanceOf(r.balances, caller) == BalanceOf(s.balances, caller) + amount
    ensures forall o :: o != caller ==> BalanceOf(r.balances, o) == BalanceOf(s.balances, o)
    ensures r.(balances := s.balances) == s
  {
    s.(balances := s.balances[caller := BalanceOf(s.balances, caller) + amount])
  }

  /** withdraw's effect: the caller's balance shrinks by the amount; nothing else changes. */
  function WithdrawEffect(s: Store, caller: Owner, amount: Amount): (r: Store)
    requires amount <= BalanceOf(s.balances, caller)
    ensures BalanceOf(r.balances, caller) + amount == BalanceOf(s.balances, caller)
    ensures forall o :: o != caller ==> BalanceOf(r.balances, o) == BalanceOf(s.balances, o)
    ensures r.(balances := s.balances) == s
  {
    s.(balances := s.balances[caller := BalanceOf(s.balances, caller) - amount])
  }

  /** A deposit followed by a withdrawal of the same amount restores every balance. */
  lemma DepositWithdrawRoundTrip(s: Store, caller: Owner, amount: Amount)
    ensures amount <= BalanceOf(DepositEffect(s, caller, amount).balances, caller)
    ensures forall o :: BalanceOf(WithdrawEffect(DepositEffect(s, caller, amount), caller, amount).balances, o)
                        == BalanceOf(s.balances, o)
  {
  }

  // ---------------------------------------------------------------------
  // Bet history across all effects

  /** Placing a bet only adds a new, unsettled bet: earlier bets are untouched. */
  lemma PlaceBetKeepsHistory(s: Store, caller: Owner, marketId: MarketId, optionId: nat,
                             amount: Amount, now: Timestamp)
    requires BetAccepted(s, caller, marketId, optionId, amount, now)
    requires s.nextBetId !in s.bets
    ensures var s' := PlaceBetEffect(s, caller, marketId, optionId, amount, now);
            && BetHistoryKept(s.bets, s'.bets)
            && (forall k :: k in s.bets ==> s'.bets[k] == s.bets[k])
            && s'.bets.Keys == s.bets.Keys + {s.nextBetId}
  {
  }

  /** Cancelling settles bets without altering their wagers, and leaves already settled bets alone. */
  lemma CancelKeepsHistory(s: Store, marketId: MarketId)
    requires marketId in s.markets
    ensures BetHistoryKept(s.bets, CancelEffect(s, marketId).bets)
  {
    RefundFoldBets(s.bets, s.balances, IdsFor(s.marketBets, marketId));
  }

  /** A claim settles only the claimed bet, keeping its wager. */
  lemma ClaimKeepsHistory(s: Store, caller: Owner, betId: BetId)
    requires ClaimAccepted(s, caller, betId)
    requires s.feeRateBps <= BPS_SCALE
    requires s.markets[s.bets[betId].marketId].winningOption.Some?
    ensures var s' := ClaimEffect(s, caller, betId);
            && BetHistoryKept(s.bets, s'.bets)
            && (forall k :: k in s.bets && k != betId ==> s'.bets[k] == s.bets[k])
  {
  }

  // ---------------------------------------------------------------------
  // execute_operation

  /**
   * Whether the handler execute_operation dispatches `op` to passes all of
   * its checks from store `s`.  A deposit has none.
   */
  ghost predicate Accepted(s: Store, op: Operation, caller: Owner, now: Timestamp)
  {
    match op
    case CreateMarket(_, _, _, labels, locksAt) =>
      MIN_OPTIONS <= |labels| <= MAX_OPTIONS && now < locksAt
    case PlaceBet(marketId, optionId, amount) =>
      BetAccepted(s, caller, marketId, optionId, amount, now)
    case LockMarket(marketId) =>
      marketId in s.markets && s.markets[marketId].status == Open
    case ResolveMarket(marketId, winningOption) =>
      && marketId in s.markets && s.markets[marketId].status != Resolved
      && winningOption < |s.markets[marketId].options|
    case CancelMarket(marketId) =>
      marketId in s.markets && s.markets[marketId].status != Resolved
    case ClaimWinnings(betId) =>
      ClaimAccepted(s, caller, betId)
    case Deposit(_) =>
      true
    case Withdraw(amount) =>
      amount <= BalanceOf(s.balances, caller)
  }

  /**
   * One call of execute_operation from store `s`, answered with `r` and
   * leaving store `s'`: an Error is given exactly when one of the
   * operation's checks fails, and leaves the store as it was; any other
   * answer is the operation's own success response, given only when all
   * of its checks pass, and the store is the operation's effect.
   */
  ghost predicate Step(s: Store, op: Operation, caller: Owner, now: Timestamp, r: OperationResponse, s': Store)
  {
    if r.Error? then s' == s && !Accepted(s, op, caller, now)
    else match op
      case CreateMarket(matchId, marketType, title, labels, locksAt) =>
        && MIN_OPTIONS <= |labels| <= MAX_OPTIONS && now < locksAt
        && r == MarketCreated(s.nextMarketId)
        && s' == CreateMarketEffect(s, matchId, marketType, title, labels, locksAt, now)
      case PlaceBet(marketId, optionId, amount) =>
        && BetAccepted(s, caller, marketId, optionId, amount, now)
        && r == BetPlaced(s.nextBetId, QuotedOdds(s.markets[marketId].options, optionId, amount))
        && s' == PlaceBetEffect(s, caller, marketId, optionId, amount, now)
      case LockMarket(marketId) =>
        && marketId in s.markets && s.markets[marketId].status == Open
        && r == MarketLocked(marketId)
        && s' == LockEffect(s, marketId)
      case ResolveMarket(marketId, winningOption) =>
        && marketId in s.markets && s.markets[marketId].status != Resolved
        && winningOption < |s.markets[marketId].options|
        && r == MarketResolved(marketId, winningOption)
        && s' == ResolveEffect(s, marketId, winningOption)
      case CancelMarket(marketId) =>
        && marketId in s.markets && s.markets[marketId].status != Resolved
        && r == MarketCancelled(marketId)
        && s' == CancelEffect(s, marketId)
      case ClaimWinnings(betId) =>
        && ClaimAccepted(s, caller, betId)
        && s.feeRateBps <= BPS_SCALE
        && s.markets[s.bets[betId].marketId].winningOption.Some?
        && r == WinningsClaimed(betId, ClaimPayout(s.bets[betId], s.markets[s.bets[betId].marketId].winningOption.value, s.feeRateBps))
        && s' == ClaimEffect(s, caller, betId)
      case Deposit(amount) =>
        && r == Deposited(amount, BalanceOf(s.balances, caller) + amount)
        && s' == DepositEffect(s, caller, amount)
      case Withdraw(amount) =>
        && amount <= BalanceOf(s.balances, caller)
        && r == Withdrawn(amount, BalanceOf(s.balances, caller) - amount)
        && s' == WithdrawEffect(s, caller, amount)
  }

  /**
   * No step of execute_operation deletes or re-prices a bet or touches a
   * settled one, so every bet is settled at most once over any run.
   */
  lemma StepKeepsHistory(s: Store, op: Operation, caller: Owner, now: Timestamp, r: OperationResponse, s': Store)
    requires Inv(s) && Step(s, op, caller, now, r, s')
    ensures BetHistoryKept(s.bets, s'.bets)
  {
    if !r.Error? {
      match op
      case PlaceBet(marketId, optionId, amount) =>
        PlaceBetKeepsHistory(s, caller, marketId, optionId, amount, now);
      case CancelMarket(marketId) =>
        CancelKeepsHistory(s, marketId);
      case ClaimWinnings(betId) =>
        ClaimKeepsHistory(s, caller, betId);
      case _ =>
        assert s'.bets == s.bets;
    }
  }

  /**
   * Every step of execute_operation keeps the store invariant, answers
   * with an Error or the operation's own response, and keeps the bet
   * history.
   */
  lemma StepKeepsInv(s: Store, op: Operation, caller: Owner, now: Timestamp, r: OperationResponse, s': Store)
    requires Inv(s) && Step(s, op, caller, now, r, s')
    ensures Inv(s')
    ensures r.Error? || RespondsTo(op, r)
    ensures BetHistoryKept(s.bets, s'.bets)
  {
    StepKeepsHistory(s, op, caller, now, r, s');
    if !r.Error? {
      match op
      case CreateMarket(matchId, marketType, title, labels, locksAt) =>
        CreateMarketKeepsInv(s, matchId, marketType, title, labels, locksAt, now);
      case PlaceBet(marketId, optionId, amount) =>
        PlaceBetKeepsInv(s, caller, marketId, optionId, amount, now);
      case LockMarket(marketId) =>
        LockKeepsInv(s, marketId);
      case ResolveMarket(marketId, winningOption) =>
        ResolveKeepsInv(s, marketId, winningOption);
      case CancelMarket(marketId) =>
        CancelKeepsInv(s, marketId);
      case ClaimWinnings(betId) =>
        ClaimKeepsInv(s, caller, betId);
      case Deposit(amount) =>
        LedgerKeepsInv(s, s'.balances, s.protocolFees);
      case Withdraw(amount) =>
        LedgerKeepsInv(s, s'.balances, s.protocolFees);
    }
  }
}
