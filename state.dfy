/**
 * The contract's persistent state: id counters, the market, bet and
 * balance maps, the per-user and per-market bet indices, the list of
 * active markets and the volume, fee-rate and fee registers, together
 * with the store helpers that update them in place.  The invariant that
 * every operation preserves is stated over the values of these fields.
 */
module State {
  import opened Types
  import opened Odds

  /** The id list stored under `k`, or the empty list when there is no entry. */
  function IdsFor<K>(index: map<K, seq<BetId>>, k: K): (ids: seq<BetId>)
    ensures k !in index ==> ids == []
    ensures k in index ==> ids == index[k]
  {
    if k in index then index[k] else []
  }

  ghost predicate Distinct<T>(s: seq<T>)
  {
    forall i, j :: 0 <= i < j < |s| ==> s[i] != s[j]
  }

  // ---------------------------------------------------------------------
  // Removing every occurrence of an id while keeping the others in order

  /** `s` without any occurrence of `x`, the remaining elements in their original order. */
  function RemoveAll(s: seq<MarketId>, x: MarketId): (r: seq<MarketId>)
    ensures |r| <= |s|
  {
    if s == [] then []
    else (if s[0] == x then [] else [s[0]]) + RemoveAll(s[1..], x)
  }

  /** Exactly the elements other than `x` survive. */
  lemma {:induction false} RemoveAllMembers(s: seq<MarketId>, x: MarketId)
    ensures forall y :: y in RemoveAll(s, x) <==> y in s && y != x
  {
    if s != [] {
      RemoveAllMembers(s[1..], x);
      assert s == [s[0]] + s[1..];
    }
  }

  /** Removal distributes over concatenation, so relative order is kept. */
  lemma {:induction false} RemoveAllAppend(a: seq<MarketId>, b: seq<MarketId>, x: MarketId)
    ensures RemoveAll(a + b, x) == RemoveAll(a, x) + RemoveAll(b, x)
  {
    if a == [] {
      assert a + b == b;
    } else {
      assert (a + b)[1..] == a[1..] + b;
      RemoveAllAppend(a[1..], b, x);
    }
  }

  /** Removing an id that is not there changes nothing. */
  lemma {:induction false} RemoveAllAbsent(s: seq<MarketId>, x: MarketId)
    requires x !in s
    ensures RemoveAll(s, x) == s
  {
    if s != [] {
      RemoveAllAbsent(s[1..], x);
      assert s == [s[0]] + s[1..];
    }
  }

  /** Removal keeps a list free of duplicates. */
  lemma {:induction false} RemoveAllDistinct(s: seq<MarketId>, x: MarketId)
    requires Distinct(s)
    ensures Distinct(RemoveAll(s, x))
  {
    if s != [] {
      var rest := RemoveAll(s[1..], x);
      RemoveAllDistinct(s[1..], x);
      RemoveAllMembers(s[1..], x);
      if s[0] != x {
        forall j | 0 <= j < |rest| ensures rest[j] != s[0] {
          assert rest[j] in rest;
          var k :| 0 <= k < |s[1..]| && s[1..][k] == rest[j];
          assert s[k + 1] == rest[j];
        }
        assert RemoveAll(s, x) == [s[0]] + rest;
      }
    }
  }

  // ---------------------------------------------------------------------
  // Stakes recorded in bets

  /** The stake bet `id` places on option `optionId` (0 if it is absent or on another option). */
  function StakeOf(bets: map<BetId, Bet>, id: BetId, optionId: nat): Amount
  {
    if id in bets && bets[id].optionId == optionId then bets[id].amount else 0
  }

  /** Total stake on option `optionId` over the bets listed in `ids`. */
  function OptionStake(ids: seq<BetId>, bets: map<BetId, Bet>, optionId: nat): Amount
  {
    if ids == [] then 0
    else OptionStake(ids[..|ids| - 1], bets, optionId) + StakeOf(bets, ids[|ids| - 1], optionId)
  }

  /** Two bet maps that agree on the listed bets' stakes give the same option stake. */
  lemma {:induction false} OptionStakeFrame(ids: seq<BetId>, b1: map<BetId, Bet>, b2: map<BetId, Bet>, optionId: nat)
    requires forall j :: 0 <= j < |ids| ==> StakeOf(b1, ids[j], optionId) == StakeOf(b2, ids[j], optionId)
    ensures OptionStake(ids, b1, optionId) == OptionStake(ids, b2, optionId)
  {
    if ids != [] {
      OptionStakeFrame(ids[..|ids| - 1], b1, b2, optionId);
    }
  }

  /** The amount of bet `id`, 0 if there is none. */
  function AmountAt(bets: map<BetId, Bet>, id: BetId): Amount
  {
    if id in bets then bets[id].amount else 0
  }

  /** Sum of the amounts of bets 1 .. n-1. */
  function Volume(bets: map<BetId, Bet>, n: nat): Amount
  {
    if n <= 1 then 0 else Volume(bets, n - 1) + AmountAt(bets, n - 1)
  }

  /** Two bet maps that agree on the amounts of bets 1 .. n-1 have the same volume up to n. */
  lemma {:induction false} VolumeFrame(b1: map<BetId, Bet>, b2: map<BetId, Bet>, n: nat)
    requires forall i :: 1 <= i < n ==> AmountAt(b1, i) == AmountAt(b2, i)
    ensures Volume(b1, n) == Volume(b2, n)
  {
    if n > 1 {
      VolumeFrame(b1, b2, n - 1);
    }
  }

  // ---------------------------------------------------------------------
  // The state invariant, over values

  /** Every stored market is keyed by its own id, was allocated, and is well formed. */
  ghost predicate MarketsInv(markets: map<MarketId, Market>, nextMarketId: nat)
  {
    forall k :: k in markets ==> markets[k].id == k && 1 <= k < nextMarketId && WellFormedMarket(markets[k])
  }

  /** A stored bet refers to an existing market and option, with locked-in odds of at most 10x. */
  ghost predicate BetFits(b: Bet, k: BetId, markets: map<MarketId, Market>)
  {
    && b.id == k
    && b.marketId in markets
    && b.optionId < |markets[b.marketId].options|
    && PayoutMatchesSettled(b)
    && b.odds <= MAX_ODDS
  }

  /** Bet ids 1 .. nextBetId-1 are exactly the stored bets, and each fits its market. */
  ghost predicate BetsInv(bets: map<BetId, Bet>, nextBetId: nat, markets: map<MarketId, Market>)
  {
    && 1 <= nextBetId
    && (forall k :: k in bets <==> 1 <= k < nextBetId)
    && (forall k :: k in bets ==> BetFits(bets[k], k, markets))
  }

  /** Each market's bet list holds, without repetition, exactly the bets on that market. */
  ghost predicate MarketIndexInv(marketBets: map<MarketId, seq<BetId>>, bets: map<BetId, Bet>, markets: map<MarketId, Market>)
  {
    && (forall m :: m in marketBets ==> m in markets && Distinct(marketBets[m]))
    && (forall m, j :: m in marketBets && 0 <= j < |marketBets[m]| ==>
          marketBets[m][j] in bets && bets[marketBets[m][j]].marketId == m)
    && (forall k :: k in bets ==> k in IdsFor(marketBets, bets[k].marketId))
  }

  /** Each owner's bet list holds, without repetition, exactly the bets that owner placed. */
  ghost predicate UserIndexInv(userBets: map<Owner, seq<BetId>>, bets: map<BetId, Bet>)
  {
    && (forall o :: o in userBets ==> Distinct(userBets[o]))
    && (forall o, j :: o in userBets && 0 <= j < |userBets[o]| ==>
          userBets[o][j] in bets && bets[userBets[o][j]].owner == o)
    && (forall k :: k in bets ==> k in IdsFor(userBets, bets[k].owner))
  }

  /** Every option's pool is the sum of the stakes placed on it. */
  ghost predicate PoolsInv(markets: map<MarketId, Market>, marketBets: map<MarketId, seq<BetId>>, bets: map<BetId, Bet>)
  {
    forall m, i :: m in markets && 0 <= i < |markets[m].options| ==>
      markets[m].options[i].pool == OptionStake(IdsFor(marketBets, m), bets, i)
  }

  /** The active list holds, without repetition, exactly the Open markets. */
  ghost predicate ActiveInv(active: seq<MarketId>, markets: map<MarketId, Market>)
  {
    && Distinct(active)
    && (forall j :: 0 <= j < |active| ==> active[j] in markets && markets[active[j]].status == Open)
    && (forall k :: k in markets && markets[k].status == Open ==> k in active)
  }

  /** An owner's balance in a balance map; an owner without an entry has 0. */
  function BalanceOf(balances: map<Owner, Amount>, owner: Owner): (balance: Amount)
    ensures owner !in balances ==> balance == 0
    ensures owner in balances ==> balance == balances[owner]
  {
    if owner in balances then balances[owner] else 0
  }

  /** The values of every field of the state, as one record. */
  datatype Store = Store(
    nextMarketId: MarketId,
    nextBetId: BetId,
    markets: map<MarketId, Market>,
    bets: map<BetId, Bet>,
    balances: map<Owner, Amount>,
    userBets: map<Owner, seq<BetId>>,
    marketBets: map<MarketId, seq<BetId>>,
    activeMarkets: seq<MarketId>,
    totalVolume: Amount,
    feeRateBps: nat,
    protocolFees: Amount)

  /**
   * The invariant every operation preserves: the maps agree with each
   * other, pools and the volume register equal the stakes recorded in
   * bets, and the fee rate is within the instantiation bound.
   */
  ghost predicate Inv(s: Store)
  {
    && 1 <= s.nextMarketId
    && MarketsInv(s.markets, s.nextMarketId)
    && BetsInv(s.bets, s.nextBetId, s.markets)
    && MarketIndexInv(s.marketBets, s.bets, s.markets)
    && UserIndexInv(s.userBets, s.bets)
    && PoolsInv(s.markets, s.marketBets, s.bets)
    && ActiveInv(s.activeMarkets, s.markets)
    && s.totalVolume == Volume(s.bets, s.nextBetId)
    && s.feeRateBps <= MAX_FEE_BPS
  }

  class LivePredictState {
    var nextMarketId: MarketId
    var nextBetId: BetId
    var markets: map<MarketId, Market>
    var bets: map<BetId, Bet>
    var balances: map<Owner, Amount>
    var userBets: map<Owner, seq<BetId>>
    var marketBets: map<MarketId, seq<BetId>>
    var activeMarkets: seq<MarketId>
    var totalVolume: Amount
    var feeRateBps: nat
    var protocolFees: Amount

    /** The current values of all fields. */
    ghost function Snapshot(): Store
      reads this
    {
      Store(nextMarketId, nextBetId, markets, bets, balances, userBets, marketBets,
            activeMarkets, totalVolume, feeRateBps, protocolFees)
    }

    ghost predicate Valid()
      reads this
    {
      Inv(Snapshot())
    }

    /** Freshly loaded, never instantiated storage: every register zero, every map empty. */
    constructor ()
      ensures nextMarketId == 0 && nextBetId == 0
      ensures markets == map[] && bets == map[] && balances == map[]
      ensures userBets == map[] && marketBets == map[] && activeMarkets == []
      ensures totalVolume == 0 && feeRateBps == 0 && protocolFees == 0
    {
      nextMarketId, nextBetId := 0, 0;
      markets, bets, balances := map[], map[], map[];
      userBets, marketBets, activeMarkets := map[], map[], [];
      totalVolume, feeRateBps, protocolFees := 0, 0, 0;
    }

    /** Hands out the current market id and advances the counter by one. */
    method AllocateMarketId() returns (id: MarketId)
      modifies this`nextMarketId
      ensures id == old(nextMarketId) && nextMarketId == id + 1
    {
      id := nextMarketId;
      nextMarketId := id + 1;
    }

    /** Hands out the current bet id and advances the counter by one. */
    method AllocateBetId() returns (id: BetId)
      modifies this`nextBetId
      ensures id == old(nextBetId) && nextBetId == id + 1
    {
      id := nextBetId;
      nextBetId := id + 1;
    }

    /** The stored market with this id, if any. */
    function GetMarket(marketId: MarketId): (r: Option<Market>)
      reads this
      ensures r.Some? <==> marketId in markets
      ensures r.Some? ==> r.value == markets[marketId]
    {
      if marketId in markets then Some(markets[marketId]) else None
    }

    /** The stored bet with this id, if any. */
    function GetBet(betId: BetId): (r: Option<Bet>)
      reads this
      ensures r.Some? <==> betId in bets
      ensures r.Some? ==> r.value == bets[betId]
    {
      if betId in bets then Some(bets[betId]) else None
    }

    /** An owner's balance; an owner without an entry has balance 0. */
    function GetBalance(owner: Owner): (balance: Amount)
      reads this
      ensures owner !in balances ==> balance == 0
      ensures owner in balances ==> balance == balances[owner]
    {
      BalanceOf(balances, owner)
    }

    /** Overwrites one owner's balance; every other owner's balance is unchanged. */
    method SetBalance(owner: Owner, amount: Amount)
      modifies this`balances
      ensures balances == old(balances)[owner := amount]
      ensures GetBalance(owner) == amount
      ensures forall o :: o != owner ==> GetBalance(o) == old(GetBalance(o))
    {
      balances := balances[owner := amount];
    }

    /** Appends a bet id to the owner's list, starting an empty list if there is none. */
    method AddUserBet(owner: Owner, betId: BetId)
      modifies this`userBets
      ensures userBets == old(userBets)[owner := IdsFor(old(userBets), owner) + [betId]]
    {
      var ids := IdsFor(userBets, owner);
      userBets := userBets[owner := ids + [betId]];
    }

    /** Appends a bet id to the market's list, starting an empty list if there is none. */
    method AddMarketBet(marketId: MarketId, betId: BetId)
      modifies this`marketBets
      ensures marketBets == old(marketBets)[marketId := IdsFor(old(marketBets), marketId) + [betId]]
    {
      var ids := IdsFor(marketBets, marketId);
      marketBets := marketBets[marketId := ids + [betId]];
    }

    /** Appends a market id to the active list. */
    method AddActiveMarket(marketId: MarketId)
      modifies this`activeMarkets
      ensures activeMarkets == old(activeMarkets) + [marketId]
    {
      activeMarkets := activeMarkets + [marketId];
    }

    /** Drops every occurrence of a market id from the active list, keeping the rest in order. */
    method RemoveActiveMarket(marketId: MarketId)
      modifies this`activeMarkets
      ensures activeMarkets == RemoveAll(old(activeMarkets), marketId)
      ensures forall k :: k in activeMarkets <==> k in old(activeMarkets) && k != marketId
    {
      RemoveAllMembers(activeMarkets, marketId);
      activeMarkets := RemoveAll(activeMarkets, marketId);
    }
  }
}
