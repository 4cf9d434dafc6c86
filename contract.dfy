/**
 * The Live Play Predictor contract: instantiation and the eight operation
 * handlers, each updating the contract state in place.  Every handler
 * checks its inputs in a fixed order and answers the first failed check
 * with an Error response, leaving the state untouched; on success it
 * produces exactly the effect defined in effects.dfy, so the state
 * invariant holds after every operation.
 *
 * The caller's identity and the current time are parameters: the
 * original reads them from the runtime (the chain id) and the system
 * clock.  No market operation checks who the caller is, so any caller may
 * create, lock, resolve or cancel any market; only claim_winnings compares
 * the caller with the bet's owner.
 */
module Contract {
  import opened Types
  import opened Odds
  import opened State
  import opened Effects

  const ERR_OPTION_COUNT := "Market must have 2-10 options"
  const ERR_LOCK_TIME := "Lock time must be in the future"
  const ERR_ZERO_AMOUNT := "Bet amount must be greater than 0"
  const ERR_INSUFFICIENT := "Insufficient balance"
  const ERR_MARKET_NOT_FOUND := "Market not found"
  const ERR_NOT_OPEN_FOR_BETTING := "Market is not open for betting"
  const ERR_LOCKED := "Market has been locked"
  const ERR_INVALID_OPTION := "Invalid option"
  const ERR_NOT_OPEN := "Market is not open"
  const ERR_ALREADY_RESOLVED := "Market already resolved"
  const ERR_INVALID_WINNING := "Invalid winning option"
  const ERR_CANNOT_CANCEL := "Cannot cancel resolved market"
  const ERR_BET_NOT_FOUND := "Bet not found"
  const ERR_NOT_YOUR_BET := "Not your bet"
  const ERR_ALREADY_SETTLED := "Bet already settled"
  const ERR_NOT_RESOLVED := "Market not yet resolved"

  class LivePredictContract {
    const state: LivePredictState

    ghost predicate Valid()
      reads this, state
    {
      state.Valid()
    }

    /**
     * Instantiation with a fee rate in basis points: counters start at 1,
     * registers at 0, the active list empty.  A fee rate above 5% aborts
     * the instantiation.
     */
    constructor Instantiate(feeRateBps: nat)
      requires feeRateBps <= MAX_FEE_BPS
      ensures fresh(state) && Valid()
      ensures state.Snapshot() == Store(1, 1, map[], map[], map[], map[], map[], [], 0, feeRateBps, 0)
    {
      state := new LivePredictState();
      new;
      state.feeRateBps := feeRateBps;
      state.nextMarketId := 1;
      state.nextBetId := 1;
      state.totalVolume := 0;
      state.protocolFees := 0;
      state.activeMarkets := [];
    }

    /** Opens a new market with one empty option per label, locking at `locksAt`. */
    method CreateMarket(matchId: string, marketType: string, title: string, labels: seq<string>,
                        locksAt: Timestamp, now: Timestamp) returns (r: OperationResponse)
      modifies state
      ensures !(MIN_OPTIONS <= |labels| <= MAX_OPTIONS) ==> r == Error(ERR_OPTION_COUNT)
      ensures MIN_OPTIONS <= |labels| <= MAX_OPTIONS && locksAt <= now ==> r == Error(ERR_LOCK_TIME)
      ensures r.Error? <==> !(MIN_OPTIONS <= |labels| <= MAX_OPTIONS && now < locksAt)
      ensures r.Error? ==> unchanged(state)
      ensures MIN_OPTIONS <= |labels| <= MAX_OPTIONS && now < locksAt ==>
                && r == MarketCreated(old(state.nextMarketId))
                && state.Snapshot() == CreateMarketEffect(old(state.Snapshot()), matchId, marketType, title, labels, locksAt, now)
    {
      if |labels| < MIN_OPTIONS || |labels| > MAX_OPTIONS {
        return Error(ERR_OPTION_COUNT);
      }
      if locksAt <= now {
        return Error(ERR_LOCK_TIME);
      }
      var marketId := state.AllocateMarketId();
      var market := Market(marketId, matchId, marketType, title, OptionsFromLabels(labels), Open, now, locksAt, None);
      state.markets := state.markets[marketId := market];
      state.AddActiveMarket(marketId);
      r := MarketCreated(marketId);
    }

    /** Stakes `amount` of the caller's balance on one option, at odds fixed now. */
    method PlaceBet(caller: Owner, marketId: MarketId, optionId: nat, amount: Amount, now: Timestamp)
      returns (r: OperationResponse)
      modifies state
      ensures amount == 0 ==> r == Error(ERR_ZERO_AMOUNT)
      ensures amount > 0 && BalanceOf(old(state.balances), caller) < amount ==> r == Error(ERR_INSUFFICIENT)
      ensures amount > 0 && BalanceOf(old(state.balances), caller) >= amount && marketId !in old(state.markets) ==>
                r == Error(ERR_MARKET_NOT_FOUND)
      ensures amount > 0 && BalanceOf(old(state.balances), caller) >= amount && marketId in old(state.markets) ==>
                var m := old(state.markets)[marketId];
                && (m.status != Open ==> r == Error(ERR_NOT_OPEN_FOR_BETTING))
                && (m.status == Open && now >= m.locksAt ==> r == Error(ERR_LOCKED))
                && (m.status == Open && now < m.locksAt && optionId >= |m.options| ==> r == Error(ERR_INVALID_OPTION))
      ensures r.Error? <==> !BetAccepted(old(state.Snapshot()), caller, marketId, optionId, amount, now)
      ensures r.Error? ==> unchanged(state)
      ensures BetAccepted(old(state.Snapshot()), caller, marketId, optionId, amount, now) ==>
                && r == BetPlaced(old(state.nextBetId), QuotedOdds(old(state.markets)[marketId].options, optionId, amount))
                && state.Snapshot() == PlaceBetEffect(old(state.Snapshot()), caller, marketId, optionId, amount, now)
    {
      if amount == 0 {
        return Error(ERR_ZERO_AMOUNT);
      }
      var balance := state.GetBalance(caller);
      if balance < amount {
        return Error(ERR_INSUFFICIENT);
      }
      var found := state.GetMarket(marketId);
      if found.None? {
        return Error(ERR_MARKET_NOT_FOUND);
      }
      var market := found.value;
      if market.status != Open {
        return Error(ERR_NOT_OPEN_FOR_BETTING);
      }
      if now >= market.locksAt {
        return Error(ERR_LOCKED);
      }
      if optionId >= |market.options| {
        return Error(ERR_INVALID_OPTION);
      }
      var totalPool := TotalPool(market.options);
      var odds := CalculateOdds(totalPool + amount, market.options[optionId].pool + amount);
      state.SetBalance(caller, balance - amount);
      market := market.(options := AddStake(market.options, optionId, amount));
      var betId := RecordBet(caller, marketId, market, optionId, amount, odds, now);
      r := BetPlaced(betId, odds);
    }

    /**
     * The bookkeeping half of place_bet, once the stake is debited: takes
     * the next bet id, stores the bet and the market with its grown pool,
     * appends the bet to its owner's and its market's lists, and adds the
     * stake to the total volume.
     */
    method RecordBet(caller: Owner, marketId: MarketId, market: Market, optionId: nat, amount: Amount, odds: nat, now: Timestamp)
      returns (betId: BetId)
      modifies state
      ensures betId == old(state.nextBetId)
      ensures state.Snapshot() == old(state.Snapshot()).(
                nextBetId := betId + 1,
                bets := old(state.bets)[betId := Bet(betId, caller, marketId, optionId, amount, odds, now, false, None)],
                markets := old(state.markets)[marketId := market],
                userBets := old(state.userBets)[caller := IdsFor(old(state.userBets), caller) + [betId]],
                marketBets := old(state.marketBets)[marketId := IdsFor(old(state.marketBets), marketId) + [betId]],
                totalVolume := old(state.totalVolume) + amount)
    {
      betId := state.AllocateBetId();
      var bet := Bet(betId, caller, marketId, optionId, amount, odds, now, false, None);
      state.bets := state.bets[betId := bet];
      state.markets := state.markets[marketId := market];
      state.AddUserBet(caller, betId);
      state.AddMarketBet(marketId, betId);
      state.totalVolume := state.totalVolume + amount;
    }

    /** Stops betting on an Open market. */
    method LockMarket(marketId: MarketId) returns (r: OperationResponse)
      modifies state
      ensures marketId !in old(state.markets) ==> r == Error(ERR_MARKET_NOT_FOUND)
      ensures marketId in old(state.markets) && old(state.markets)[marketId].status != Open ==> r == Error(ERR_NOT_OPEN)
      ensures r.Error? <==> !(marketId in old(state.markets) && old(state.markets)[marketId].status == Open)
      ensures r.Error? ==> unchanged(state)
      ensures marketId in old(state.markets) && old(state.markets)[marketId].status == Open ==>
                r == MarketLocked(marketId) && state.Snapshot() == LockEffect(old(state.Snapshot()), marketId)
    {
      var found := state.GetMarket(marketId);
      if found.None? {
        return Error(ERR_MARKET_NOT_FOUND);
      }
      var market := found.value;
      if market.status != Open {
        return Error(ERR_NOT_OPEN);
      }
      market := market.(status := Locked);
      state.markets := state.markets[marketId := market];
      state.RemoveActiveMarket(marketId);
      r := MarketLocked(marketId);
    }

    /** Declares the winning option of any market not yet resolved (Open, Locked or Cancelled). */
    method ResolveMarket(marketId: MarketId, winningOption: nat) returns (r: OperationResponse)
      modifies state
      ensures marketId !in old(state.markets) ==> r == Error(ERR_MARKET_NOT_FOUND)
      ensures marketId in old(state.markets) && old(state.markets)[marketId].status == Resolved ==>
                r == Error(ERR_ALREADY_RESOLVED)
      ensures (marketId in old(state.markets) && old(state.markets)[marketId].status != Resolved
               && winningOption >= |old(state.markets)[marketId].options|) ==> r == Error(ERR_INVALID_WINNING)
      ensures r.Error? <==> !(marketId in old(state.markets) && old(state.markets)[marketId].status != Resolved
                              && winningOption < |old(state.markets)[marketId].options|)
      ensures r.Error? ==> unchanged(state)
      ensures (marketId in old(state.markets) && old(state.markets)[marketId].status != Resolved
               && winningOption < |old(state.markets)[marketId].options|) ==>
                && r == MarketResolved(marketId, winningOption)
                && state.Snapshot() == ResolveEffect(old(state.Snapshot()), marketId, winningOption)
    {
      var found := state.GetMarket(marketId);
      if found.None? {
        return Error(ERR_MARKET_NOT_FOUND);
      }
      var market := found.value;
      if market.status == Resolved {
        return Error(ERR_ALREADY_RESOLVED);
      }
      if winningOption >= |market.options| {
        return Error(ERR_INVALID_WINNING);
      }
      market := market.(status := Resolved, winningOption := Some(winningOption));
      state.markets := state.markets[marketId := market];
      state.RemoveActiveMarket(marketId);
      r := MarketResolved(marketId, winningOption);
    }

    /**
     * The refund loop of cancel_market: walks the market's bet list in
     * order and refunds each stored bet that is not yet settled, crediting
     * its amount to its owner.  A bet already settled (claimed, or listed
     * twice) is skipped.
     */
    method RefundBets(ids: seq<BetId>)
      modifies state`bets, state`balances
      ensures (state.bets, state.balances) == RefundFold(old(state.bets), old(state.balances), ids)
    {
      ghost var bets0 := state.bets;
      ghost var balances0 := state.balances;
      for i := 0 to |ids|
        invariant (state.bets, state.balances) == RefundFold(bets0, balances0, ids[..i])
      {
        RefundFoldStep(bets0, balances0, ids, i);
        var betId := ids[i];
        var bet := state.GetBet(betId);
        if bet.Some? && !bet.value.settled {
          var owner := bet.value.owner;
          var balance := state.GetBalance(owner);
          state.SetBalance(owner, balance + bet.value.amount);
          state.bets := state.bets[betId := bet.value.(settled := true, payout := Some(bet.value.amount))];
        }
      }
      assert ids[..|ids|] == ids;
    }

    /** Cancels a market that is not resolved, refunding every unsettled bet on it. */
    method CancelMarket(marketId: MarketId) returns (r: OperationResponse)
      modifies state
      ensures marketId !in old(state.markets) ==> r == Error(ERR_MARKET_NOT_FOUND)
      ensures marketId in old(state.markets) && old(state.markets)[marketId].status == Resolved ==>
                r == Error(ERR_CANNOT_CANCEL)
      ensures r.Error? <==> !(marketId in old(state.markets) && old(state.markets)[marketId].status != Resolved)
      ensures r.Error? ==> unchanged(state)
      ensures marketId in old(state.markets) && old(state.markets)[marketId].status != Resolved ==>
                r == MarketCancelled(marketId) && state.Snapshot() == CancelEffect(old(state.Snapshot()), marketId)
    {
      var found := state.GetMarket(marketId);
      if found.None? {
        return Error(ERR_MARKET_NOT_FOUND);
      }
      var market := found.value;
      if market.status == Resolved {
        return Error(ERR_CANNOT_CANCEL);
      }
      RefundBets(IdsFor(state.marketBets, marketId));
      market := market.(status := Cancelled);
      state.markets := state.markets[marketId := market];
      state.RemoveActiveMarket(marketId);
      r := MarketCancelled(marketId);
    }

    /**
     * Settles one of the caller's bets on a resolved market, crediting the
     * payout if it won.  A resolved market always records its winner and
     * the fee rate never exceeds 5% (both part of the state invariant).
     */
    method ClaimWinnings(caller: Owner, betId: BetId) returns (r: OperationResponse)
      requires forall m :: m in state.markets && state.markets[m].status == Resolved ==> state.markets[m].winningOption.Some?
      requires state.feeRateBps <= MAX_FEE_BPS
      modifies state
      ensures betId !in old(state.bets) ==> r == Error(ERR_BET_NOT_FOUND)
      ensures betId in old(state.bets) ==>
                var b := old(state.bets)[betId];
                && (b.owner != caller ==> r == Error(ERR_NOT_YOUR_BET))
                && (b.owner == caller && b.settled ==> r == Error(ERR_ALREADY_SETTLED))
                && (b.owner == caller && !b.settled && b.marketId !in old(state.markets) ==>
                      r == Error(ERR_MARKET_NOT_FOUND))
                && ((b.owner == caller && !b.settled && b.marketId in old(state.markets)
                     && old(state.markets)[b.marketId].status != Resolved) ==> r == Error(ERR_NOT_RESOLVED))
      ensures r.Error? <==> !ClaimAccepted(old(state.Snapshot()), caller, betId)
      ensures r.Error? ==> unchanged(state)
      ensures ClaimAccepted(old(state.Snapshot()), caller, betId) ==>
                var b := old(state.bets)[betId];
                var m := old(state.markets)[b.marketId];
                && m.winningOption.Some?
                && r == WinningsClaimed(betId, ClaimPayout(b, m.winningOption.value, old(state.feeRateBps)))
                && state.Snapshot() == ClaimEffect(old(state.Snapshot()), caller, betId)
    {
      var found := state.GetBet(betId);
      if found.None? {
        return Error(ERR_BET_NOT_FOUND);
      }
      var bet := found.value;
      if bet.owner != caller {
        return Error(ERR_NOT_YOUR_BET);
      }
      if bet.settled {
        return Error(ERR_ALREADY_SETTLED);
      }
      var foundMarket := state.GetMarket(bet.marketId);
      if foundMarket.None? {
        return Error(ERR_MARKET_NOT_FOUND);
      }
      var market := foundMarket.value;
      if market.status != Resolved {
        return Error(ERR_NOT_RESOLVED);
      }
      var winningOption := market.winningOption.value;
      var feeRate := state.feeRateBps;
      var payout := if bet.optionId == winningOption then CalculatePayout(bet.amount, bet.odds, feeRate) else 0;
      if payout > 0 {
        var balance := state.GetBalance(caller);
        state.SetBalance(caller, balance + payout);
        var gross := GrossPayout(bet.amount, bet.odds);
        var fee := gross - payout;
        state.protocolFees := state.protocolFees + fee;
      }
      bet := bet.(settled := true, payout := Some(payout));
      state.bets := state.bets[betId := bet];
      r := WinningsClaimed(betId, payout);
    }

    /** Credits the caller's balance. */
    method Deposit(caller: Owner, amount: Amount) returns (r: OperationResponse)
      modifies state
      ensures r == Deposited(amount, BalanceOf(old(state.balances), caller) + amount)
      ensures state.Snapshot() == DepositEffect(old(state.Snapshot()), caller, amount)
    {
      var balance := state.GetBalance(caller);
      var newBalance := balance + amount;
      state.SetBalance(caller, newBalance);
      r := Deposited(amount, newBalance);
    }

    /** Debits the caller's balance if it covers the amount. */
    method Withdraw(caller: Owner, amount: Amount) returns (r: OperationResponse)
      modifies state
      ensures BalanceOf(old(state.balances), caller) < amount ==> r == Error(ERR_INSUFFICIENT) && unchanged(state)
      ensures r.Error? <==> BalanceOf(old(state.balances), caller) < amount
      ensures amount <= BalanceOf(old(state.balances), caller) ==>
                && r == Withdrawn(amount, BalanceOf(old(state.balances), caller) - amount)
                && state.Snapshot() == WithdrawEffect(old(state.Snapshot()), caller, amount)
    {
      var balance := state.GetBalance(caller);
      if balance < amount {
        return Error(ERR_INSUFFICIENT);
      }
      var newBalance := balance - amount;
      state.SetBalance(caller, newBalance);
      r := Withdrawn(amount, newBalance);
    }

    /**
     * execute_operation: dispatches an operation to its handler.  The
     * answer is an Error with the state as it was exactly when one of the
     * operation's checks fails, and otherwise the operation's success
     * response with the state its effect gives.
     */
    method ExecuteOperation(op: Operation, caller: Owner, now: Timestamp) returns (r: OperationResponse)
      requires forall m :: m in state.markets && state.markets[m].status == Resolved ==> state.markets[m].winningOption.Some?
      requires state.feeRateBps <= MAX_FEE_BPS
      modifies state
      ensures Step(old(state.Snapshot()), op, caller, now, r, state.Snapshot())
      ensures r.Error? <==> !Accepted(old(state.Snapshot()), op, caller, now)
    {
      match op {
      case CreateMarket(matchId, marketType, title, labels, locksAt) =>
        r := CreateMarket(matchId, marketType, title, labels, locksAt, now);
      case PlaceBet(marketId, optionId, amount) =>
        r := PlaceBet(caller, marketId, optionId, amount, now);
      case LockMarket(marketId) =>
        r := LockMarket(marketId);
      case ResolveMarket(marketId, winningOption) =>
        r := ResolveMarket(marketId, winningOption);
      case CancelMarket(marketId) =>
        r := CancelMarket(marketId);
      case ClaimWinnings(betId) =>
        r := ClaimWinnings(caller, betId);
      case Deposit(amount) =>
        r := Deposit(caller, amount);
      case Withdraw(amount) =>
        r := Withdraw(caller, amount);
      }
    }

    /**
     * An operation executed on a valid state leaves a valid state, and is
     * answered with an Error or the success response of that operation.
     */
    method Execute(op: Operation, caller: Owner, now: Timestamp) returns (r: OperationResponse)
      requires Valid()
      modifies state
      ensures Valid()
      ensures Step(old(state.Snapshot()), op, caller, now, r, state.Snapshot())
      ensures r.Error? <==> !Accepted(old(state.Snapshot()), op, caller, now)
      ensures r.Error? || RespondsTo(op, r)
      ensures BetHistoryKept(old(state.bets), state.bets)
    {
      ghost var s0 := state.Snapshot();
      assert forall m :: m in s0.markets ==> WellFormedMarket(s0.markets[m]);
      r := ExecuteOperation(op, caller, now);
      StepKeepsInv(s0, op, caller, now, r, state.Snapshot());
    }
  }
}
