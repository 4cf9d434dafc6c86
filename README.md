# Live Play Predictor betting contract, modelled in Dafny

The Live Play Predictor contract is an on-chain betting ledger for live
e-sports matches. Anyone may open a **market** on a match, with between 2
and 10 **options**. Owners deposit tokens into a single balance each. A
**bet** moves a stake from that balance into one option's pool. The odds
(scaled by 1000) are fixed when the bet is placed, as
`total_pool / option_pool` computed with the new stake included, capped at
10x. Because the stake is included and must be positive, a bet never takes
the fixed 2x default that `calculate_odds` gives an empty pool; only a
zero-amount payout quote on an empty option reports 2x.

A market moves from Open to Locked, Resolved or Cancelled:
- Resolving records the winning option but pays nobody.
- Each owner claims each winning bet separately. The claim credits the
  gross payout `amount·odds/1000`, less a protocol fee in basis points
  taken on that gross amount.
- Cancelling refunds every still-unsettled bet on the market.

Every bet is settled at most once, either by its refund or by its claim.
Read-only queries quote a prospective payout and list the active markets,
the markets of a match, an owner's bets and a market's bets.

The project has six modules:
- `types.dfy`: the records and the operation/response enums.
- `odds.dfy`: the pure odds and payout arithmetic.
- `state.dfy`: the store as a class with the store helpers, the store's
  values as a `Store` record, and the invariant over that record.
- `effects.dfy`: each handler's successful effect as a function of the
  store before it, and the lemmas about those effects.
- `contract.dfy`: the contract class with instantiation, the eight handlers
  and the dispatcher.
- `service.dfy`: the query side.

Each handler is proved to produce exactly its effect, or an Error with the
state untouched. `Execute` proves that every operation keeps the invariant:
- pools equal the stakes recorded in bets;
- the volume register equals the sum of all bet amounts;
- the bet indices list each bet exactly once;
- the active list holds exactly the Open markets;
- a winner is present exactly when a market is Resolved;
- a payout is present exactly when a bet is settled.

## Notable behaviour of the code

The model follows the code throughout, including these points that a reader
might not expect:
- The stake is taken from the one balance. There is no separate locked
  balance.
- Resolution does not settle any bets.
- The fee is taken on the gross payout, not on net winnings.
- `calculate_odds` gives fixed 2x odds to an empty pool, but `place_bet`
  calls it with the stake already added to the option's pool, so a first
  bet on an empty option gets `(total + amount) / amount`, capped at 10x
  (`Odds.PlacedOddsAreCappedRatio`).
- No market operation checks who the caller is: anyone may create, lock,
  resolve or cancel any market. Only `claim_winnings` compares the caller
  with the bet's owner ("Not your bet").
- `resolve_market` accepts Open, Locked and Cancelled markets. It refuses
  only an already Resolved one.
- `place_bet` refuses a bet once `now >= locks_at`, but the payout quote
  ignores the lock time.
- Odds are locked in rather than parimutuel, so winning claims can exceed
  the pool (`Odds.LockedOddsCanExceedPool`).
- In `place_bet` (contract.rs:244-261) the mutable borrow `option` of one
  market option is still live when `market.options.iter()` sums the pools,
  which the Rust borrow checker refuses. The model computes the odds from
  the market as it stood before the stake was added, which is what the code
  evidently intends.

## Model

| member | source | states |
|---|---|---|
| Types.OptionsFromLabels | linera-contracts/live-predict/src/contract.rs:165-173 | one option per label, in input order, option i has id i and an empty pool |
| Odds.CalculateOdds | linera-contracts/live-predict/src/state.rs:122-130 | odds never exceed 10000 (10x); an empty option pool gives 2000 (2x) |
| Odds.CalculatePayout | linera-contracts/live-predict/src/state.rs:133-137 | net payout is at most the gross payout, net plus fee is exactly the gross, and with a zero fee rate net equals gross |
| Odds.FeeAtMostGross | linera-contracts/live-predict/src/state.rs:135-136 | for a fee rate of at most 100% the fee never exceeds the gross payout, so the subtraction cannot underflow |
| Odds.OddsAreTruncatedRatio | linera-contracts/live-predict/src/state.rs:127-129 | for a non-empty pool the odds never overstate total·1000/pool, and below the cap they are its truncation |
| Odds.OddsBounds | linera-contracts/live-predict/src/state.rs:127-129 | when the option's pool is part of the total (0 < pool <= total) the odds lie in [1000, 10000] |
| Odds.OddsAntitoneInOptionPool | linera-contracts/live-predict/src/state.rs:127-129 | with the same total, a larger option pool never gets higher odds |
| Odds.PayoutIsRoundedUpShare | linera-contracts/live-predict/src/state.rs:133-137 | the net payout is gross·(10000−bps)/10000 rounded up, since the fee's truncation favours the bettor |
| Odds.PayoutPositiveIffGross | linera-contracts/live-predict/src/state.rs:133-137 | below a 100% fee, the net payout is positive exactly when the gross payout is |
| Odds.EvenOddsReturnStake | linera-contracts/live-predict/src/state.rs:133-137 | at 1.0x odds and no fee, a winner gets back exactly the stake |
| Odds.PayoutMonotoneInAmount | linera-contracts/live-predict/src/state.rs:133-137 | at the same odds and fee, a larger stake never pays less |
| Odds.TotalPool | linera-contracts/live-predict/src/contract.rs:254 | the total pool is at least every option's pool |
| Odds.AddStake | linera-contracts/live-predict/src/contract.rs:261 | only the chosen option's pool grows, by exactly the stake; its id, its label and every other option are unchanged |
| Odds.TotalPoolAddStake | linera-contracts/live-predict/src/contract.rs:254-261 | staking an amount on one option raises the total pool by exactly that amount |
| Odds.QuotedOdds | linera-contracts/live-predict/src/contract.rs:254-255 | the odds a bet locks in are at most 10x, and at least 1x for a positive stake |
| Odds.PlacedOddsAreCappedRatio | linera-contracts/live-predict/src/contract.rs:206-255 | a positive stake never gets the 2x empty-pool default: its odds are the capped ratio of the pools with the stake included; only a zero-amount quote on an empty option gets 2x |
| Odds.LockedOddsCanExceedPool | linera-contracts/live-predict/src/contract.rs:254-255 | a concrete bet sequence whose winning claims (1199) exceed everything staked (1110): fixed odds are not parimutuel |
| State.IdsFor | linera-contracts/live-predict/src/state.rs:94 | a missing index entry reads as the empty list |
| State.RemoveAll | linera-contracts/live-predict/src/state.rs:116 | removal never lengthens the list |
| State.RemoveAllMembers | linera-contracts/live-predict/src/state.rs:114-118 | after removal an id is listed exactly when it was listed before and differs from the removed id |
| State.RemoveAllAppend | linera-contracts/live-predict/src/state.rs:114-118 | removal distributes over concatenation, so the surviving ids keep their relative order |
| State.RemoveAllAbsent | linera-contracts/live-predict/src/state.rs:114-118 | removing an id that is not listed leaves the list unchanged |
| State.RemoveAllDistinct | linera-contracts/live-predict/src/state.rs:114-118 | removal keeps a duplicate-free list duplicate-free |
| State.BalanceOf | linera-contracts/live-predict/src/state.rs:83-85 | an owner without an entry has balance 0, otherwise the stored amount |
| State.LivePredictState.constructor | linera-contracts/live-predict/src/state.rs:15-55 | freshly loaded storage has every register at zero and every map empty |
| State.LivePredictState.AllocateMarketId | linera-contracts/live-predict/src/state.rs:59-63 | returns the current market counter and advances it by exactly one |
| State.LivePredictState.AllocateBetId | linera-contracts/live-predict/src/state.rs:66-70 | returns the current bet counter and advances it by exactly one |
| State.LivePredictState.GetMarket | linera-contracts/live-predict/src/state.rs:73-75 | Some exactly when the market is stored, and then the stored market |
| State.LivePredictState.GetBet | linera-contracts/live-predict/src/state.rs:78-80 | Some exactly when the bet is stored, and then the stored bet |
| State.LivePredictState.GetBalance | linera-contracts/live-predict/src/state.rs:83-85 | the owner's balance, 0 when absent |
| State.LivePredictState.SetBalance | linera-contracts/live-predict/src/state.rs:88-90 | the owner's balance becomes the amount; every other owner's balance is unchanged |
| State.LivePredictState.AddUserBet | linera-contracts/live-predict/src/state.rs:93-97 | the id is appended to the owner's list, which starts empty if absent; other owners' lists are unchanged |
| State.LivePredictState.AddMarketBet | linera-contracts/live-predict/src/state.rs:100-104 | the id is appended to the market's list, which starts empty if absent; other markets' lists are unchanged |
| State.LivePredictState.AddActiveMarket | linera-contracts/live-predict/src/state.rs:107-111 | the id is appended to the active list |
| State.LivePredictState.RemoveActiveMarket | linera-contracts/live-predict/src/state.rs:114-118 | every occurrence of the id is dropped, the rest keep their order, and exactly the other ids stay listed |
| Effects.LedgerKeepsInv | linera-contracts/live-predict/src/contract.rs:463-493 | changing balances or collected fees alone cannot break the invariant |
| Effects.NewMarket | linera-contracts/live-predict/src/contract.rs:175-185 | a new market is Open, has no winner, and has one empty option per label, numbered by position |
| Effects.CreateMarketEffect | linera-contracts/live-predict/src/contract.rs:163-194 | create_market's state change: one new Open market under the counter's id, the counter advanced, the id added to the active list; no bet, balance or volume changes |
| Effects.CreateMarketKeepsInv | linera-contracts/live-predict/src/contract.rs:163-192 | the new market id is fresh (neither stored nor active), and creating a market with 2..10 options keeps the invariant |
| Effects.NewBet | linera-contracts/live-predict/src/contract.rs:264-275 | a new bet carries the next bet id, the caller, market, option, stake and time, is unsettled with no payout, and has the quoted odds |
| Effects.BetAccepted | linera-contracts/live-predict/src/contract.rs:206-251 | place_bet's six checks in order: positive amount, sufficient balance, market stored, Open, before its lock time, option in range |
| Effects.PlaceBetEffect | linera-contracts/live-predict/src/contract.rs:254-287 | place_bet's state change: the stake leaves the caller's balance, one new bet under the next id is listed in both indices, no market is added or removed and no fee or active-list change |
| Effects.PlaceBetKeepsInv | linera-contracts/live-predict/src/contract.rs:254-285 | a bet that passes every check keeps the invariant |
| Effects.PlaceBetKeepsVolume | linera-contracts/live-predict/src/contract.rs:284-285 | after a bet the volume register still equals the sum of all bet amounts |
| Effects.PlaceBetKeepsMarketsAndBets | linera-contracts/live-predict/src/contract.rs:261-279 | after a bet every market is still well formed, and every bet still fits its market |
| Effects.PlaceBetKeepsIndices | linera-contracts/live-predict/src/contract.rs:278-281 | after a bet the owner and market indices still list each bet exactly once |
| Effects.PlaceBetKeepsPoolsAndActive | linera-contracts/live-predict/src/contract.rs:261-281 | after a bet every pool still equals the stakes listed for its option, and the active list is unchanged in meaning |
| Effects.PlaceBetConserves | linera-contracts/live-predict/src/contract.rs:254-285 | the stake leaves the caller's balance and enters the chosen pool, the market's total pool and the volume; no other balance or market changes |
| Effects.LockEffect | linera-contracts/live-predict/src/contract.rs:307-309 | lock_market's state change: the market becomes Locked and leaves the active list; bets and balances are unchanged |
| Effects.ResolveEffect | linera-contracts/live-predict/src/contract.rs:337-340 | resolve_market's state change: the market becomes Resolved with its winner and leaves the active list; no bet is settled and no balance changes |
| Effects.CloseMarketKeepsInv | linera-contracts/live-predict/src/contract.rs:307-309 | giving a market a status other than Open and dropping it from the active list keeps the invariant |
| Effects.LockKeepsInv | linera-contracts/live-predict/src/contract.rs:301-309 | locking an Open market keeps the invariant |
| Effects.ResolveKeepsInv | linera-contracts/live-predict/src/contract.rs:325-340 | resolving any stored market with an option in range keeps the invariant |
| Effects.SettleKeepsInv | linera-contracts/live-predict/src/contract.rs:373-375 | settling bets without changing their wagers, with payout present exactly when settled, keeps the invariant |
| Effects.Refunded | linera-contracts/live-predict/src/contract.rs:369-375 | a refunded bet keeps its wager, is settled, and has its own amount as payout |
| Effects.RefundAll | linera-contracts/live-predict/src/contract.rs:366-379 | refunding listed bets keeps every bet id and wager, leaves unlisted and already settled bets unchanged, settles every listed bet, and changes a bet only into its refund |
| Effects.RefundOne | linera-contracts/live-predict/src/contract.rs:368-376 | one loop pass refunds a stored unsettled bet and credits its owner with its amount; it changes no other bet or owner, and otherwise changes nothing |
| Effects.RefundFold | linera-contracts/live-predict/src/contract.rs:366-379 | cancel_market's refund loop as a definition: one RefundOne pass per listed id, in list order, each on the maps the previous pass left |
| Effects.RefundFoldStep | linera-contracts/live-predict/src/contract.rs:367-378 | the refund loop over one more id is one more pass after the loop so far |
| Effects.RefundFoldBets | linera-contracts/live-predict/src/contract.rs:366-379 | the bets the refund loop leaves are those of `RefundAll`, even if the list repeats an id |
| Effects.RefundFoldBalances | linera-contracts/live-predict/src/contract.rs:366-379 | on a duplicate-free list the refund loop's balances are the owner-by-owner credits `ApplyRefunds` computes |
| Effects.ApplyRefundsCredits | linera-contracts/live-predict/src/contract.rs:371-372 | each owner's balance grows by exactly the amounts of that owner's listed unsettled bets |
| Effects.RefundTotalAfterRefund | linera-contracts/live-predict/src/contract.rs:369 | once every listed bet is refunded, no further refund is due on them |
| Effects.CancelEffect | linera-contracts/live-predict/src/contract.rs:366-385 | cancel_market's state change: the refund loop over the market's bet list, then the market becomes Cancelled and leaves the active list; no bet is added or removed and no fee is taken |
| Effects.CancelKeepsInv | linera-contracts/live-predict/src/contract.rs:359-383 | cancelling a market that is not Resolved keeps the invariant |
| Effects.CancelSettlesEveryBet | linera-contracts/live-predict/src/contract.rs:366-379 | after a cancellation every bet on the market is settled |
| Effects.CancelRefundsStakes | linera-contracts/live-predict/src/contract.rs:366-379 | a cancellation credits each owner exactly the amounts of that owner's unsettled bets on the market |
| Effects.CancelTwiceRefundsNothing | linera-contracts/live-predict/src/contract.rs:369 | cancelling the same market again changes no bet and no balance |
| Effects.ClaimAccepted | linera-contracts/live-predict/src/contract.rs:392-426 | claim_winnings' five checks in order: bet stored, owned by the caller, not settled, its market stored, and Resolved |
| Effects.ClaimPayout | linera-contracts/live-predict/src/contract.rs:431-437 | a losing bet is paid 0, and a claim never pays more than the gross payout |
| Effects.ClaimEffect | linera-contracts/live-predict/src/contract.rs:428-454 | claim_winnings' state change: the bet is settled with its payout, the caller is credited that payout, and markets are unchanged |
| Effects.ClaimKeepsInv | linera-contracts/live-predict/src/contract.rs:428-454 | a claim that passes every check finds a recorded winner and keeps the invariant |
| Effects.ClaimSettleKeepsInv | linera-contracts/live-predict/src/contract.rs:452-454 | marking the claimed bet settled with its payout, and changing nothing else, keeps the invariant |
| Effects.ResolvedHasWinner | linera-contracts/live-predict/src/contract.rs:428 | a stored Resolved market records a winning option in range, so the unwrap cannot fail |
| Effects.ClaimSplitsGross | linera-contracts/live-predict/src/contract.rs:431-454 | a winning claim splits the gross payout exactly between the owner and the protocol fees, and pays something whenever the gross is positive; a losing claim moves no tokens; either way the bet is settled with its payout |
| Effects.DepositEffect | linera-contracts/live-predict/src/contract.rs:463-473 | deposit's state change: the caller's balance grows by the amount, every other balance and every other field is unchanged |
| Effects.WithdrawEffect | linera-contracts/live-predict/src/contract.rs:476-493 | withdraw's state change: the caller's balance shrinks by the amount, every other balance and every other field is unchanged |
| Effects.DepositWithdrawRoundTrip | linera-contracts/live-predict/src/contract.rs:463-493 | withdrawing what was just deposited is allowed and restores every balance |
| Effects.PlaceBetKeepsHistory | linera-contracts/live-predict/src/contract.rs:264-278 | placing a bet only adds one new unsettled bet; every earlier bet is untouched |
| Effects.CancelKeepsHistory | linera-contracts/live-predict/src/contract.rs:366-379 | cancelling never deletes or re-prices a bet, and leaves settled bets alone |
| Effects.ClaimKeepsHistory | linera-contracts/live-predict/src/contract.rs:451-454 | a claim settles only the claimed bet and keeps its wager |
| Effects.Accepted | linera-contracts/live-predict/src/contract.rs:62-93 | for each operation, whether the handler it is dispatched to passes all of its checks; a deposit always does |
| Effects.Step | linera-contracts/live-predict/src/contract.rs:62-93 | one execute_operation call: an Error exactly when the operation's checks fail, with the state unchanged; otherwise the operation's own response and its effect |
| Effects.StepKeepsHistory | linera-contracts/live-predict/src/contract.rs:62-93 | no operation deletes or re-prices a bet or changes a settled one, so each bet is settled at most once |
| Effects.StepKeepsInv | linera-contracts/live-predict/src/contract.rs:62-93 | every operation step keeps the invariant and the bet history, and answers with an Error or with that operation's own success response |
| Contract.LivePredictContract.Instantiate | linera-contracts/live-predict/src/contract.rs:50-60 | both counters start at 1, the registers at 0, every map and the active list empty, with the given fee rate; the state is valid |
| Contract.LivePredictContract.CreateMarket | linera-contracts/live-predict/src/contract.rs:142-195 | a bad option count or a lock time not in the future gives its error with the state unchanged; otherwise the market is created under the next id and appended to the active list |
| Contract.LivePredictContract.PlaceBet | linera-contracts/live-predict/src/contract.rs:198-288 | each of the six checks gives its own error, in order, with the state unchanged; otherwise the response carries the next bet id and the quoted odds, and the state is the place-bet effect |
| Contract.LivePredictContract.RecordBet | linera-contracts/live-predict/src/contract.rs:264-285 | the new bet is stored under the next id, the market with its grown pool is stored, both indices get the id appended, and the volume grows by the stake |
| Contract.LivePredictContract.LockMarket | linera-contracts/live-predict/src/contract.rs:291-312 | an unknown or non-Open market gives its error with the state unchanged; otherwise the market is Locked and leaves the active list |
| Contract.LivePredictContract.ResolveMarket | linera-contracts/live-predict/src/contract.rs:315-346 | an unknown market, an already Resolved market or an option out of range gives its error with the state unchanged; otherwise the market is Resolved with that winner and leaves the active list |
| Contract.LivePredictContract.RefundBets | linera-contracts/live-predict/src/contract.rs:366-379 | the loop leaves exactly the bets and balances of the sequential refund fold over the list |
| Contract.LivePredictContract.CancelMarket | linera-contracts/live-predict/src/contract.rs:349-386 | an unknown or Resolved market gives its error with the state unchanged; otherwise the market's unsettled bets are refunded, it becomes Cancelled and leaves the active list |
| Contract.LivePredictContract.ClaimWinnings | linera-contracts/live-predict/src/contract.rs:389-460 | an unknown bet, another owner's bet, a settled bet, a missing market or an unresolved market each give their error with the state unchanged; otherwise the claim pays the fee-reduced payout if the bet won (0 otherwise) and settles the bet |
| Contract.LivePredictContract.Deposit | linera-contracts/live-predict/src/contract.rs:463-473 | the caller's balance grows by the amount, and the response reports the new balance |
| Contract.LivePredictContract.Withdraw | linera-contracts/live-predict/src/contract.rs:476-493 | a balance below the amount gives an error with the state unchanged; otherwise the balance falls by the amount, and the response reports the new balance |
| Contract.LivePredictContract.ExecuteOperation | linera-contracts/live-predict/src/contract.rs:62-93 | each operation runs its handler: an Error comes exactly when one of the operation's checks fails and leaves the state as it was; otherwise the answer is the operation's success response and the state its effect |
| Contract.LivePredictContract.Execute | linera-contracts/live-predict/src/contract.rs:62-93 | from a valid state every operation leaves a valid state, answers with an Error exactly when its checks fail and otherwise with that operation's own response, and keeps every earlier bet's wager and every settled bet |
| Service.Quote | linera-contracts/live-predict/src/service.rs:154-178 | no quote exactly for an unknown market, a market that is not Open, or an option out of range; otherwise the fee rate used, odds of at most 10x, and a payout of at most the gross and of at most ten times the stake; for a positive stake, odds of at least 1x and a payout of at least the stake less the largest fee |
| Service.QuoteBounds | linera-contracts/live-predict/src/service.rs:167-172 | at odds of at most 10x the gross payout is at most ten times the stake; at odds of at least 1x the net payout is at least the stake less the fee on ten times the stake |
| Service.QuoteMatchesPlacedBet | linera-contracts/live-predict/src/service.rs:167-172 | for a bet place_bet would accept, the quote exists, carries exactly the odds the bet records, and quotes exactly what claiming that bet pays if its option wins |
| Service.QuoteIgnoresLockTime | linera-contracts/live-predict/src/service.rs:162-166 | an Open market past its lock time still gets a quote, though no caller can place that bet |
| Service.Listed | linera-contracts/live-predict/src/service.rs:73-82 | the result of active markets, user bets and market bets is never longer than the id list |
| Service.MatchMarketsListed | linera-contracts/live-predict/src/service.rs:85-96 | the markets-by-match result is never longer than the id list |
| Service.ListedPointwise | linera-contracts/live-predict/src/service.rs:109-136 | when every listed id has an entry, the result holds exactly their entries, position by position |
| Service.MatchMarketsFilter | linera-contracts/live-predict/src/service.rs:85-96 | markets-by-match holds exactly the active-markets entries of that match |
| Service.ActiveMarketsAreOpen | linera-contracts/live-predict/src/service.rs:73-82 | on a valid state, active markets returns one market per active id in list order: every Open market and nothing else, each once |
| Service.MarketsByMatchAreOpen | linera-contracts/live-predict/src/service.rs:85-96 | on a valid state, markets-by-match returns exactly the Open markets of that match |
| Service.UserBetsAreOwnBets | linera-contracts/live-predict/src/service.rs:109-121 | on a consistent state, user bets returns one bet per listed id in index-list order: every bet of the owner and nothing else, each once |
| Service.MarketBetsAreMarketsBets | linera-contracts/live-predict/src/service.rs:124-136 | on a consistent state, market bets returns one bet per listed id in index-list order: every bet on the market and nothing else, each once |
| Service.QueryRoot.ActiveMarkets | linera-contracts/live-predict/src/service.rs:73-82 | the loop returns the stored markets of the active ids in list order, skipping ids with no market; on a valid state these are exactly the Open markets |
| Service.QueryRoot.MarketsByMatch | linera-contracts/live-predict/src/service.rs:85-96 | the loop returns the active markets of the match in list order; on a valid state these are exactly the Open markets of that match |
| Service.QueryRoot.CollectBets | linera-contracts/live-predict/src/service.rs:111-117 | the loop returns the stored bets of the listed ids in list order, skipping ids with no bet |
| Service.QueryRoot.UserBets | linera-contracts/live-predict/src/service.rs:109-121 | the owner's listed bets, or an empty list with no index entry; on a valid state exactly the owner's bets |
| Service.QueryRoot.MarketBets | linera-contracts/live-predict/src/service.rs:124-136 | the market's listed bets, or an empty list with no index entry; on a valid state exactly the bets on that market |

## Left out

- Integer widths:
  - amounts (u128), ids and timestamps (u64), odds (u32) and option indices (u8) are unbounded naturals;
  - overflow of the additions is not modelled;
  - the truncating `as u64` casts in `calculate_odds`, `calculate_payout` and the claim's fee computation are not modelled.
- Odds.CalculateOdds: computed on naturals without the u64 truncation of a u128 pool, so it agrees with the code only while pools stay below 2^64/1000.
- Odds.CalculatePayout: computed on naturals without the u64 truncation of a u128 stake, so it agrees with the code only while stakes stay below 2^64/10000.
- Effects.ClaimPayout: inherits the same bound through Odds.CalculatePayout.
- Clock and caller:
  - the wall-clock read (`current_time`) becomes the parameter `now`;
  - `create_market` and `place_bet` read the clock twice, for the lock check and for the stored timestamp, and the model uses one `now` for both;
  - the caller's chain id becomes the parameter `caller`.
- Contract.LivePredictContract.Instantiate: the code aborts on a fee rate above 500 bps; the model makes that bound a precondition.
- Contract.LivePredictContract.ClaimWinnings: requires that every Resolved market records a winner and that the fee rate is at most 500 bps. The invariant guarantees both, and `Execute` establishes them from it. Without the first, the code's `unwrap` would abort.
- Contract.LivePredictContract.ExecuteOperation: carries the same two preconditions as ClaimWinnings.
- Service.Quote: requires a fee rate of at most 10000 bps. The invariant keeps the rate at or below 500, and above 10000 the code's fee subtraction would underflow.
- Effects.CancelRefundsStakes: stated for a market bet list without repetitions, which the invariant guarantees. Effects.RefundFoldBets covers the bets for any list.
- Effects.CancelTwiceRefundsNothing: carries the same no-repetition precondition.
- Operations not modelled:
  - `execute_message` (cross-chain `SyncMarket` and `MarketResolved`) is not part of this model: it overwrites or resolves markets with foreign data;
  - the storage runtime, async/await, the load/store of the root view and its storage errors are not modelled;
  - the GraphQL schema, serde derives and the `MutationRoot` are not modelled, since the mutation root only schedules operations.
- Plain reads: the `market`, `bet` and `balance` queries are `GetMarket`, `GetBet` and `GetBalance` on the state. The `total_volume`, `fee_rate` and `protocol_fees` queries read a field, and have no members of their own.
- Service.QueryRoot: reads the state directly and changes nothing. It does not model the snapshot of the store a query runs against.
