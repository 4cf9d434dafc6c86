/**
 * The application binary interface of the Live Play Predictor contract:
 * markets, their options, bets, and the closed sets of operations and
 * responses.  Integer widths of the original (u8 option ids, u32 odds,
 * u64 ids and timestamps, u128 amounts) are represented by unbounded
 * naturals; see README.md for what that leaves out.
 */
module Types {

  datatype Option<+T> = None | Some(value: T)

  /** Token amount (u128 in the original, 6 decimal places). */
  type Amount = nat
  /** Market identifier (u64). */
  type MarketId = nat
  /** Bet identifier (u64). */
  type BetId = nat
  /** Milliseconds since the Unix epoch (u64). */
  type Timestamp = nat
  /** A caller's chain id, used as the owner of balances and bets. */
  type Owner = string

  /** The four states of a market. */
  datatype MarketStatus = Open | Locked | Resolved | Cancelled

  /** One outcome of a market (`label` in the original); `id` is its position in the option list. */
  datatype MarketOption = MarketOption(id: nat, optionLabel: string, pool: Amount)

  datatype Market = Market(
    id: MarketId,
    matchId: string,
    marketType: string,
    title: string,
    options: seq<MarketOption>,
    status: MarketStatus,
    createdAt: Timestamp,
    locksAt: Timestamp,
    winningOption: Option<nat>)

  /** A wager; `odds` are fixed at placement, scaled by 1000 (1500 means 1.5x). */
  datatype Bet = Bet(
    id: BetId,
    owner: Owner,
    marketId: MarketId,
    optionId: nat,
    amount: Amount,
    odds: nat,
    placedAt: Timestamp,
    settled: bool,
    payout: Option<Amount>)

  datatype Operation =
    | CreateMarket(matchId: string, marketType: string, title: string, labels: seq<string>, locksAt: Timestamp)
    | PlaceBet(marketId: MarketId, optionId: nat, amount: Amount)
    | LockMarket(marketId: MarketId)
    | ResolveMarket(marketId: MarketId, winningOption: nat)
    | CancelMarket(marketId: MarketId)
    | ClaimWinnings(betId: BetId)
    | Deposit(amount: Amount)
    | Withdraw(amount: Amount)

  datatype OperationResponse =
    | MarketCreated(marketId: MarketId)
    | BetPlaced(betId: BetId, odds: nat)
    | MarketLocked(marketId: MarketId)
    | MarketResolved(marketId: MarketId, winningOption: nat)
    | MarketCancelled(marketId: MarketId)
    | WinningsClaimed(betId: BetId, amount: Amount)
    | Deposited(amount: Amount, newBalance: Amount)
    | Withdrawn(amount: Amount, newBalance: Amount)
    | Error(message: string)

  const MIN_OPTIONS: nat := 2
  const MAX_OPTIONS: nat := 10

  /** The success response that belongs to each operation. */
  predicate RespondsTo(op: Operation, r: OperationResponse)
  {
    match op
    case CreateMarket(_, _, _, _, _) => r.MarketCreated?
    case PlaceBet(_, _, _) => r.BetPlaced?
    case LockMarket(m) => r == MarketLocked(m)
    case ResolveMarket(m, w) => r == MarketResolved(m, w)
    case CancelMarket(m) => r == MarketCancelled(m)
    case ClaimWinnings(b) => r.WinningsClaimed? && r.betId == b
    case Deposit(a) => r.Deposited? && r.amount == a
    case Withdraw(a) => r.Withdrawn? && r.amount == a
  }

  /** Option ids are positions 0..n-1. */
  ghost predicate OptionIdsArePositions(options: seq<MarketOption>)
  {
    forall i :: 0 <= i < |options| ==> options[i].id == i
  }

  /**
   * What every stored market satisfies: 2..10 options numbered by position,
   * and a winning option that is present exactly when the market is
   * Resolved and then names one of its options.
   */
  ghost predicate WellFormedMarket(m: Market)
  {
    && MIN_OPTIONS <= |m.options| <= MAX_OPTIONS
    && OptionIdsArePositions(m.options)
    && (m.winningOption.Some? <==> m.status == Resolved)
    && (m.winningOption.Some? ==> m.winningOption.value < |m.options|)
  }

  /** A bet's payout is present exactly when it is settled. */
  ghost predicate PayoutMatchesSettled(b: Bet)
  {
    b.settled <==> b.payout.Some?
  }

  /** The options of a freshly created market: one per label, in order, each with an empty pool. */
  function OptionsFromLabels(labels: seq<string>): (options: seq<MarketOption>)
    ensures |options| == |labels|
    ensures OptionIdsArePositions(options)
    ensures forall i :: 0 <= i < |labels| ==> options[i].optionLabel == labels[i] && options[i].pool == 0
  {
    seq(|labels|, i requires 0 <= i < |labels| => MarketOption(i, labels[i], 0))
  }
}
