/**
 What the order, position and portfolio managers and the accounting layer write to the
 shared log: one payload and one idempotency key per kind of record.
 */
module Records {
  import opened Wrappers
  import opened EventLog
  import OS = OrderStates
  import PS = PositionStates

  datatype Side = Buy | Sell
  datatype OrderType = Market | Limit
  datatype TimeInForce = Gtc | Ioc | Fok | PostOnly

  type Quantity = q: real | q > 0.0 witness 1.0

  /** One execution reported by the venue. */
  datatype Fill = Fill(
    id: string, cid: string, symbol: string, side: Side, price: real, quantity: Quantity, fee: real)

  // ---- orders ----

  datatype Terms = Terms(
    symbol: string, side: Side, orderType: OrderType, quantity: real, limitPrice: Option<real>,
    timeInForce: TimeInForce, reduceOnly: bool)

  datatype OrderRecord =
    | OrderSubmitted(number: nat, cid: string, terms: Terms)
    | StatusUpdate(claimed: Option<nat>, cid: string, trigger: OS.Trigger, source: OS.State, target: OS.State,
                   exchangeId: Option<string>)
    | OrderFilled(cid: string, trigger: OS.Trigger, source: OS.State, target: OS.State, fillId: string, quantity: Quantity)
    | AmendRequested(number: nat, cid: string)
    | Amended(cid: string, newQuantity: real, newLimit: Option<real>)
    | CancelAllRequested(number: nat)

  datatype OrderKey =
    | SubmitKey(cid: string)
    | StatusKey(cid: string, trigger: OS.Trigger, source: OS.State)
    | SubmitFailedKey(cid: string)
    | FillKey(cid: string, fillId: string)
    | AmendRequestKey(cid: string, requestId: string)
    | AmendKey(cid: string, requestId: string)
    | CancelKey(cid: string, requestId: string)
    | CancelFailedKey(cid: string, requestId: string)
    | CancelAllKey(requestId: string)
    | CancelAllPendingKey(cid: string, requestId: string)
    | CancelAllConfirmKey(cid: string, requestId: string)

  // ---- positions ----

  datatype PositionTerms = PositionTerms(
    symbol: string, side: Side, intended: real, stopPrice: real, stopD: real, t1Price: real, t2Price: real,
    conviction: Option<real>)

  datatype Leg = Leg(entryPrice: real, exitPrice: real, quantity: Quantity, fee: real, r: real, pct: real,
                     pnl: real, reason: string)

  datatype PositionRecord =
    | Created(number: nat, pid: string, terms: PositionTerms)
    | FirstTouch(pid: string, fillId: string, price: real)
    | EntryFill(pid: string, trigger: PS.Trigger, source: PS.State, target: PS.State,
                fillId: string, price: real, quantity: Quantity, fee: real)
    | Exit(pid: string, trigger: PS.Trigger, source: PS.State, target: PS.State, fillId: string, leg: Leg)
    | Moved(pid: string, trigger: PS.Trigger, source: PS.State, target: PS.State)
    | FundingPaid(pid: string, fundingId: string, amount: real)

  datatype PositionKey =
    | CreateKey(pid: string)
    | OpenKey(pid: string, fillId: string)
    | EntryKey(pid: string, fillId: string)
    | ExitKey(pid: string, fillId: string)
    | MoveKey(pid: string, trigger: PS.Trigger)
    | PositionFundingKey(pid: string, fundingId: string)

  // ---- portfolio ----

  datatype PortfolioRecord =
    | Deposited(amount: real)
    | Withdrawn(amount: real)
    | Reserved(pid: string, amount: real)
    | Allocated(pid: string, amount: real)
    | Released(pid: string)
    | RealizedPnl(pid: string, amount: real)
    | FundingBooked(pid: string, amount: real)
    | FeeBooked(reference: string, amount: real)
    | MarksUpdated(unrealized: real, exposure: real, heat: real)

  datatype PortfolioKey =
    | DepositKey(request: string)
    | WithdrawKey(request: string)
    | ReserveKey(pid: string, request: string)
    | AllocateKey(pid: string, request: string)
    | ReleaseKey(pid: string, request: string)
    | RealizedKey(pid: string, legId: string)
    | FundingKey(pid: string, fundingId: string)
    | FeeKey(reference: string, feeId: string)
    | MarksKey(request: string)

  // ---- accounting ----

  datatype AccountingRecord =
    | LevelsRecorded(cid: string, entry: real, stop: real)
    | OrderMapped(cid: string, pid: string)

  datatype AccountingKey = LevelsKey(cid: string) | MappedKey(cid: string)

  // ---- the shared log ----

  datatype Payload =
    | Order(order: OrderRecord)
    | Position(position: PositionRecord)
    | Portfolio(portfolio: PortfolioRecord)
    | Accounting(accounting: AccountingRecord)
    | Foreign(tag: string)

  datatype Key =
    | ForOrder(orderKey: OrderKey)
    | ForPosition(positionKey: PositionKey)
    | ForPortfolio(portfolioKey: PortfolioKey)
    | ForAccounting(accountingKey: AccountingKey)
    | ForForeign(text: string)

  type Entry = Event<Key, Payload>
  type Log = seq<Entry>

  /** Every writer keys its own records in its own namespace. */
  predicate SameSource(key: Option<Key>, p: Payload) {
    match p
    case Order(_) => key.Some? && key.value.ForOrder?
    case Position(_) => key.Some? && key.value.ForPosition?
    case Portfolio(_) => key.Some? && key.value.ForPortfolio?
    case Accounting(_) => key.Some? && key.value.ForAccounting?
    case Foreign(_) => key.Some? ==> key.value.ForForeign?
  }

  // ---- which events a component has taken in ----

  /** Everything of one source on the log has been applied, and nothing beyond the log. */
  ghost predicate Caught(log: Log, applied: set<nat>, mine: Payload -> bool) {
    && (forall e :: e in log && mine(e.payload) ==> e.id in applied)
    && (forall id :: id in applied ==> id < NextId(log))
  }

  ghost predicate Sourced(log: Log) {
    forall e :: e in log ==> SameSource(e.key, e.payload)
  }

  /** Taking in the next event of the log, or passing over it. */
  lemma CaughtNext(log: Log, e: Entry, applied: set<nat>, mine: Payload -> bool)
    requires Caught(log, applied, mine) && NextId(log) <= e.id
    ensures e.id !in applied
    ensures Caught(log + [e], if mine(e.payload) then applied + {e.id} else applied, mine)
  {
  }
}
