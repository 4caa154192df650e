/** The rows and constants of the Django schema (stock/models.py) that the
    engine reads and writes, and the ledger queries the algorithms make. */
module Models {
  import opened Wrappers
  import opened Market

  /** STANCE_CONSERVATIVE, STANCE_MODERATE, STANCE_AGGRESSIVE: the
      thresholds tables of the algorithms are indexed by it. */
  type Stance = s: int | 0 <= s < 3

  const Conservative: Stance := 0
  const Moderate: Stance := 1
  const Aggressive: Stance := 2

  /** ACTION_BUY = 0, ACTION_SELL = 1, ACTION_BUY_FAIL = 2, ACTION_SELL_FAIL = 3. */
  datatype Action = Buy | Sell | BuyFail | SellFail {
    function Code(): int
    {
      match this
      case Buy => 0
      case Sell => 1
      case BuyFail => 2
      case SellFail => 3
    }
    predicate Failed()
    {
      BuyFail? || SellFail?
    }
  }

  /** A row of the Order ledger; unique on (account_id, symbol, dt). */
  datatype Order = Order(dt: Date, symbol: Symbol, accountId: int, price: real, count: real,
                         action: Action, failureReason: string)

  /** A row of DayReport; unique on (date, account). */
  datatype DayReport = DayReport(date: Date, accountId: int, netValue: real, cashToTrade: real)

  /** A row of Account (account_id is the primary key). */
  datatype DbAccount = DbAccount(accountType: int, accountId: int, netValue: Option<real>,
                                 cashToTrade: Option<real>)

  const AccountEtrade := 0
  const AccountCoinbase := 1
  const AccountSimulation := 2

  /** A row of Stock; unique on (account, symbol).  `count` and `last_count`
      are nullable columns. */
  datatype DbStock = DbStock(accountId: int, symbol: Symbol, share: real,
                             inAlgorithm: nat, inStance: Stance,
                             outAlgorithm: nat, outStance: Stance,
                             count: Option<real>, lastCount: Option<real>)

  /** A row of Quote; unique on (symbol, dt). */
  datatype QuoteRow = QuoteRow(symbol: Symbol, dt: Date, ask: real, bid: real)

  /** The newest order (by `dt`) satisfying `matches`: the source's
      `Order.objects.filter(...).order_by('-dt')[0]`, None for its IndexError.
      Among orders with the same `dt` the one appended last is taken; the
      database leaves that choice open. */
  function LastMatching(orders: seq<Order>, matches: Order -> bool): (r: Option<Order>)
    ensures r.Some? ==> r.value in orders && matches(r.value)
    ensures r.Some? ==> forall o | o in orders && matches(o) :: o.dt <= r.value.dt
    ensures r.None? <==> forall o | o in orders :: !matches(o)
  {
    if orders == [] then None
    else
      var last := orders[|orders| - 1];
      var rest := LastMatching(orders[..|orders| - 1], matches);
      assert orders == orders[..|orders| - 1] + [last];
      if matches(last) && (rest.None? || last.dt >= rest.value.dt) then Some(last)
      else rest
  }

  /** The last BUY order of one account in one symbol. */
  function LastBuyOrder(orders: seq<Order>, symbol: Symbol, accountId: int): (r: Option<Order>)
    ensures r.Some? ==>
      r.value in orders && r.value.action == Buy && r.value.symbol == symbol && r.value.accountId == accountId
    ensures r.Some? ==> forall o | o in orders && o.action == Buy && o.symbol == symbol && o.accountId == accountId ::
      o.dt <= r.value.dt
    ensures r.None? <==> forall o | o in orders :: !(o.action == Buy && o.symbol == symbol && o.accountId == accountId)
  {
    LastMatching(orders, (o: Order) => o.symbol == symbol && o.accountId == accountId && o.action == Buy)
  }

  /** The last order of any account in one symbol. */
  function LastSymbolOrder(orders: seq<Order>, symbol: Symbol): (r: Option<Order>)
    ensures r.Some? ==> r.value in orders && r.value.symbol == symbol
    ensures r.Some? ==> forall o | o in orders && o.symbol == symbol :: o.dt <= r.value.dt
    ensures r.None? <==> forall o | o in orders :: o.symbol != symbol
  {
    LastMatching(orders, (o: Order) => o.symbol == symbol)
  }
}
