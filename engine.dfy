/** The tick engine of stock/main.py on the simulated-broker path.  `run`
    walks every Account row and each of its Stock rows, lets the configured
    algorithm decide, places the order with the broker and logs it; `simulate`
    replays the simulation table one calendar day at a time. */
module Engine {
  import opened Wrappers
  import opened PyNum
  import opened Market
  import opened Models
  import opened Ledger
  import opened SimClient
  import opened Algorithms
  import opened Store

  /** The holiday test of `run`: a US holiday (the calendar is the set
      `holidays`) skips every symbol but BTC. */
  predicate HolidaySkip(holidays: set<Date>, dt: Date, symbol: Symbol)
  {
    dt in holidays && symbol != "BTC"
  }

  /** The algorithm that decides for a position: the out algorithm while it
      holds shares, the in algorithm while it is flat, None for an index past
      the list. */
  function SelectAlgorithm(count: real, inAlgorithm: nat, outAlgorithm: nat): (r: Option<Algorithm>)
    ensures r.None? <==> if count != 0.0 then outAlgorithm >= |OutAlgorithms| else inAlgorithm >= |InAlgorithms|
    ensures r.Some? && count != 0.0 ==> r.value == OutAlgorithms[outAlgorithm]
    ensures r.Some? && count == 0.0 ==> r.value == InAlgorithms[inAlgorithm]
    // a held position is never offered more shares by Fill or ConsecutiveUp,
    // a flat one is never asked to sell by Empty or Ahnyung
    ensures r.Some? && count != 0.0 ==> r.value != Algorithm.Fill && r.value != Algorithm.ConsecutiveUp
    ensures r.Some? && count == 0.0 ==> r.value != Algorithm.Empty && r.value != Algorithm.Ahnyung
  {
    if count != 0.0 then GetOutAlgorithm(outAlgorithm) else GetInAlgorithm(inAlgorithm)
  }

  /** The quantity an order places for a decision: `int()` truncates it
      toward zero unless the symbol trades fractional shares. */
  function OrderAmount(decision: real, floatTrade: bool): (r: real)
    ensures floatTrade ==> r == decision
    ensures !floatTrade ==> r == r.Floor as real
    ensures !floatTrade ==> Abs(r) <= Abs(decision) < Abs(r) + 1.0
    ensures !floatTrade ==> (r > 0.0 ==> decision > 0.0) && (r < 0.0 ==> decision < 0.0)
  {
    if floatTrade then decision else Trunc(decision) as real
  }

  /** A whole-share decision is placed as it is. */
  lemma OrderAmountWhole(decision: real, floatTrade: bool)
    requires decision == decision.Floor as real
    ensures OrderAmount(decision, floatTrade) == decision
  {
    var n := decision.Floor;
    if !floatTrade {
      var t := Trunc(decision);
      assert n as real == decision;
      if decision >= 0.0 {
        assert t <= n && n < t + 1;
      } else {
        assert t - 1 < n && n <= t;
      }
    }
  }

  /** What the algorithms read of a position and its account. */
  function PositionOf(s: Stock): Position
    reads s, s.account
  {
    Position(s.symbol, s.account.id, s.count, s.value, s.valid, s.budget, s.account.cashToTrade,
             s.inStance, s.outStance)
  }

  /** The quantity `run` orders for a position decided by `alg`: the
      decision, truncated by OrderAmount, or the exception it raises. */
  ghost function TradeAmount(alg: Algorithm, p: Position, history: seq<Bar>, orders: seq<Order>, draw: real,
                             floatTrade: bool): Result<real>
  {
    var d := Decision(alg, p, history, orders, draw);
    if d.Raise? then Raise(d.error) else Ok(OrderAmount(d.value, floatTrade))
  }

  /** Every valid position of the account has a price; the market order
      needs it. */
  ghost predicate Quoted(a: Account)
    reads a, a.stockList
  {
    forall k | 0 <= k < |a.stockList| :: a.stockList[k].valid ==> a.stockList[k].value.Some?
  }

  /** A marked account is quoted. */
  lemma MarkedQuoted(a: Account, sim: seq<Bar>, dt: Date)
    requires forall k | 0 <= k < |a.stockList| :: PricedAt(a.stockList[k], sim, dt)
    ensures Quoted(a)
  {
    forall k | 0 <= k < |a.stockList| && a.stockList[k].valid ensures a.stockList[k].value.Some? {
      assert PricedAt(a.stockList[k], sim, dt);
    }
  }

  /** One row of `run`'s order log, or none: a logged order consumes one order
      id, is dated at the tick, belongs to the account, and is logged as
      failed exactly when the account's failure flag is set after it; the
      flag never clears. */
  ghost predicate LoggedStep(before: seq<Order>, after: seq<Order>, id: int, id': int,
                             failed: bool, failed': bool, dt: Date, accountId: int)
  {
    (after == before && id' == id && failed' == failed)
    || (|after| == |before| + 1 && after[..|before|] == before && id' == id + 1
        && after[|before|].dt == dt && after[|before|].accountId == accountId
        && (after[|before|].action.Failed() <==> failed') && (failed ==> failed'))
  }

  /** Once an order of the tick is logged as failed, every later one is. */
  ghost predicate Sticky(orders: seq<Order>, from: nat)
  {
    forall j, k | from <= j < k < |orders| :: orders[j].action.Failed() ==> orders[k].action.Failed()
  }

  /** The account's failure flag is set exactly when its last order of the
      tick is logged as failed. */
  ghost predicate FlagLogged(orders: seq<Order>, from: nat, failed: bool)
  {
    failed <==> |orders| > from && orders[|orders| - 1].action.Failed()
  }

  /** The part of `run` after the algorithm is chosen (main.py:250-270):
      decide, and for a non-zero quantity record the count, place the
      order, take an order id and log the order; then store the position's
      row. */
  method Trade(db: Database, i: nat, stock: Stock, alg: Algorithm, dt: Date, draw: real,
               orderId: int, failed: bool)
    returns (r: Result<(int, bool)>)
    requires i < |db.stocks|
    requires stock.valid ==> stock.value.Some?
    modifies db`orders, db`reasons, db`stocks
    modifies stock`count, stock`lastCount, stock`failureReason, stock.account`cashToTrade
    ensures var t := TradeAmount(alg, old(PositionOf(stock)), db.dayHistory, old(db.orders), draw, stock.floatTrade);
      t.Raise? ==> r == Raise(t.error)
    ensures var t := TradeAmount(alg, old(PositionOf(stock)), db.dayHistory, old(db.orders), draw, stock.floatTrade);
      t == Ok(0.0) ==>
        r == Ok((orderId, failed)) && db.orders == old(db.orders) && db.reasons == old(db.reasons)
        && stock.Settings() == old(stock.Settings()) && stock.account.cashToTrade == old(stock.account.cashToTrade)
    ensures var t := TradeAmount(alg, old(PositionOf(stock)), db.dayHistory, old(db.orders), draw, stock.floatTrade);
      t.Ok? && t.value != 0.0 ==>
        var e := MarketOrderEffect(stock.valid, old(stock.count), stock.Price(), old(stock.account.cashToTrade),
                                   old(stock.failureReason), t.value);
        stock.lastCount == old(stock.count) && stock.count == e.count
        && stock.account.cashToTrade == e.cash && stock.failureReason == e.reason
        && db.reasons == (if e.reason in old(db.reasons) then old(db.reasons) else old(db.reasons) + [e.reason])
        && (stock.value.None? ==> r == Raise(IntegrityError))
        && (stock.value.Some? ==> r == Ok((orderId + 1, failed || !e.ok)))
        && (stock.value.Some? ==> db.orders == old(db.orders) + [OrderRow(dt, stock.symbol, stock.account.id,
                                                                          stock.value.value, t.value,
                                                                          failed || !e.ok, e.reason)])
    ensures r.Ok? ==> db.stocks == old(db.stocks)[i := Stored(old(db.stocks)[i], stock.count, stock.lastCount)]
    ensures r.Raise? ==> db.stocks == old(db.stocks) && db.orders == old(db.orders)
  {
    var d := Decide(alg, PositionOf(stock), db.dayHistory, db.orders, draw);
    if d.Raise? {
      return Raise(d.error);
    }
    var n := OrderAmount(d.value, stock.floatTrade);
    var next := (orderId, failed);
    if n != 0.0 {
      var placed := PlaceOrder(db, stock, dt, n, orderId, failed);
      if placed.Raise? {
        return placed;
      }
      next := placed.value;
    }
    db.StoreDbStock(i, stock);
    return Ok(next);
  }

  /** A non-zero decision of `run` (main.py:257-268): the count before the
      order is kept, the market order is placed, a failed order flags the
      tick, the order takes the next id and is logged. */
  method PlaceOrder(db: Database, stock: Stock, dt: Date, n: real, orderId: int, failed: bool)
    returns (r: Result<(int, bool)>)
    requires stock.valid ==> stock.value.Some?
    modifies db`orders, db`reasons
    modifies stock`count, stock`lastCount, stock`failureReason, stock.account`cashToTrade
    ensures var e := MarketOrderEffect(stock.valid, old(stock.count), stock.Price(), old(stock.account.cashToTrade),
                                       old(stock.failureReason), n);
      stock.lastCount == old(stock.count) && stock.count == e.count
      && stock.account.cashToTrade == e.cash && stock.failureReason == e.reason
      && db.reasons == (if e.reason in old(db.reasons) then old(db.reasons) else old(db.reasons) + [e.reason])
      && (stock.value.None? ==> r == Raise(IntegrityError) && db.orders == old(db.orders))
      && (stock.value.Some? ==> r == Ok((orderId + 1, failed || !e.ok)))
      && (stock.value.Some? ==> db.orders == old(db.orders) + [OrderRow(dt, stock.symbol, stock.account.id,
                                                                        stock.value.value, n,
                                                                        failed || !e.ok, e.reason)])
  {
    stock.lastCount := stock.count;
    var ok := stock.MarketOrder(n);
    var nowFailed := failed || !ok;
    var logged := db.StoreOrder(stock, dt, n, nowFailed, stock.failureReason);
    if logged.Raise? {
      return Raise(logged.error);
    }
    return Ok((orderId + 1, nowFailed));
  }

  /** The position `run` trades for a Stock row: the account's first in the
      symbol, or a new one when the symbol has a quote (main.py:231-236),
      configured from the row (main.py:238). */
  method Locate(account: Account, row: DbStock, sim: seq<Bar>) returns (stock: Stock?)
    requires account.Valid() && Quoted(account)
    modifies account`stockList, account.stockList
    ensures account.Valid() && Quoted(account)
    ensures old(account.stockList) <= account.stockList
    ensures forall s | s in account.stockList :: s in old(account.stockList) || fresh(s)
    ensures FirstWithSymbol(old(account.stockList), row.symbol) != null ==>
      stock == FirstWithSymbol(old(account.stockList), row.symbol) && account.stockList == old(account.stockList)
    ensures FirstWithSymbol(old(account.stockList), row.symbol) != null ==>
      stock.Settings() == Loaded(old(stock.Settings()), row, account.netValue)
    ensures FirstWithSymbol(old(account.stockList), row.symbol) == null ==>
      (stock == null <==> LatestOnOrBefore(sim, row.symbol, account.dt).None?)
    ensures FirstWithSymbol(old(account.stockList), row.symbol) == null && stock != null ==>
      fresh(stock) && account.stockList == old(account.stockList) + [stock]
      && stock.valid && stock.value == Some(LatestOnOrBefore(sim, row.symbol, account.dt).value.open)
      && stock.Settings() == Loaded(StockSettings(0.0, 0.0, 0.0, 0, 0, 0, 0, "success"), row, account.netValue)
    ensures stock != null ==> stock in account.stockList && stock.symbol == row.symbol
  {
    stock := account.GetStock(row.symbol);
    if stock == null {
      stock := account.NewStock(row.symbol, sim);
    }
    if stock == null {
      return;
    }
    LoadDbStock(row, stock);
  }

  /** The algorithm choice and the trade for a located position
      (main.py:240-270): the out algorithm while the position holds shares,
      the in algorithm while it is flat, and nothing at all for an index past
      the list. */
  method TradeStock(db: Database, i: nat, account: Account, stock: Stock, dt: Date, draw: real,
                    orderId: int, failed: bool)
    returns (r: Result<(int, bool)>, alg: Option<Algorithm>)
    requires i < |db.stocks| && account.Valid() && Quoted(account) && stock in account.stockList
    modifies db`orders, db`reasons, db`stocks, stock`count, stock`lastCount, stock`failureReason
    modifies account`cashToTrade
    ensures account.Valid() && Quoted(account)
    ensures |db.stocks| == |old(db.stocks)| && db.stocks[i].accountId == old(db.stocks[i].accountId)
    ensures forall k | 0 <= k < |db.stocks| && k != i :: db.stocks[k] == old(db.stocks[k])
    ensures alg == SelectAlgorithm(old(stock.count), stock.inAlgorithm, stock.outAlgorithm)
    ensures alg.None? ==> r == Ok((orderId, failed)) && db.orders == old(db.orders) && db.stocks == old(db.stocks)
    ensures r.Ok? ==> LoggedStep(old(db.orders), db.orders, orderId, r.value.0, failed, r.value.1, dt, account.id)
    ensures r.Raise? ==> db.orders == old(db.orders) && db.stocks == old(db.stocks)
  {
    r := Ok((orderId, failed));
    alg := SelectAlgorithm(stock.count, stock.inAlgorithm, stock.outAlgorithm);
    if alg.None? {
      return;
    }
    var n :| 0 <= n < |account.stockList| && account.stockList[n] == stock;
    assert stock.account == account && (stock.valid ==> stock.value.Some?);
    r := Trade(db, i, stock, alg.value, dt, draw, orderId, failed);
  }

  /** One Stock row of `run` (main.py:224-270): skipped on a holiday, without
      a position to trade, or without an algorithm at the configured index;
      otherwise traded. */
  method RunStock(db: Database, i: nat, account: Account, sim: seq<Bar>, holidays: set<Date>, dt: Date,
                  draw: real, orderId: int, failed: bool)
    returns (r: Result<(int, bool)>, stock: Stock?, alg: Option<Algorithm>, ghost held: real)
    requires i < |db.stocks| && account.Valid() && Quoted(account)
    modifies db`orders, db`reasons, db`stocks, account`stockList, account`cashToTrade, account.stockList
    ensures account.Valid() && Quoted(account)
    ensures forall s | s in account.stockList :: s in old(account.stockList) || fresh(s)
    ensures |db.stocks| == |old(db.stocks)| && db.stocks[i].accountId == old(db.stocks[i].accountId)
    ensures forall k | 0 <= k < |db.stocks| && k != i :: db.stocks[k] == old(db.stocks[k])
    ensures HolidaySkip(holidays, dt, old(db.stocks[i]).symbol) ==> stock == null
    ensures stock != null ==> stock in account.stockList && stock.symbol == old(db.stocks[i]).symbol
    // the algorithm is chosen by the count the position holds before the trade
    ensures stock != null ==> alg == SelectAlgorithm(held, old(db.stocks[i]).inAlgorithm, old(db.stocks[i]).outAlgorithm)
    ensures stock != null && FirstWithSymbol(old(account.stockList), old(db.stocks[i]).symbol) == null ==> held == 0.0
    ensures stock != null && FirstWithSymbol(old(account.stockList), old(db.stocks[i]).symbol) != null ==>
      held == old(FirstWithSymbol(account.stockList, db.stocks[i].symbol).count)
    ensures stock == null || alg.None? ==>
      r == Ok((orderId, failed)) && db.orders == old(db.orders) && db.stocks == old(db.stocks)
    ensures r.Ok? ==> LoggedStep(old(db.orders), db.orders, orderId, r.value.0, failed, r.value.1, dt, account.id)
    ensures r.Raise? ==> db.orders == old(db.orders) && db.stocks == old(db.stocks)
  {
    var row := db.stocks[i];
    stock, alg, held := null, None, 0.0;
    r := Ok((orderId, failed));
    if HolidaySkip(holidays, dt, row.symbol) {
      return;
    }
    stock := Locate(account, row, sim);
    if stock == null {
      return;
    }
    held := stock.count;
    r, alg := TradeStock(db, i, account, stock, dt, draw, orderId, failed);
  }

  /** The account's last order of the tick is logged as failed. */
  ghost predicate LastFailed(orders: seq<Order>, from: nat)
  {
    |orders| > from && orders[|orders| - 1].action.Failed()
  }

  /** With sticky failures, the last order of the tick is logged as failed
      exactly when some order of the tick is. */
  lemma StickyLastFailed(orders: seq<Order>, from: nat)
    requires Sticky(orders, from)
    ensures LastFailed(orders, from) <==> exists k | from <= k < |orders| :: orders[k].action.Failed()
  {
    if LastFailed(orders, from) {
      assert orders[|orders| - 1].action.Failed();
    }
  }

  /** The Stock-row loop of one Account row of `run` (main.py:224-270):
      trades each of the account's rows in table order, threading the order
      id and the sticky failure flag through them. */
  method RunPositions(db: Database, account: Account, sim: seq<Bar>, holidays: set<Date>, dt: Date,
                      draw: (Date, int, Symbol) -> real, orderId: int)
    returns (r: Result<(int, bool)>)
    requires account.Valid() && Quoted(account)
    modifies db`orders, db`reasons, db`stocks, account`stockList, account`cashToTrade, account.stockList
    ensures account.Valid() && Quoted(account)
    ensures forall s | s in account.stockList :: s in old(account.stockList) || fresh(s)
    ensures |db.stocks| == |old(db.stocks)|
    ensures forall k | 0 <= k < |db.stocks| :: db.stocks[k].accountId == old(db.stocks[k].accountId)
    ensures forall k | 0 <= k < |db.stocks| && old(db.stocks[k]).accountId != account.id ::
      db.stocks[k] == old(db.stocks[k])
    ensures r.Ok? ==> old(db.orders) <= db.orders && r.value.0 - orderId == |db.orders| - |old(db.orders)|
    ensures r.Ok? ==> forall k | |old(db.orders)| <= k < |db.orders| ::
      db.orders[k].dt == dt && db.orders[k].accountId == account.id
    ensures r.Ok? ==> Sticky(db.orders, |old(db.orders)|) && (r.value.1 <==> LastFailed(db.orders, |old(db.orders)|))
  {
    ghost var start := |db.orders|;
    var id, failed := orderId, false;
    var k := 0;
    while k < |db.stocks|
      invariant 0 <= k <= |db.stocks| == |old(db.stocks)|
      invariant account.Valid() && Quoted(account)
      invariant forall s | s in account.stockList :: s in old(account.stockList) || fresh(s)
      invariant forall j | 0 <= j < |db.stocks| :: db.stocks[j].accountId == old(db.stocks[j].accountId)
      invariant forall j | 0 <= j < |db.stocks| && (j >= k || old(db.stocks[j]).accountId != account.id) ::
        db.stocks[j] == old(db.stocks[j])
      invariant old(db.orders) <= db.orders && id - orderId == |db.orders| - start
      invariant forall j | start <= j < |db.orders| :: db.orders[j].dt == dt && db.orders[j].accountId == account.id
      invariant Sticky(db.orders, start) && (failed <==> LastFailed(db.orders, start))
    {
      if db.stocks[k].accountId == account.id {
        ghost var before := db.orders;
        assert forall j | 0 <= j < |account.stockList| ::
          account.stockList[j] in old(account.stockList) || fresh(account.stockList[j]);
        var res, _, _, _ := RunStock(db, k, account, sim, holidays, dt, draw(dt, account.id, db.stocks[k].symbol),
                                     id, failed);
        if res.Raise? {
          return Raise(res.error);
        }
        assert LoggedStep(before, db.orders, id, res.value.0, failed, res.value.1, dt, account.id);
        id, failed := res.value.0, res.value.1;
      }
      k := k + 1;
    }
    return Ok((id, failed));
  }

  /** The close of one Account row of `run` (main.py:274-276): the account
      is marked to market, its row stores the new values and its day report
      for the date replaces any earlier one. */
  method Settle(db: Database, a: nat, account: Account, sim: seq<Bar>, dt: Date)
    requires a < |db.accounts| && db.accounts[a].accountId == account.id
    requires account.Valid()
    modifies db`accounts, db`reports, account`dt, account`netValue, account.stockList`value, account.stockList`valid
    ensures account.Valid() && Quoted(account)
    ensures account.dt == old(account.dt) && account.mode == old(account.mode)
    ensures account.stockList == old(account.stockList) && account.cashToTrade == old(account.cashToTrade)
    ensures account.netValue == account.cashToTrade + HoldingsValue(sim, account.dt, HoldingsOf(account.stockList))
    ensures forall i | 0 <= i < |account.stockList| :: account.stockList[i].count == old(account.stockList[i].count)
    ensures forall i | 0 <= i < |account.stockList| :: var s := account.stockList[i];
      s.valid == (old(s.valid) && LatestOnOrBefore(sim, s.symbol, account.dt).Some?)
    ensures forall i | 0 <= i < |account.stockList| :: var s := account.stockList[i];
      LatestOnOrBefore(sim, s.symbol, account.dt).None? ==> s.value == old(s.value)
    ensures db.accounts == old(db.accounts)[a := old(db.accounts)[a].(netValue := Some(account.netValue),
                                                                    cashToTrade := Some(account.cashToTrade))]
    ensures db.reports == Replace(old(db.reports), DayReport(dt, account.id, account.netValue, account.cashToTrade),
                                  ReportKey(account.id, dt))
  {
    account.Update(None, sim);
    MarkedQuoted(account, sim, account.dt);
    db.StoreDbAccount(a, account);
    db.StoreDayReport(account.id, dt, db.accounts[a].netValue.value, db.accounts[a].cashToTrade.value);
  }

  /** One Account row of `run` (main.py:219-276): trades each of the
      account's Stock rows in table order with one failure flag, moves the
      account from setup to run when no order failed, marks it to market,
      stores its row and replaces its day report. */
  method RunAccount(db: Database, a: nat, account: Account, sim: seq<Bar>, holidays: set<Date>, dt: Date,
                    draw: (Date, int, Symbol) -> real, orderId: int)
    returns (r: Result<int>)
    requires a < |db.accounts| && db.accounts[a].accountId == account.id
    requires account.Valid() && Quoted(account)
    modifies db`orders, db`reasons, db`stocks, db`accounts, db`reports, account, account.stockList
    ensures account.Valid() && Quoted(account) && account.dt == old(account.dt)
    ensures forall s | s in account.stockList :: s in old(account.stockList) || fresh(s)
    ensures |db.stocks| == |old(db.stocks)|
    ensures forall k | 0 <= k < |db.stocks| :: db.stocks[k].accountId == old(db.stocks[k].accountId)
    ensures forall k | 0 <= k < |db.stocks| && old(db.stocks[k]).accountId != account.id ::
      db.stocks[k] == old(db.stocks[k])
    ensures |db.accounts| == |old(db.accounts)|
    ensures forall k | 0 <= k < |db.accounts| :: db.accounts[k].accountId == old(db.accounts[k].accountId)
    ensures r.Ok? ==> old(db.orders) <= db.orders && r.value - orderId == |db.orders| - |old(db.orders)|
    ensures r.Ok? ==> forall k | |old(db.orders)| <= k < |db.orders| ::
      db.orders[k].dt == dt && db.orders[k].accountId == account.id
    ensures r.Ok? ==> Sticky(db.orders, |old(db.orders)|)
    ensures r.Ok? ==>
      account.mode == if old(account.mode) == Setup && !LastFailed(db.orders, |old(db.orders)|) then Running
                      else old(account.mode)
    ensures r.Ok? ==> account.netValue == account.cashToTrade + HoldingsValue(sim, account.dt, HoldingsOf(account.stockList))
    ensures r.Ok? ==>
      db.accounts == old(db.accounts)[a := old(db.accounts)[a].(netValue := Some(account.netValue),
                                                                cashToTrade := Some(account.cashToTrade))]
    ensures r.Ok? ==>
      db.reports == Replace(old(db.reports), DayReport(dt, account.id, account.netValue, account.cashToTrade),
                            ReportKey(account.id, dt))
  {
    var res := RunPositions(db, account, sim, holidays, dt, draw, orderId);
    if res.Raise? {
      return Raise(res.error);
    }
    if !res.value.1 && account.mode == Setup {
      account.mode := Running;
    }
    assert forall j | 0 <= j < |account.stockList| ::
      account.stockList[j] in old(account.stockList) || fresh(account.stockList[j]);
    Settle(db, a, account, sim, dt);
    return Ok(res.value.0);
  }

  /** Every position the client holds has a price where it is valid. */
  ghost predicate AllQuoted(client: Client)
    reads client, client.accountDict.Values, client.Positions()
  {
    forall id | id in client.accountDict ::
      var a := client.accountDict[id];
      assert forall k | 0 <= k < |a.stockList| :: a.stockList[k] in a.stockList;
      Quoted(a)
  }

  /** After `run`, Account row `k` is settled for the tick `dt`: the client
      has an account of its id, the row holds that account's net value and
      cash, and the day's report for it records the same two values. */
  ghost predicate Settled(db: Database, client: Client, k: nat, dt: Date)
    reads db`accounts, db`reports, client`accountDict
    reads client.accountDict.Values`netValue, client.accountDict.Values`cashToTrade
  {
    k < |db.accounts|
    && var row := db.accounts[k];
       row.accountId in client.accountDict
       && var a := client.accountDict[row.accountId];
          row.netValue == Some(a.netValue) && row.cashToTrade == Some(a.cashToTrade)
          && DayReport(dt, row.accountId, a.netValue, a.cashToTrade) in db.reports
  }

  /** One Account row of `run` for the client's account `account` of its
      id: on success row `k` is settled as well as those before it, and no
      other account of the client changes. */
  method RunRow(db: Database, k: nat, client: Client, account: Account, sim: seq<Bar>, holidays: set<Date>,
                dt: Date, draw: (Date, int, Symbol) -> real, orderId: int)
    returns (r: Result<int>)
    requires k < |db.accounts| && db.accounts[k].accountId in client.accountDict
    requires account == client.accountDict[db.accounts[k].accountId]
    requires db.Valid() && client.Valid() && AllQuoted(client)
    requires forall j | 0 <= j < k :: Settled(db, client, j, dt)
    modifies db`orders, db`reasons, db`stocks, db`accounts, db`reports, account, account.stockList
    ensures |db.accounts| == |old(db.accounts)|
    ensures forall j | 0 <= j < |db.accounts| :: db.accounts[j].accountId == old(db.accounts[j].accountId)
    ensures db.Valid() && client.Valid() && AllQuoted(client)
    ensures forall s | s in client.Positions() :: s in old(client.Positions()) || fresh(s)
    ensures r.Ok? ==> old(db.orders) <= db.orders && r.value - orderId == |db.orders| - |old(db.orders)|
    ensures r.Ok? ==> forall j | |old(db.orders)| <= j < |db.orders| :: db.orders[j].dt == dt
    ensures r.Ok? ==> forall j | 0 <= j <= k :: Settled(db, client, j, dt)
    ensures r.Ok? ==> forall rep | rep in old(db.reports) && rep.date != dt :: rep in db.reports
  {
    r := RunAccount(db, k, account, sim, holidays, dt, draw, orderId);
    forall s | s in client.Positions() ensures s in old(client.Positions()) || fresh(s) {
      var id :| id in client.accountDict && s in client.accountDict[id].stockList;
      if client.accountDict[id] != account {
        assert s in old(client.accountDict[id].stockList);
      }
    }
    if r.Ok? {
      forall j | 0 <= j < k ensures Settled(db, client, j, dt) {
        var idj := db.accounts[j].accountId;
        assert old(Settled(db, client, j, dt));
        assert idj != account.id;
        var a := client.accountDict[idj];
        assert a != account;
        assert !ReportKey(account.id, dt)(DayReport(dt, idj, a.netValue, a.cashToTrade));
      }
      forall rep | rep in old(db.reports) && rep.date != dt ensures rep in db.reports {
        assert !ReportKey(account.id, dt)(rep);
      }
    }
  }

  /** The Account-row loop of `run` (main.py:184-276) with order ids
      counted from 0: every row settled in table order, or the first
      exception. */
  method RunRows(db: Database, client: Client, sim: seq<Bar>, holidays: set<Date>, dt: Date,
                 draw: (Date, int, Symbol) -> real)
    returns (r: Result<int>)
    requires db.Valid() && client.Valid() && AllQuoted(client)
    modifies db`orders, db`reasons, db`stocks, db`accounts, db`reports
    modifies client.accountDict.Values, client.Positions()
    ensures db.Valid() && client.Valid() && AllQuoted(client)
    ensures forall s | s in client.Positions() :: s in old(client.Positions()) || fresh(s)
    ensures r.Ok? ==> forall k | 0 <= k < |db.accounts| :: Settled(db, client, k, dt)
    ensures r.Ok? ==> old(db.orders) <= db.orders && r.value == |db.orders| - |old(db.orders)|
    ensures r.Ok? ==> forall k | |old(db.orders)| <= k < |db.orders| :: db.orders[k].dt == dt
    ensures |db.accounts| == |old(db.accounts)|
    ensures forall k | 0 <= k < |db.accounts| :: db.accounts[k].accountId == old(db.accounts[k].accountId)
    ensures r.Ok? ==> forall rep | rep in old(db.reports) && rep.date != dt :: rep in db.reports
  {
    var id := 0;
    var k := 0;
    while k < |db.accounts|
      invariant 0 <= k <= |db.accounts| == |old(db.accounts)|
      invariant forall j | 0 <= j < |db.accounts| :: db.accounts[j].accountId == old(db.accounts[j].accountId)
      invariant db.Valid() && client.Valid() && AllQuoted(client)
      invariant forall s | s in client.Positions() :: s in old(client.Positions()) || fresh(s)
      invariant old(db.orders) <= db.orders && id == |db.orders| - |old(db.orders)|
      invariant forall j | |old(db.orders)| <= j < |db.orders| :: db.orders[j].dt == dt
      invariant forall j | 0 <= j < k :: Settled(db, client, j, dt)
      invariant forall rep | rep in old(db.reports) && rep.date != dt :: rep in db.reports
    {
      var got := client.GetAccount(db.accounts[k].accountId);
      if got.Raise? {
        return Raise(got.error);
      }
      var account := got.value;
      assert account in client.accountDict.Values;
      forall j | 0 <= j < |account.stockList| ensures account.stockList[j] in client.Positions() {
        assert account in client.accountDict.Values && account.stockList[j] in account.stockList;
      }
      assert forall j | 0 <= j < |account.stockList| ::
        account.stockList[j] in old(client.Positions()) || fresh(account.stockList[j]);
      var res := RunRow(db, k, client, account, sim, holidays, dt, draw, id);
      if res.Raise? {
        return Raise(res.error);
      }
      id := res.value;
      k := k + 1;
    }
    return Ok(id);
  }

  /** `run` on the simulated-broker path (main.py:174-284): one tick at `dt`
      for every Account row in table order, with order ids counted from 0 and
      the count stored in OrderID at the end.  The whole run is one database
      transaction: an exception (a row without a client account raises
      KeyError) rolls every table back and propagates; the broker's accounts
      and positions keep what the run did to them. */
  method Run(db: Database, client: Client, sim: seq<Bar>, holidays: set<Date>, dt: Date,
             draw: (Date, int, Symbol) -> real)
    returns (r: Result<bool>)
    requires db.Valid() && client.Valid() && AllQuoted(client)
    modifies db, client.accountDict.Values, client.Positions()
    ensures db.Valid() && client.Valid() && AllQuoted(client)
    ensures forall s | s in client.Positions() :: s in old(client.Positions()) || fresh(s)
    ensures r.Raise? ==> db.State() == old(db.State())
    ensures r.Ok? ==> r.value
    ensures r.Ok? ==> forall k | 0 <= k < |db.accounts| :: Settled(db, client, k, dt)
    ensures r.Ok? ==> |db.accounts| == |old(db.accounts)|
    ensures r.Ok? ==> forall k | 0 <= k < |db.accounts| :: db.accounts[k].accountId == old(db.accounts[k].accountId)
    ensures r.Ok? ==> forall rep | rep in old(db.reports) && rep.date != dt :: rep in db.reports
    ensures r.Ok? ==> old(db.orders) <= db.orders
    ensures r.Ok? ==> forall k | |old(db.orders)| <= k < |db.orders| :: db.orders[k].dt == dt
    ensures r.Ok? ==> db.orderIds == CounterSet(old(db.orderIds), |db.orders| - |old(db.orders)|)
    ensures r.Ok? ==> db.quotes == old(db.quotes) && db.dayHistory == old(db.dayHistory)
    ensures db.simHistory == old(db.simHistory)
  {
    var saved := db.State();
    var res := RunRows(db, client, sim, holidays, dt, draw);
    if res.Raise? {
      db.Restore(saved);
      return Raise(res.error);
    }
    db.StoreOrderId(res.value);
    return Ok(true);
  }

  /** The days `simulate` replays (main.py:300-320): from the earliest
      simulation date on or after `start` to the latest on or before `end`,
      a missing bound taking the table's first or last date.  An explicit
      bound with no date beyond it makes `simulate` return False; a missing
      start bound over an empty table raises IndexError. */
  function SimDays(sim: seq<Bar>, start: Option<Date>, end: Option<Date>): (r: Result<Option<(Date, Date)>>)
    ensures r.Raise? <==> start.None? && sim == []
    ensures r.Raise? ==> r.error == IndexError
    ensures r == Ok(None) <==>
      !(start.None? && sim == [])
      && ((start.Some? && forall b | b in sim :: b.date < start.value)
          || (end.Some? && forall b | b in sim :: b.date > end.value))
    ensures r.Ok? && r.value.Some? ==>
      var (first, last) := r.value.value;
      (exists b | b in sim :: b.date == first && (start.Some? ==> first >= start.value))
      && (forall b | b in sim && (start.Some? ==> b.date >= start.value) :: first <= b.date)
      && (exists b | b in sim :: b.date == last && (end.Some? ==> last <= end.value))
      && (forall b | b in sim && (end.Some? ==> b.date <= end.value) :: b.date <= last)
  {
    var first := EarliestDate(sim, start);
    if first.None? then
      if start.None? then Raise(IndexError) else Ok(None)
    else
      var last := LatestDate(sim, end);
      if last.None? then
        if end.None? then Raise(IndexError) else Ok(None)
      else Ok(Some((first.value, last.value)))
  }

  /** Every symbol of the Stock table with a simulation bar on or before
      `date` has its newest such bar in the day history. */
  ghost predicate NewestLoaded(db: Database, date: Date)
    reads db
  {
    forall s | s in Symbols(db.stocks) && LatestOnOrBefore(db.simHistory, s, date).Some? ::
      HasKey(db.dayHistory, s, LatestOnOrBefore(db.simHistory, s, date).value.date)
  }

  /** `client.update(cur_dt)` of `simulate` (main.py:329): every account is
      marked to market as of `cur`, so every valid position has a price. */
  method MoveBroker(client: Client, cur: Date, sim: seq<Bar>)
    requires client.Valid() && client.Ordered()
    modifies client`currentTime, client.accountDict.Values`dt, client.accountDict.Values`netValue
    modifies client.Positions()`value, client.Positions()`valid
    ensures client.Valid() && client.Ordered() && AllQuoted(client) && client.currentTime == Some(cur)
    ensures forall id | id in client.accountDict :: Marked(client.accountDict[id], sim, cur)
    ensures client.Positions() == old(client.Positions())
    ensures forall s | s in client.Positions() ::
      s.valid == (old(s.valid) && LatestOnOrBefore(sim, s.symbol, cur).Some?)
    ensures forall s | s in client.Positions() && LatestOnOrBefore(sim, s.symbol, cur).None? ::
      s.value == old(s.value)
  {
    var ok := client.Update(cur, sim);
    forall id | id in client.accountDict ensures Quoted(client.accountDict[id]) {
      MarkedQuoted(client.accountDict[id], sim, cur);
    }
  }

  /** Every Account row has a day report dated `d` (DayReport is keyed by
      account and date). */
  ghost predicate ReportedOn(accounts: seq<DbAccount>, reports: seq<DayReport>, d: Date)
  {
    forall k | 0 <= k < |accounts| :: HasReport(reports, d, accounts[k].accountId)
  }

  ghost predicate ReportedDays(accounts: seq<DbAccount>, reports: seq<DayReport>, first: Date, cur: Date)
  {
    forall d | first <= d < cur :: ReportedOn(accounts, reports, d)
  }

  ghost predicate HasReport(reports: seq<DayReport>, d: Date, id: int)
  {
    exists rep | rep in reports :: rep.date == d && rep.accountId == id
  }

  /** Two Account tables with the same ids in the same rows. */
  ghost predicate SameAccountIds(before: seq<DbAccount>, after: seq<DbAccount>)
  {
    |after| == |before| && forall k | 0 <= k < |after| :: after[k].accountId == before[k].accountId
  }

  /** A day whose reports are all filed, added to days whose reports are
      kept, extends the run of reported days by one. */
  lemma ReportedThrough(before: seq<DbAccount>, after: seq<DbAccount>, repBefore: seq<DayReport>,
                        repAfter: seq<DayReport>, first: Date, cur: Date)
    requires SameAccountIds(before, after)
    requires ReportedDays(before, repBefore, first, cur)
    requires forall rep | rep in repBefore && rep.date != cur :: rep in repAfter
    requires ReportedOn(after, repAfter, cur)
    ensures ReportedDays(after, repAfter, first, cur + 1)
  {
    forall d | first <= d < cur ensures ReportedOn(after, repAfter, d) {
      assert ReportedOn(before, repBefore, d);
      forall k | 0 <= k < |after| ensures HasReport(repAfter, d, after[k].accountId) {
        assert HasReport(repBefore, d, before[k].accountId);
        var rep :| rep in repBefore && rep.date == d && rep.accountId == before[k].accountId;
        assert rep in repAfter;
      }
    }
  }

  /** One day of `simulate` (main.py:329-331): the broker is moved to
      `cur`, `run` ticks at `cur`, and the day's simulation bars are copied
      into the day history; an exception of `run` ends the day. */
  method SimulateDay(db: Database, client: Client, cur: Date, holidays: set<Date>,
                     draw: (Date, int, Symbol) -> real)
    returns (r: Result<bool>)
    requires db.Valid() && client.Valid() && client.Ordered()
    modifies db, client`currentTime, client.accountDict.Values, client.Positions()
    ensures db.Valid() && client.Valid() && client.currentTime == Some(cur)
    ensures db.simHistory == old(db.simHistory)
    ensures forall s | s in client.Positions() :: s in old(client.Positions()) || fresh(s)
    ensures r.Ok? ==> old(db.orders) <= db.orders
    ensures r.Ok? ==> forall k | |old(db.orders)| <= k < |db.orders| :: db.orders[k].dt == cur
    ensures r.Ok? ==> NewestLoaded(db, cur) && db.quotes == old(db.quotes)
    ensures r.Ok? ==> SameAccountIds(old(db.accounts), db.accounts)
    ensures r.Ok? ==> forall rep | rep in old(db.reports) && rep.date != cur :: rep in db.reports
    ensures r.Ok? ==> ReportedOn(db.accounts, db.reports, cur)
  {
    MoveBroker(client, cur, db.simHistory);
    r := Run(db, client, db.simHistory, holidays, cur, draw);
    if r.Raise? {
      return;
    }
    forall k | 0 <= k < |db.accounts| ensures HasReport(db.reports, cur, db.accounts[k].accountId) {
      assert Settled(db, client, k, cur);
      var a := client.accountDict[db.accounts[k].accountId];
      assert DayReport(cur, db.accounts[k].accountId, a.netValue, a.cashToTrade) in db.reports;
    }
    ghost var before := db.dayHistory;
    db.LoadHistorySim(cur);
    HistoryLoadedNewest(before, db.simHistory, Deduplicated(Symbols(db.stocks)), cur);
  }

  /** The day loop of `simulate` (main.py:327-332): every day from `first`
      to `last` in turn, stopping at the first exception; the order log and
      the quote cache start empty. */
  method ReplayDays(db: Database, client: Client, first: Date, last: Date, holidays: set<Date>,
                    draw: (Date, int, Symbol) -> real)
    returns (r: Result<bool>)
    requires db.Valid() && client.Valid() && client.Ordered()
    requires db.orders == [] && db.quotes == []
    modifies db, client`currentTime, client.accountDict.Values, client.Positions()
    ensures db.simHistory == old(db.simHistory)
    ensures forall s | s in client.Positions() :: s in old(client.Positions()) || fresh(s)
    ensures r.Ok? ==> r.value && Replayed(db, client, first, last + 1, last)
    ensures r.Raise? ==> db.Valid() && client.Valid() && client.Ordered()
  {
    ghost var held := client.Positions();
    var cur := first;
    while cur <= last
      invariant first <= cur && (if first <= last then cur <= last + 1 else cur == first)
      invariant db.simHistory == old(db.simHistory) && Replayed(db, client, first, cur, last)
      invariant forall s | s in client.Positions() :: s in held || fresh(s)
    {
      var day := ReplayDay(db, client, first, cur, last, holidays, draw);
      if day.Raise? {
        return Raise(day.error);
      }
      cur := cur + 1;
    }
    if last < first {
      ReplayedNone(db, client, first, last);
    }
    return Ok(true);
  }

  /** An empty range replays nothing: the state before the loop already
      satisfies `Replayed` through the day after `last`. */
  lemma ReplayedNone(db: Database, client: Client, first: Date, last: Date)
    requires last < first && Replayed(db, client, first, first, last)
    ensures Replayed(db, client, first, last + 1, last)
  {
  }

  /** What replaying the days from `first` to the day before `cur` leaves:
      a valid client and database, no quotes, orders dated within the days replayed,
      and the newest bars of the last day replayed in the day history. */
  ghost predicate Replayed(db: Database, client: Client, first: Date, cur: Date, last: Date)
    reads db, client, client.accountDict.Values
  {
    client.Valid() && client.Ordered() && db.Valid() && db.quotes == []
    && (forall o | o in db.orders :: first <= o.dt < cur && o.dt <= last)
    && ReportedDays(db.accounts, db.reports, first, cur)
    && (cur > first ==> NewestLoaded(db, cur - 1))
  }

  /** One iteration of the day loop of `simulate` (main.py:327-332). */
  method ReplayDay(db: Database, client: Client, first: Date, cur: Date, last: Date, holidays: set<Date>,
                   draw: (Date, int, Symbol) -> real)
    returns (r: Result<bool>)
    requires first <= cur <= last
    requires Replayed(db, client, first, cur, last)
    modifies db, client`currentTime, client.accountDict.Values, client.Positions()
    ensures db.Valid() && client.Valid() && client.Ordered() && db.simHistory == old(db.simHistory)
    ensures forall s | s in client.Positions() :: s in old(client.Positions()) || fresh(s)
    ensures r.Ok? ==> Replayed(db, client, first, cur + 1, last)
  {
    ghost var before, accounts, reports := db.orders, db.accounts, db.reports;
    r := SimulateDay(db, client, cur, holidays, draw);
    if r.Ok? {
      OrdersDatedThrough(before, db.orders, first, cur, last);
      ReportedThrough(accounts, db.accounts, reports, db.reports, first, cur);
    }
  }

  /** A day's orders, all dated `cur`, appended to a log dated from `first`
      up to the day before keep the log dated from `first` up to `cur`. */
  lemma OrdersDatedThrough(before: seq<Order>, after: seq<Order>, first: Date, cur: Date, last: Date)
    requires first <= cur <= last && before <= after
    requires forall o | o in before :: first <= o.dt < cur && o.dt <= last
    requires forall k | |before| <= k < |after| :: after[k].dt == cur
    ensures forall o | o in after :: first <= o.dt < cur + 1 && o.dt <= last
  {
    forall o | o in after ensures first <= o.dt < cur + 1 && o.dt <= last {
      var k :| 0 <= k < |after| && after[k] == o;
      if k < |before| {
        assert o in before;
      }
    }
  }

  /** The simulated broker of `simulate` (main.py:324-326): a new client
      logged in on the first day with the reset configuration; every account
      and position it holds is new. */
  method StartBroker(first: Date, sim: seq<Bar>) returns (client: Client)
    ensures fresh(client) && client.Valid() && client.Ordered()
    ensures client.config == Some(ResetSimConfig())
    ensures client.accountDict.Keys == ById(ResetSimConfig().accounts).Keys
    ensures forall a | a in client.accountDict.Values :: fresh(a)
    ensures forall s | s in client.Positions() :: fresh(s)
  {
    client := new Client();
    var _ := client.Login(first, Some(ResetSimConfig()), sim);
    PositionsFresh(client);
  }

  twostate lemma PositionsFresh(new client: Client)
    requires forall a | a in client.accountDict.Values :: forall s | s in a.stockList :: fresh(s)
    ensures forall s | s in client.Positions() :: fresh(s)
  {
    forall s | s in client.Positions() ensures fresh(s) {
      var id :| id in client.accountDict && s in client.accountDict[id].stockList;
      assert client.accountDict[id] in client.accountDict.Values;
    }
  }

  /** The `logout` that ends `simulate` (main.py:334): every account of the
      reset configuration is there, so the configuration written lists the
      ten accounts 0 to 9 in order. */
  method FinishBroker(client: Client, sim: seq<Bar>) returns (written: Config)
    requires client.Valid() && client.config == Some(ResetSimConfig())
    requires client.accountDict.Keys == ById(ResetSimConfig().accounts).Keys
    modifies client`config, client.accountDict.Values, client.Positions()
    ensures |written.accounts| == 10 && forall k | 0 <= k < 10 :: written.accounts[k].id == k
  {
    var config := ResetSimConfig();
    forall k | 0 <= k < 10 ensures config.accounts[k].id in client.accountDict {
      ById_IsLastEntry(config.accounts, config.accounts[k].id);
    }
    var r := client.Logout(sim);
    written := r.value;
  }

  /** `simulate` (main.py:287-336): resets the log tables and the Stock rows'
      counts, finds the days to replay, logs a reset simulated broker in on
      the first day, replays every day up to the last, and logs out.  `file`
      is what the simulated broker's configuration file is left holding, when
      `simulate` writes it. */
  method Simulate(db: Database, start: Option<Date>, end: Option<Date>, holidays: set<Date>,
                  draw: (Date, int, Symbol) -> real)
    returns (r: Result<bool>, file: Option<Config>)
    requires db.Valid()
    modifies db
    ensures db.Valid() && db.simHistory == old(db.simHistory)
    ensures var days := SimDays(old(db.simHistory), start, end);
      (days.Raise? ==> r == Raise(days.error) && file.None?)
      && (days == Ok(None) ==> r == Ok(false) && file.None?)
      && (days.Ok? && days.value.Some? ==> file.Some?)
    // a range without days leaves the reset tables
    ensures file.None? ==>
      db.orders == [] && db.quotes == [] && db.reports == [] && db.dayHistory == []
      && |db.stocks| == |old(db.stocks)|
      && forall k | 0 <= k < |db.stocks| :: db.stocks[k] == Zeroed(old(db.accounts), old(db.stocks)[k])
    // a day whose run raised leaves the reset configuration in the file
    ensures r.Raise? && file.Some? ==> file == Some(ResetSimConfig())
    ensures r == Ok(true) ==>
      var days := SimDays(old(db.simHistory), start, end);
      var (first, last) := days.value.value;
      file.Some? && |file.value.accounts| == 10
      && (forall k | 0 <= k < 10 :: file.value.accounts[k].id == k)
      && (forall o | o in db.orders :: first <= o.dt <= last)
      && (forall d | first <= d <= last :: ReportedOn(db.accounts, db.reports, d))
      && db.quotes == []
      && (first <= last ==> NewestLoaded(db, last))
  {
    file := None;
    db.ResetForSimulation();
    var days := SimDays(db.simHistory, start, end);
    if days.Raise? {
      return Raise(days.error), None;
    }
    if days.value.None? {
      return Ok(false), None;
    }
    var (first, last) := days.value.value;
    var written;
    r, written := SimulateRange(db, first, last, holidays, draw);
    file := Some(written);
  }

  /** The replay of `simulate` once the days are known (main.py:324-334):
      the reset configuration is written on login, every day is replayed,
      and the logout writes the final one, unless a day raised. */
  method SimulateRange(db: Database, first: Date, last: Date, holidays: set<Date>,
                       draw: (Date, int, Symbol) -> real)
    returns (r: Result<bool>, written: Config)
    requires db.Valid() && db.orders == [] && db.quotes == []
    modifies db
    ensures db.Valid() && db.simHistory == old(db.simHistory)
    ensures r.Raise? ==> written == ResetSimConfig()
    ensures r.Ok? ==>
      r.value && |written.accounts| == 10
      && (forall k | 0 <= k < 10 :: written.accounts[k].id == k)
      && (forall o | o in db.orders :: first <= o.dt <= last)
      && (forall d | first <= d <= last :: ReportedOn(db.accounts, db.reports, d))
      && db.quotes == []
      && (first <= last ==> NewestLoaded(db, last))
  {
    written := ResetSimConfig();
    var client := StartBroker(first, db.simHistory);
    r := ReplayDays(db, client, first, last, holidays, draw);
    if r.Raise? {
      return;
    }
    written := FinishBroker(client, db.simHistory);
  }
}
