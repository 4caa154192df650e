/** The tables of the Django schema (stock/models.py) as the fields of one
    in-memory database, and the helpers of stock/main.py that move state
    between those tables and the broker's objects: the position and account
    columns, the order ledger, the day reports, the quote cache, the order-id
    counter and the copying of simulation bars into the day history. */
module Store {
  import opened Wrappers
  import opened PyNum
  import opened Market
  import opened Models
  import opened Ledger
  import opened SimClient
  import Algorithms

  /** MIN_HISTORY_DAYS: the most simulation bars of a symbol one call of
      load_history_sim looks at. */
  const MinHistoryDays: nat := 120

  /** The counter get_order_id creates when the OrderID table is empty. */
  const FirstOrderId: int := 500

  /** The symbol column of Stock rows, in table order. */
  function Symbols(rows: seq<DbStock>): (r: seq<Symbol>)
    ensures |r| == |rows|
    ensures forall i | 0 <= i < |rows| :: r[i] == rows[i].symbol
  {
    seq(|rows|, i requires 0 <= i < |rows| => rows[i].symbol)
  }

  /** The symbols of `xs` in order of first appearance, each once: the
      `if symbol not in symbol_list: append` loops. */
  function Deduplicated(xs: seq<Symbol>): (r: seq<Symbol>)
    ensures forall i, j | 0 <= i < j < |r| :: r[i] != r[j]
    ensures forall x :: x in r <==> x in xs
  {
    if xs == [] then []
    else
      var front := Deduplicated(xs[..|xs| - 1]);
      var last := xs[|xs| - 1];
      assert xs == xs[..|xs| - 1] + [last];
      if last in front then front else front + [last]
  }

  /** The symbol list store_quotes and load_history_sim build from the
      Stock table. */
  method SymbolList(rows: seq<DbStock>) returns (r: seq<Symbol>)
    ensures r == Deduplicated(Symbols(rows))
  {
    r := [];
    for i := 0 to |rows|
      invariant r == Deduplicated(Symbols(rows[..i]))
    {
      assert Symbols(rows[..i + 1])[..i] == Symbols(rows[..i]);
      if rows[i].symbol !in r {
        r := r + [rows[i].symbol];
      }
    }
    assert rows[..|rows|] == rows;
  }

  /** The rows of `xs` that `gone` does not select, in order: what is left
      after deleting the rows of a `filter(...)`. */
  function Without<T(!new)>(xs: seq<T>, gone: T -> bool): (r: seq<T>)
    ensures |r| <= |xs|
    ensures forall x :: x in r <==> x in xs && !gone(x)
  {
    if xs == [] then []
    else
      var last := xs[|xs| - 1];
      assert xs == xs[..|xs| - 1] + [last];
      Without(xs[..|xs| - 1], gone) + (if gone(last) then [] else [last])
  }

  /** The delete loop of store_day_report and store_quotes. */
  method Delete<T(!new)>(xs: seq<T>, gone: T -> bool) returns (r: seq<T>)
    ensures r == Without(xs, gone)
  {
    r := [];
    for i := 0 to |xs|
      invariant r == Without(xs[..i], gone)
    {
      assert xs[..i + 1][..i] == xs[..i];
      if !gone(xs[i]) {
        r := r + [xs[i]];
      }
    }
    assert xs[..|xs|] == xs;
  }

  /** Delete the rows with the key of `row`, then save `row`. */
  function Replace<T(!new)>(xs: seq<T>, row: T, same: T -> bool): (r: seq<T>)
    requires same(row)
    // the saved row is the only one left with its key
    ensures r != [] && r[|r| - 1] == row
    ensures forall k | 0 <= k < |r| - 1 :: !same(r[k])
    // every row with another key stays
    ensures forall x | !same(x) :: x in r <==> x in xs
  {
    var kept := Without(xs, same);
    assert forall k | 0 <= k < |kept| :: kept[k] in kept;
    kept + [row]
  }

  /** The unique key (account, date) of DayReport. */
  function ReportKey(accountId: int, date: Date): DayReport -> bool
  {
    (rep: DayReport) => rep.accountId == accountId && rep.date == date
  }

  /** The unique key (symbol, dt) of Quote. */
  function QuoteKey(symbol: Symbol, dt: Date): QuoteRow -> bool
  {
    (q: QuoteRow) => q.symbol == symbol && q.dt == dt
  }

  /** The action store_order records for a signed quantity and the tick's
      failure flag. */
  function ActionOf(decision: real, failed: bool): (a: Action)
    ensures a == Buy <==> decision > 0.0 && !failed
    ensures a == BuyFail <==> decision > 0.0 && failed
    ensures a == Sell <==> decision < 0.0 && !failed
    ensures a == SellFail <==> decision <= 0.0 && (failed || decision == 0.0)
    ensures a.Failed() <==> failed || decision == 0.0
  {
    if decision > 0.0 && !failed then Buy
    else if decision > 0.0 then BuyFail
    else if decision < 0.0 && !failed then Sell
    else SellFail
  }

  /** The Order row store_order saves. */
  function OrderRow(dt: Date, symbol: Symbol, accountId: int, price: real, decision: real,
                    failed: bool, reason: string): Order
  {
    Order(dt, symbol, accountId, price, Abs(decision), ActionOf(decision, failed), reason)
  }

  /** The ledger keeps the signed quantity: the count is the decision's
      magnitude, and the action's side is its sign. */
  lemma OrderRowRecordsDecision(dt: Date, symbol: Symbol, accountId: int, price: real,
                                decision: real, failed: bool, reason: string)
    requires decision != 0.0
    ensures var o := OrderRow(dt, symbol, accountId, price, decision, failed, reason);
      (if o.action.Buy? || o.action.BuyFail? then o.count else -o.count) == decision
      && (o.action.Failed() <==> failed)
  {
  }

  /** The OrderID table after `store_order_id(id)`. */
  function CounterSet(ids: seq<int>, id: int): (r: seq<int>)
    ensures r != [] && r[0] == id
    ensures |r| == (if ids == [] then 1 else |ids|)
    ensures ids != [] ==> r[1..] == ids[1..]
  {
    if ids == [] then [id] else [id] + ids[1..]
  }

  /** What `get_order_id` returns for an OrderID table. */
  function CounterRead(ids: seq<int>): int
  {
    if ids == [] then FirstOrderId else ids[0]
  }

  /** A counter stored is the counter read back. */
  lemma CounterRoundTrip(ids: seq<int>, id: int)
    ensures CounterRead(CounterSet(ids, id)) == id
    ensures CounterSet(CounterSet(ids, id), CounterRead(ids)) == CounterSet(ids, CounterRead(ids))
  {
  }

  /** The Stock-row columns load_db_stock copies into a position, with the
      budget the row's share of the account's net value. */
  function Loaded(s: StockSettings, row: DbStock, netValue: real): (r: StockSettings)
    ensures r.count == s.count && r.failureReason == s.failureReason
    ensures r.budget == netValue * row.share
    ensures r.inAlgorithm == row.inAlgorithm && r.inStance == row.inStance
    ensures r.outAlgorithm == row.outAlgorithm && r.outStance == row.outStance
    ensures r.lastCount == (if row.lastCount.Some? then row.lastCount.value else 0.0)
  {
    s.(budget := netValue * row.share, inAlgorithm := row.inAlgorithm, inStance := row.inStance,
       outAlgorithm := row.outAlgorithm, outStance := row.outStance,
       lastCount := if row.lastCount.None? then 0.0 else row.lastCount.value)
  }

  /** The Stock row after store_db_stock. */
  function Stored(row: DbStock, count: real, lastCount: real): DbStock
  {
    row.(count := Some(count), lastCount := Some(lastCount))
  }

  /** A position loaded from the row it was stored to gets back its
      `last_count`: load_db_stock undoes store_db_stock. */
  lemma StoredThenLoaded(s: StockSettings, row: DbStock, netValue: real, count: real, lastCount: real)
    ensures Loaded(s, Stored(row, count, lastCount), netValue).lastCount == lastCount
    ensures Loaded(s, Stored(row, count, lastCount), netValue) == Loaded(s, row, netValue).(lastCount := lastCount)
  {
  }

  /** `load_db_stock`: configures the position from its Stock row. */
  method LoadDbStock(row: DbStock, stock: Stock)
    modifies stock`budget, stock`inAlgorithm, stock`inStance, stock`outAlgorithm, stock`outStance
    modifies stock`lastCount
    ensures stock.Settings() == Loaded(old(stock.Settings()), row, stock.account.netValue)
  {
    stock.budget := stock.account.netValue * row.share;
    stock.inAlgorithm := row.inAlgorithm;
    stock.inStance := row.inStance;
    stock.outAlgorithm := row.outAlgorithm;
    stock.outStance := row.outStance;
    if row.lastCount.None? {
      stock.lastCount := 0.0;
    } else {
      stock.lastCount := row.lastCount.value;
    }
  }

  /** The quote cache after store_quotes has walked `symbols`: a symbol with
      a bar on or before `now` gets its one row at `dt`, priced at that bar's
      open. */
  function QuotesStored(qs: seq<QuoteRow>, symbols: seq<Symbol>, dt: Date, sim: seq<Bar>, now: Date)
    : seq<QuoteRow>
    decreases |symbols|
  {
    if symbols == [] then qs
    else
      var bar := LatestOnOrBefore(sim, symbols[0], now);
      var next := if bar.None? then qs
                  else Replace(qs, QuoteRow(symbols[0], dt, bar.value.open, bar.value.open), QuoteKey(symbols[0], dt));
      QuotesStored(next, symbols[1..], dt, sim, now)
  }

  /** The quote cache holds `row`, and no other row with its key. */
  ghost predicate QuoteCached(qs: seq<QuoteRow>, row: QuoteRow)
  {
    row in qs && forall q | q in qs && q.symbol == row.symbol && q.dt == row.dt :: q == row
  }

  /** Storing quotes never loses a cached row: a row of another key stays,
      and one of the same key is rewritten with the same price. */
  lemma {:induction false} QuotesStoredKeep(qs: seq<QuoteRow>, symbols: seq<Symbol>, dt: Date,
                                            sim: seq<Bar>, now: Date, row: QuoteRow)
    requires QuoteCached(qs, row) && row.dt == dt
    requires var bar := LatestOnOrBefore(sim, row.symbol, now); bar.Some? && row.ask == row.bid == bar.value.open
    ensures QuoteCached(QuotesStored(qs, symbols, dt, sim, now), row)
    decreases |symbols|
  {
    if symbols != [] {
      var bar := LatestOnOrBefore(sim, symbols[0], now);
      if bar.Some? {
        var q := QuoteRow(symbols[0], dt, bar.value.open, bar.value.open);
        var next := Replace(qs, q, QuoteKey(symbols[0], dt));
        if symbols[0] != row.symbol {
          assert !QuoteKey(symbols[0], dt)(row);
          forall x | x in next && x.symbol == row.symbol && x.dt == row.dt ensures x == row {
            assert !QuoteKey(symbols[0], dt)(x);
          }
        } else {
          assert q == row;
          forall x | x in next && x.symbol == row.symbol && x.dt == row.dt ensures x == row {
            var k :| 0 <= k < |next| && next[k] == x;
            assert k == |next| - 1;
          }
        }
        QuotesStoredKeep(next, symbols[1..], dt, sim, now, row);
      } else {
        QuotesStoredKeep(qs, symbols[1..], dt, sim, now, row);
      }
    }
  }

  /** After store_quotes, every listed symbol with a bar on or before `now`
      has exactly its one quote row at `dt`, with ask and bid that bar's open. */
  lemma {:induction false} QuotesStoredCache(qs: seq<QuoteRow>, symbols: seq<Symbol>, dt: Date,
                                             sim: seq<Bar>, now: Date, s: Symbol)
    requires s in symbols && LatestOnOrBefore(sim, s, now).Some?
    ensures var o := LatestOnOrBefore(sim, s, now).value.open;
      QuoteCached(QuotesStored(qs, symbols, dt, sim, now), QuoteRow(s, dt, o, o))
    decreases |symbols|
  {
    var o := LatestOnOrBefore(sim, s, now).value.open;
    var row := QuoteRow(s, dt, o, o);
    var bar := LatestOnOrBefore(sim, symbols[0], now);
    var next := if bar.None? then qs
                else Replace(qs, QuoteRow(symbols[0], dt, bar.value.open, bar.value.open), QuoteKey(symbols[0], dt));
    if symbols[0] == s {
      forall x | x in next && x.symbol == s && x.dt == dt ensures x == row {
        var k :| 0 <= k < |next| && next[k] == x;
        assert k == |next| - 1;
      }
      QuotesStoredKeep(next, symbols[1..], dt, sim, now, row);
    } else {
      assert s in symbols[1..];
      QuotesStoredCache(next, symbols[1..], dt, sim, now, s);
    }
  }

  /** The simulation bars load_history_sim copies for one symbol: at most
      MIN_HISTORY_DAYS of them, none after `curDate`, newest first. */
  function SimWindow(sim: seq<Bar>, symbol: Symbol, curDate: Date): seq<Bar>
  {
    Algorithms.Recent(OnOrBefore(sim, curDate), symbol, MinHistoryDays)
  }

  /** The window is empty exactly when the symbol has no bar up to
      `curDate`, and it starts with the newest such bar. */
  lemma {:induction false} SimWindowHead(sim: seq<Bar>, symbol: Symbol, curDate: Date)
    ensures LatestOnOrBefore(sim, symbol, curDate).None? <==> SimWindow(sim, symbol, curDate) == []
    ensures LatestOnOrBefore(sim, symbol, curDate).Some? ==>
      SimWindow(sim, symbol, curDate)[0] == LatestOnOrBefore(sim, symbol, curDate).value
  {
    FilteredHead(sim, symbol, curDate);
  }

  lemma {:induction false} FilteredHead(t: seq<Bar>, symbol: Symbol, date: Date)
    ensures LatestOnOrBefore(t, symbol, date).None? <==> ForSymbol(OnOrBefore(t, date), symbol) == []
    ensures LatestOnOrBefore(t, symbol, date).Some? ==>
      ForSymbol(OnOrBefore(t, date), symbol)[0] == LatestOnOrBefore(t, symbol, date).value
  {
    if t != [] {
      FilteredHead(t[1..], symbol, date);
      if t[0].date <= date {
        assert OnOrBefore(t, date) == [t[0]] + OnOrBefore(t[1..], date);
        assert ([t[0]] + OnOrBefore(t[1..], date))[1..] == OnOrBefore(t[1..], date);
      }
    }
  }

  /** `for sim_history in sim_histories`: inserting day-history copies of
      `bars` in turn, up to the first one whose (symbol, date) is already
      present. */
  function CopyUntilPresent(t: seq<Bar>, bars: seq<Bar>): (r: seq<Bar>)
    ensures multiset(t) <= multiset(r)
    ensures forall b | b in r :: b in t || b in bars
    decreases |bars|
  {
    if bars == [] || HasKey(t, bars[0].symbol, bars[0].date) then t
    else
      var r := CopyUntilPresent(Insert(t, bars[0]), bars[1..]);
      assert forall b | b in Insert(t, bars[0]) :: b in multiset(t) + multiset{bars[0]};
      assert forall b | b in bars[1..] :: b in bars;
      r
  }

  /** A key present in a table is present in any table holding its rows. */
  lemma KeyKept(t: seq<Bar>, r: seq<Bar>, symbol: Symbol, date: Date)
    requires multiset(t) <= multiset(r) && HasKey(t, symbol, date)
    ensures HasKey(r, symbol, date)
  {
    var i :| 0 <= i < |t| && t[i].symbol == symbol && t[i].date == date;
    assert t[i] in multiset(r);
    var j :| 0 <= j < |r| && r[j] == t[i];
  }

  /** Copying keeps the day history a table, and the first bar offered is
      present afterwards. */
  lemma {:induction false} CopyUntilPresentTable(t: seq<Bar>, bars: seq<Bar>)
    requires Table(t)
    ensures Table(CopyUntilPresent(t, bars))
    ensures bars != [] ==> HasKey(CopyUntilPresent(t, bars), bars[0].symbol, bars[0].date)
    decreases |bars|
  {
    if bars != [] && !HasKey(t, bars[0].symbol, bars[0].date) {
      InsertKeepsTable(t, bars[0]);
      CopyUntilPresentTable(Insert(t, bars[0]), bars[1..]);
      KeyKept(Insert(t, bars[0]), CopyUntilPresent(t, bars), bars[0].symbol, bars[0].date);
    }
  }

  /** The day history after load_history_sim has walked `symbols`. */
  function HistoryLoaded(t: seq<Bar>, sim: seq<Bar>, symbols: seq<Symbol>, curDate: Date): (r: seq<Bar>)
    ensures multiset(t) <= multiset(r)
    decreases |symbols|
  {
    if symbols == [] then t
    else HistoryLoaded(CopyUntilPresent(t, SimWindow(sim, symbols[0], curDate)), sim, symbols[1..], curDate)
  }

  /** After load_history_sim the day history is still a table, and every
      listed symbol's newest simulation bar up to `curDate` is in it. */
  lemma {:induction false} HistoryLoadedNewest(t: seq<Bar>, sim: seq<Bar>, symbols: seq<Symbol>, curDate: Date)
    requires Table(t)
    ensures Table(HistoryLoaded(t, sim, symbols, curDate))
    ensures forall s | s in symbols && LatestOnOrBefore(sim, s, curDate).Some? ::
      HasKey(HistoryLoaded(t, sim, symbols, curDate), s, LatestOnOrBefore(sim, s, curDate).value.date)
    decreases |symbols|
  {
    if symbols != [] {
      var s0 := symbols[0];
      var next := CopyUntilPresent(t, SimWindow(sim, s0, curDate));
      var r := HistoryLoaded(t, sim, symbols, curDate);
      CopyUntilPresentTable(t, SimWindow(sim, s0, curDate));
      HistoryLoadedNewest(next, sim, symbols[1..], curDate);
      SimWindowHead(sim, s0, curDate);
      if LatestOnOrBefore(sim, s0, curDate).Some? {
        KeyKept(next, r, s0, LatestOnOrBefore(sim, s0, curDate).value.date);
      }
      assert forall s | s in symbols :: s == s0 || s in symbols[1..];
    }
  }

  /** Some Account row has the account id `id`. */
  predicate HasAccount(accounts: seq<DbAccount>, id: int)
  {
    exists j | 0 <= j < |accounts| :: accounts[j].accountId == id
  }

  /** A Stock row after the reset of `simulate`: a row of a listed account
      holds no shares, and nothing else of it changes. */
  function Zeroed(accounts: seq<DbAccount>, row: DbStock): (r: DbStock)
    ensures r == row.(count := r.count)
    ensures HasAccount(accounts, row.accountId) ==> r.count == Some(0.0)
    ensures !HasAccount(accounts, row.accountId) ==> r == row
  {
    if HasAccount(accounts, row.accountId) then row.(count := Some(0.0)) else row
  }

  /** Everything `run` and `simulate` keep in the database. */
  datatype DbState = DbState(accounts: seq<DbAccount>, stocks: seq<DbStock>, orders: seq<Order>,
                             reasons: seq<string>, reports: seq<DayReport>, quotes: seq<QuoteRow>,
                             dayHistory: seq<Bar>, simHistory: seq<Bar>, orderIds: seq<int>)

  class Database {
    var accounts: seq<DbAccount>
    var stocks: seq<DbStock>
    var orders: seq<Order>
    /** FailureReason: one row per message. */
    var reasons: seq<string>
    var reports: seq<DayReport>
    var quotes: seq<QuoteRow>
    var dayHistory: seq<Bar>
    var simHistory: seq<Bar>
    /** OrderID: get_order_id reads its first row. */
    var orderIds: seq<int>

    /** The bar tables are tables, and account_id is the Account key. */
    ghost predicate Valid()
      reads this
    {
      Table(dayHistory) && Table(simHistory)
      && forall i, j | 0 <= i < j < |accounts| :: accounts[i].accountId != accounts[j].accountId
    }

    function State(): DbState
      reads this
    {
      DbState(accounts, stocks, orders, reasons, reports, quotes, dayHistory, simHistory, orderIds)
    }

    /** The rollback of `@transaction.atomic`. */
    method Restore(s: DbState)
      modifies this
      ensures State() == s
    {
      accounts, stocks, orders, reasons := s.accounts, s.stocks, s.orders, s.reasons;
      reports, quotes, dayHistory, simHistory, orderIds := s.reports, s.quotes, s.dayHistory, s.simHistory, s.orderIds;
    }

    /** `store_db_account`: the account's net value and cash go to its row. */
    method StoreDbAccount(i: nat, account: Account)
      requires i < |accounts|
      modifies this`accounts
      ensures accounts == old(accounts)[i := old(accounts)[i].(netValue := Some(account.netValue),
                                                             cashToTrade := Some(account.cashToTrade))]
    {
      accounts := accounts[i := accounts[i].(netValue := Some(account.netValue),
                                             cashToTrade := Some(account.cashToTrade))];
    }

    /** The reset of `simulate` (main.py:288-298): the Order, Quote,
        DayReport and DayHistory tables are emptied and every Stock row of
        an Account holds no shares. */
    method ResetForSimulation()
      modifies this`orders, this`quotes, this`reports, this`dayHistory, this`stocks
      ensures orders == [] && quotes == [] && reports == [] && dayHistory == []
      ensures |stocks| == |old(stocks)|
      ensures forall k | 0 <= k < |stocks| :: stocks[k] == Zeroed(accounts, old(stocks)[k])
    {
      orders, quotes, reports, dayHistory := [], [], [], [];
      var k := 0;
      while k < |stocks|
        invariant 0 <= k <= |stocks| == |old(stocks)|
        invariant orders == [] && quotes == [] && reports == [] && dayHistory == []
        invariant forall j | 0 <= j < k :: stocks[j] == Zeroed(accounts, old(stocks)[j])
        invariant forall j | k <= j < |stocks| :: stocks[j] == old(stocks)[j]
      {
        if HasAccount(accounts, stocks[k].accountId) {
          stocks := stocks[k := stocks[k].(count := Some(0.0))];
        }
        k := k + 1;
      }
    }

    /** `store_db_stock`: the position's count and last count go to its row;
        its price has no column. */
    method StoreDbStock(i: nat, stock: Stock)
      requires i < |stocks|
      modifies this`stocks
      ensures stocks == old(stocks)[i := Stored(old(stocks)[i], stock.count, stock.lastCount)]
    {
      stocks := stocks[i := Stored(stocks[i], stock.count, stock.lastCount)];
    }

    /** `store_day_report`: replaces the account's report of `date` by one
        holding the account row's net value and cash. */
    method StoreDayReport(accountId: int, date: Date, netValue: real, cashToTrade: real)
      modifies this`reports
      ensures reports == Replace(old(reports), DayReport(date, accountId, netValue, cashToTrade),
                                 ReportKey(accountId, date))
    {
      var kept := Delete(reports, ReportKey(accountId, date));
      reports := kept + [DayReport(date, accountId, netValue, cashToTrade)];
    }

    /** `store_order`: logs an order of `decision` shares of the position at
        its current price, creating the failure message's row on first use.
        An unpriced position has no price for the NOT NULL column. */
    method StoreOrder(stock: Stock, dt: Date, decision: real, failed: bool, reason: string)
      returns (r: Result<()>)
      modifies this`orders, this`reasons
      ensures reasons == if reason in old(reasons) then old(reasons) else old(reasons) + [reason]
      ensures stock.value.None? ==> r == Raise(IntegrityError) && orders == old(orders)
      ensures stock.value.Some? ==> r == Ok(())
      ensures stock.value.Some? ==>
        orders == old(orders) + [OrderRow(dt, stock.symbol, stock.account.id, stock.value.value,
                                          decision, failed, reason)]
    {
      if reason !in reasons {
        reasons := reasons + [reason];
      }
      if stock.value.None? {
        return Raise(IntegrityError);
      }
      orders := orders + [OrderRow(dt, stock.symbol, stock.account.id, stock.value.value,
                                   decision, failed, reason)];
      return Ok(());
    }

    /** `store_quotes`: caches, at `dt`, the client's quote of every symbol
        of the Stock table that has one.  A client that has no current time
        raises AttributeError on the first symbol, before any row changes. */
    method StoreQuotes(client: Client, dt: Date) returns (r: Result<()>)
      modifies this`quotes
      ensures r.Raise? <==> client.currentTime.None? && Deduplicated(Symbols(stocks)) != []
      ensures r.Raise? ==> r.error == AttributeError && quotes == old(quotes)
      ensures client.currentTime.None? ==> quotes == old(quotes)
      ensures client.currentTime.Some? ==>
        quotes == QuotesStored(old(quotes), Deduplicated(Symbols(stocks)), dt, simHistory, client.currentTime.value)
    {
      var symbols := SymbolList(stocks);
      if client.currentTime.None? {
        if symbols != [] {
          var quote := client.GetQuote(symbols[0], simHistory);
          return Raise(quote.error);
        }
        return Ok(());
      }
      var i := 0;
      while i < |symbols|
        invariant 0 <= i <= |symbols|
        invariant QuotesStored(quotes, symbols[i..], dt, simHistory, client.currentTime.value)
                  == QuotesStored(old(quotes), symbols, dt, simHistory, client.currentTime.value)
      {
        var quote := client.GetQuote(symbols[i], simHistory);
        assert symbols[i..][1..] == symbols[i + 1..];
        if quote.Ok? && quote.value != null {
          var kept := Delete(quotes, QuoteKey(symbols[i], dt));
          quotes := kept + [QuoteRow(symbols[i], dt, quote.value.ask.value, quote.value.bid.value)];
        }
        i := i + 1;
      }
      return Ok(());
    }

    /** `get_order_id`: the stored counter, created at 500 when absent. */
    method GetOrderId() returns (id: int)
      modifies this`orderIds
      ensures orderIds == if old(orderIds) == [] then [FirstOrderId] else old(orderIds)
      ensures id == CounterRead(old(orderIds)) == orderIds[0]
    {
      if orderIds == [] {
        orderIds := [FirstOrderId];
      }
      id := orderIds[0];
    }

    /** `store_order_id`: overwrites the first counter row, or creates one. */
    method StoreOrderId(id: int)
      modifies this`orderIds
      ensures orderIds == CounterSet(old(orderIds), id)
    {
      if orderIds == [] {
        orderIds := [id];
      } else {
        orderIds := orderIds[0 := id];
      }
    }

    /** `load_history_sim`: copies, for each symbol of the Stock table, its
        newest simulation bars up to `curDate` into the day history until it
        meets one already there. */
    method LoadHistorySim(curDate: Date)
      requires Valid()
      modifies this`dayHistory
      ensures Valid()
      ensures dayHistory == HistoryLoaded(old(dayHistory), simHistory, Deduplicated(Symbols(stocks)), curDate)
    {
      var symbols := SymbolList(stocks);
      var i := 0;
      while i < |symbols|
        invariant 0 <= i <= |symbols|
        invariant Valid()
        invariant HistoryLoaded(dayHistory, simHistory, symbols[i..], curDate)
                  == HistoryLoaded(old(dayHistory), simHistory, symbols, curDate)
      {
        assert symbols[i..][1..] == symbols[i + 1..];
        var bars := SimWindow(simHistory, symbols[i], curDate);
        if |bars| != 0 {
          CopyBars(bars);
        }
        i := i + 1;
      }
    }

    /** The inner loop of load_history_sim for one symbol. */
    method CopyBars(bars: seq<Bar>)
      requires Valid()
      modifies this`dayHistory
      ensures Valid()
      ensures dayHistory == CopyUntilPresent(old(dayHistory), bars)
    {
      var j := 0;
      while j < |bars| && !HasKey(dayHistory, bars[j].symbol, bars[j].date)
        invariant 0 <= j <= |bars| && Valid()
        invariant CopyUntilPresent(dayHistory, bars[j..]) == CopyUntilPresent(old(dayHistory), bars)
      {
        assert bars[j..][1..] == bars[j + 1..];
        InsertKeepsTable(dayHistory, bars[j]);
        dayHistory := Insert(dayHistory, bars[j]);
        j := j + 1;
      }
    }
  }
}
