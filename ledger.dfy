/** The simulated broker's in-memory ledger (python_simtrade/stocks.py and
    python_simtrade/accounts.py): quotes priced from the SimHistory table,
    positions that fill market orders against their account's cash, and
    accounts that mark their positions to market. */
module Ledger {
  import opened Wrappers
  import opened Market
  import opened Models

  /** TRANSACTION_FEE: charged on every filled order, buy or sell. */
  const TransactionFee: real := 6.95

  /** An account's `mode`: 'setup' until its first tick has run, then 'run'. */
  datatype Mode = Setup | Running

  /** A quote: ask and bid are both the open of the newest SimHistory bar. */
  class Quote {
    const symbol: Symbol
    var ask: Option<real>
    var bid: Option<real>

    constructor(symbol: Symbol)
      ensures this.symbol == symbol && ask.None? && bid.None?
    {
      this.symbol := symbol;
      ask := None;
      bid := None;
    }

    method Update(curTime: Date, sim: seq<Bar>) returns (found: bool)
      modifies this
      ensures found <==> LatestOnOrBefore(sim, symbol, curTime).Some?
      ensures found ==> ask == bid == Some(LatestOnOrBefore(sim, symbol, curTime).value.open)
      ensures !found ==> ask == old(ask) && bid == old(bid)
    {
      var h := LatestOnOrBefore(sim, symbol, curTime);
      if h.None? {
        return false;
      }
      ask := Some(h.value.open);
      bid := Some(h.value.open);
      return true;
    }
  }

  /** What `market_order` does to the ledger: whether the order fills, the
      failure reason the position then carries, and its new share count and
      its account's new cash. */
  datatype OrderEffect = OrderEffect(ok: bool, reason: string, count: real, cash: real)

  /** A market order for `n` shares (negative: a sale) of a position holding
      `held` shares priced at `price`, against `cash`. */
  function MarketOrderEffect(valid: bool, held: real, price: real, cash: real, reason: string, n: real)
    : (e: OrderEffect)
    // a refused order changes neither the position nor the cash
    ensures !e.ok ==> e.count == held && e.cash == cash
    // it fills exactly when the position is priced, a sale does not exceed
    // the holding and a purchase does not exceed the cash
    ensures e.ok <==> valid && !(n < 0.0 && -n > held) && !(n > 0.0 && n * price > cash)
    ensures !valid ==> e.reason == reason
    ensures valid && n < 0.0 && -n > held ==> e.reason == "not enough stock count"
    ensures valid && !(n < 0.0 && -n > held) && n > 0.0 && n * price > cash ==> e.reason == "not enough cash"
    ensures e.ok ==> e.reason == "success" && e.count == held + n
    // a fill moves value between cash and shares at `price`; only the fee is lost
    ensures e.ok ==> e.cash + e.count * price == cash + held * price - TransactionFee
    // a filled sale never leaves a short position, a filled purchase never
    // overdraws the cash by more than the fee
    ensures e.ok && n < 0.0 ==> e.count >= 0.0
    ensures e.ok && n > 0.0 ==> e.cash >= -TransactionFee
  {
    if !valid then OrderEffect(false, reason, held, cash)
    else if n < 0.0 && -n > held then OrderEffect(false, "not enough stock count", held, cash)
    else if n > 0.0 && n * price > cash then OrderEffect(false, "not enough cash", held, cash)
    else OrderEffect(true, "success", held + n, cash - n * price - TransactionFee)
  }

  /** The columns of a position that the Stock table persists and the engine
      sets, apart from its price. */
  datatype StockSettings = StockSettings(count: real, lastCount: real, budget: real,
                                         inAlgorithm: nat, inStance: Stance,
                                         outAlgorithm: nat, outStance: Stance,
                                         failureReason: string)

  /** A position of one account in one symbol. */
  class Stock {
    const symbol: Symbol
    const account: Account
    const floatTrade: bool
    var count: real
    var value: Option<real>
    var lastCount: real
    var budget: real
    var inAlgorithm: nat
    var inStance: Stance
    var outAlgorithm: nat
    var outStance: Stance
    var valid: bool
    var failureReason: string

    ghost function Settings(): StockSettings
      reads this
    {
      StockSettings(count, lastCount, budget, inAlgorithm, inStance, outAlgorithm, outStance, failureReason)
    }

    /** A fresh position: unpriced, valid, nothing held; only BTC trades
        fractional shares. */
    constructor(symbol: Symbol, account: Account)
      ensures this.symbol == symbol && this.account == account
      ensures floatTrade <==> symbol == "BTC"
      ensures value.None? && valid
      ensures Settings() == StockSettings(0.0, 0.0, 0.0, 0, 0, 0, 0, "success")
    {
      this.symbol := symbol;
      this.account := account;
      floatTrade := symbol == "BTC";
      count := 0.0;
      value := None;
      lastCount := 0.0;
      budget := 0.0;
      inAlgorithm := 0;
      inStance := 0;
      outAlgorithm := 0;
      outStance := 0;
      valid := true;
      failureReason := "success";
    }

    /** Prices the position at the mid-point of a fresh quote.  A position
        that once failed to price stays invalid. */
    method Update(dt: Date, sim: seq<Bar>) returns (ok: bool)
      modifies this`value, this`valid
      ensures ok <==> LatestOnOrBefore(sim, symbol, dt).Some?
      ensures ok ==> value == Some(LatestOnOrBefore(sim, symbol, dt).value.open) && valid == old(valid)
      ensures !ok ==> value == old(value) && !valid
    {
      var quote := new Quote(symbol);
      var res := quote.Update(dt, sim);
      if !res {
        valid := false;
        return false;
      }
      value := Some((quote.ask.value + quote.bid.value) / 2.0);
      return true;
    }

    function Price(): real
      reads this
    {
      if value.Some? then value.value else 0.0
    }

    /** Fills or refuses a market order for `n` shares (negative: a sale). */
    method MarketOrder(n: real) returns (ok: bool)
      requires valid ==> value.Some?
      modifies this`count, this`failureReason, account`cashToTrade
      ensures var e := MarketOrderEffect(old(valid), old(count), Price(), old(account.cashToTrade),
                                         old(failureReason), n);
        ok == e.ok && count == e.count && account.cashToTrade == e.cash && failureReason == e.reason
    {
      if !valid {
        return false;
      }
      if n < 0.0 && -n > count {
        failureReason := "not enough stock count";
        return false;
      }
      if n > 0.0 && n * value.value > account.cashToTrade {
        failureReason := "not enough cash";
        return false;
      }
      failureReason := "success";
      count := count + n;
      account.cashToTrade := account.cashToTrade - n * value.value;
      account.cashToTrade := account.cashToTrade - TransactionFee;
      return true;
    }

    /** `get_total_value`: the position's market value, None when unpriced. */
    function TotalValue(): (r: Option<real>)
      reads this
      ensures r.Some? <==> valid && value.Some?
      ensures r.Some? ==> r.value == count * value.value
    {
      if !valid then None
      else if value.None? then None
      else Some(count * value.value)
    }
  }

  /** One line of an account's holdings: a symbol and a share count. */
  datatype Holding = Holding(symbol: Symbol, count: real)

  function HoldingsOf(ss: seq<Stock>): (r: seq<Holding>)
    reads ss
    ensures |r| == |ss|
    ensures forall i | 0 <= i < |ss| :: r[i] == Holding(ss[i].symbol, ss[i].count)
  {
    seq(|ss|, i requires 0 <= i < |ss| reads ss => Holding(ss[i].symbol, ss[i].count))
  }

  lemma HoldingsOfAppend(ss: seq<Stock>, s: Stock)
    ensures HoldingsOf(ss + [s]) == HoldingsOf(ss) + [Holding(s.symbol, s.count)]
  {
  }

  /** One holding marked at the open of its newest bar on or before `date`;
      a holding with no such bar is left out of the mark. */
  function HoldingValue(sim: seq<Bar>, date: Date, h: Holding): real
  {
    match LatestOnOrBefore(sim, h.symbol, date)
    case None => 0.0
    case Some(b) => Mark(b.open, h.count)
  }

  /** A share count valued at a price. */
  function Mark(price: real, count: real): real
  {
    price * count
  }

  /** What a position re-priced by Stock.Update adds to its account's net
      value is its holding's mark. */
  lemma UpdatedMark(sim: seq<Bar>, date: Date, h: Holding, ok: bool, value: Option<real>)
    requires ok <==> LatestOnOrBefore(sim, h.symbol, date).Some?
    requires ok ==> value == Some(LatestOnOrBefore(sim, h.symbol, date).value.open)
    ensures HoldingValue(sim, date, h) == if ok then Mark(value.value, h.count) else 0.0
  {
  }

  /** The sum of a list of reals. */
  function Sum(xs: seq<real>): real
  {
    if xs == [] then 0.0 else Sum(xs[..|xs| - 1]) + xs[|xs| - 1]
  }

  lemma SumAppend(xs: seq<real>, x: real)
    ensures Sum(xs + [x]) == Sum(xs) + x
  {
    assert (xs + [x])[..|xs|] == xs;
  }

  /** Each holding's mark, in list order. */
  function Marks(sim: seq<Bar>, date: Date, hs: seq<Holding>): (r: seq<real>)
    ensures |r| == |hs|
  {
    seq(|hs|, k requires 0 <= k < |hs| => HoldingValue(sim, date, hs[k]))
  }

  /** The market value of a list of holdings: the sum of their marks. */
  function HoldingsValue(sim: seq<Bar>, date: Date, hs: seq<Holding>): real
  {
    Sum(Marks(sim, date, hs))
  }

  /** A sum of zeros is zero. */
  lemma {:induction false} SumOfZeros(xs: seq<real>)
    requires forall i | 0 <= i < |xs| :: xs[i] == 0.0
    ensures Sum(xs) == 0.0
  {
    if xs != [] {
      SumOfZeros(xs[..|xs| - 1]);
    }
  }

  /** A sum of non-negative reals is non-negative. */
  lemma {:induction false} SumOfNonNegatives(xs: seq<real>)
    requires forall i | 0 <= i < |xs| :: xs[i] >= 0.0
    ensures Sum(xs) >= 0.0
  {
    if xs != [] {
      SumOfNonNegatives(xs[..|xs| - 1]);
    }
  }

  /** Holdings without shares are worth nothing. */
  lemma EmptyHoldingsWorthNothing(sim: seq<Bar>, date: Date, hs: seq<Holding>)
    requires forall i | 0 <= i < |hs| :: hs[i].count == 0.0
    ensures HoldingsValue(sim, date, hs) == 0.0
  {
    var ms := Marks(sim, date, hs);
    forall i | 0 <= i < |ms| ensures ms[i] == 0.0 {
      var h := hs[i];
      match LatestOnOrBefore(sim, h.symbol, date)
      case None =>
      case Some(b) =>
        assert Mark(b.open, h.count) == b.open * 0.0;
    }
    SumOfZeros(ms);
  }

  /** With non-negative prices and counts the holdings are worth at least
      nothing. */
  lemma HoldingsValueNonNegative(sim: seq<Bar>, date: Date, hs: seq<Holding>)
    requires forall b | b in sim :: b.open >= 0.0
    requires forall i | 0 <= i < |hs| :: hs[i].count >= 0.0
    ensures HoldingsValue(sim, date, hs) >= 0.0
  {
    var ms := Marks(sim, date, hs);
    forall i | 0 <= i < |ms| ensures ms[i] >= 0.0 {
      var h := hs[i];
      match LatestOnOrBefore(sim, h.symbol, date)
      case None =>
      case Some(b) =>
        assert b.open * h.count >= 0.0;
    }
    SumOfNonNegatives(ms);
  }

  /** The first position in `ss` with the given symbol, or null. */
  function FirstWithSymbol(ss: seq<Stock>, symbol: Symbol): (r: Stock?)
    ensures r == null <==> forall s | s in ss :: s.symbol != symbol
    ensures r != null ==>
      exists i | 0 <= i < |ss| :: ss[i] == r && r.symbol == symbol && forall j | 0 <= j < i :: ss[j].symbol != symbol
  {
    if ss == [] then null
    else if ss[0].symbol == symbol then ss[0]
    else
      var r := FirstWithSymbol(ss[1..], symbol);
      assert forall s | s in ss :: s == ss[0] || s in ss[1..];
      if r != null then
        var i :| 0 <= i < |ss[1..]| && ss[1..][i] == r && r.symbol == symbol
          && forall j | 0 <= j < i :: ss[1..][j].symbol != symbol;
        assert ss[i + 1] == r && forall j | 0 <= j < i + 1 :: ss[j].symbol != symbol;
        r
      else r
  }

  /** Position `s` is priced as of `dt`: at the open of the newest bar on or
      before `dt` when there is one, and invalid when there is none. */
  ghost predicate PricedAt(s: Stock, sim: seq<Bar>, dt: Date)
    reads s
  {
    var bar := LatestOnOrBefore(sim, s.symbol, dt);
    (bar.Some? ==> s.value == Some(bar.value.open)) && (bar.None? ==> !s.valid)
  }

  /** Every position of `ss` charges its orders to account `a`. */
  ghost predicate OwnedBy(ss: seq<Stock>, a: Account)
  {
    forall i | 0 <= i < |ss| :: ss[i].account == a
  }

  /** The loop of `Account.update`: re-prices each position of `ss` at `at`
      in turn and adds up the marks of those whose update succeeded. */
  method Reprice(ss: seq<Stock>, at: Date, sim: seq<Bar>) returns (holdings: real)
    modifies ss`value, ss`valid
    ensures holdings == HoldingsValue(sim, at, HoldingsOf(ss))
    ensures forall i | 0 <= i < |ss| :: PricedAt(ss[i], sim, at)
    ensures forall i | 0 <= i < |ss| ::
      ss[i].valid == (old(ss[i].valid) && LatestOnOrBefore(sim, ss[i].symbol, at).Some?)
    ensures forall i | 0 <= i < |ss| && LatestOnOrBefore(sim, ss[i].symbol, at).None? ::
      ss[i].value == old(ss[i].value)
  {
    ghost var hs := HoldingsOf(ss);
    ghost var ms: seq<real> := [];
    holdings := 0.0;
    var i := 0;
    while i < |ss|
      invariant 0 <= i <= |ss| && |ms| == i
      invariant forall k {:trigger PricedAt(ss[k], sim, at)} | 0 <= k < i :: PricedAt(ss[k], sim, at)
      invariant forall k | 0 <= k < |ss| :: ss[k].valid ==> old(ss[k].valid)
      invariant forall k | 0 <= k < |ss| && LatestOnOrBefore(sim, ss[k].symbol, at).Some? ::
        old(ss[k].valid) ==> ss[k].valid
      invariant forall k | 0 <= k < |ss| && LatestOnOrBefore(sim, ss[k].symbol, at).None? ::
        ss[k].value == old(ss[k].value)
      invariant forall k | 0 <= k < i :: ms[k] == HoldingValue(sim, at, hs[k])
      invariant holdings == Sum(ms)
    {
      var stock := ss[i];
      label Before:
      var res := stock.Update(at, sim);
      forall k | 0 <= k <= i ensures PricedAt(ss[k], sim, at) {
        if ss[k] != stock {
          assert old@Before(PricedAt(ss[k], sim, at));
        }
      }
      forall k | 0 <= k < |ss| && ss[k] != stock
        ensures ss[k].valid == old@Before(ss[k].valid) && ss[k].value == old@Before(ss[k].value)
      {
      }
      UpdatedMark(sim, at, hs[i], res, stock.value);
      if res {
        holdings := holdings + Mark(stock.value.value, stock.count);
      }
      SumAppend(ms, HoldingValue(sim, at, hs[i]));
      ms := ms + [HoldingValue(sim, at, hs[i])];
      i := i + 1;
    }
    assert ms == Marks(sim, at, hs);
    assert HoldingsOf(ss) == hs;
  }

  class Account {
    const id: int
    var netValue: real
    var cashToTrade: real
    var stockList: seq<Stock>
    var mode: Mode
    var dt: Date

    ghost predicate Valid()
      reads this`stockList
    {
      OwnedBy(stockList, this)
    }

    constructor(id: int, dt: Date)
      ensures Valid()
      ensures this.id == id && this.dt == dt && stockList == [] && mode == Setup
      ensures netValue == 0.0 && cashToTrade == 0.0
    {
      this.id := id;
      this.dt := dt;
      stockList := [];
      mode := Setup;
      netValue := 0.0;
      cashToTrade := 0.0;
    }

    /** Re-prices every position (at `newDt` when given) and sets the net
        value to the cash plus the marked holdings. */
    method Update(newDt: Option<Date>, sim: seq<Bar>)
      modifies this`dt, this`netValue, stockList`value, stockList`valid
      ensures dt == (if newDt.Some? then newDt.value else old(dt))
      ensures netValue == cashToTrade + HoldingsValue(sim, dt, HoldingsOf(stockList))
      ensures forall i | 0 <= i < |stockList| :: PricedAt(stockList[i], sim, dt)
      ensures forall i | 0 <= i < |stockList| ::
        stockList[i].valid == (old(stockList[i].valid) && LatestOnOrBefore(sim, stockList[i].symbol, dt).Some?)
      ensures forall i | 0 <= i < |stockList| && LatestOnOrBefore(sim, stockList[i].symbol, dt).None? ::
        stockList[i].value == old(stockList[i].value)
    {
      if newDt.Some? {
        dt := newDt.value;
      }
      var holdings := Reprice(stockList, dt, sim);
      netValue := cashToTrade + holdings;
    }

    /** `get_stock`: the first position in the symbol, or null. */
    method GetStock(symbol: Symbol) returns (s: Stock?)
      ensures s == FirstWithSymbol(stockList, symbol)
    {
      var i := 0;
      while i < |stockList|
        invariant 0 <= i <= |stockList|
        invariant FirstWithSymbol(stockList, symbol) == FirstWithSymbol(stockList[i..], symbol)
      {
        if stockList[i].symbol == symbol {
          return stockList[i];
        }
        assert stockList[i..][1..] == stockList[i + 1..];
        i := i + 1;
      }
      return null;
    }

    /** `new_stock`: opens an empty position in `symbol`, priced at the
        account's date, or returns null when the symbol has no bar yet. */
    method NewStock(symbol: Symbol, sim: seq<Bar>) returns (s: Stock?)
      requires Valid()
      modifies this`stockList
      ensures Valid()
      ensures s == null <==> LatestOnOrBefore(sim, symbol, dt).None?
      ensures s == null ==> stockList == old(stockList)
      ensures s != null ==>
        fresh(s) && stockList == old(stockList) + [s] && s.symbol == symbol && s.account == this && s.valid
        && s.value == Some(LatestOnOrBefore(sim, symbol, dt).value.open)
        && s.Settings() == StockSettings(0.0, 0.0, 0.0, 0, 0, 0, 0, "success")
    {
      var stock := new Stock(symbol, this);
      var ok := stock.Update(dt, sim);
      if !ok {
        return null;
      }
      stock.count := 0.0;
      stockList := stockList + [stock];
      return stock;
    }
  }
}
