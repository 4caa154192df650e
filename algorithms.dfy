/** The public trade decisions (stock/algorithms.py).  A decision maps a
    position to a signed share quantity: positive buys, negative sells, zero
    holds.  The bars and orders the source reads from the database are
    explicit inputs, and so is Monkey's random draw. */
module Algorithms {
  import opened Wrappers
  import opened PyNum
  import opened Market
  import opened Models

  /** What a decision reads of a `Stock` and its account. */
  datatype Position = Position(symbol: Symbol, accountId: int, count: real, value: Option<real>,
                               valid: bool, budget: real, cash: real,
                               inStance: Stance, outStance: Stance)
  {
    /** Python's truth value of `stock.count`. */
    predicate Held()
    {
      count != 0.0
    }
  }

  /** `buy_all`: as many shares as the smaller of the account's cash and the
      position's budget pays for. */
  function BuyAll(p: Position): (r: Result<real>)
    ensures p.value.None? ==> r == Raise(TypeError)
    ensures p.value == Some(0.0) ==> r == Raise(ZeroDivisionError)
    ensures p.value.Some? && p.value.value != 0.0 ==> r.Ok? && r.value * p.value.value == Min(p.cash, p.budget)
  {
    var budget := Min(p.cash, p.budget);
    if p.value.None? then Raise(TypeError)
    else if p.value.value == 0.0 then Raise(ZeroDivisionError)
    else Ok(budget / p.value.value)
  }

  /** A positively priced `buy_all` never costs more than the cash or the
      budget, so the cash check of `market_order` lets it through, and so it
      does once `int()` has truncated it toward zero. */
  lemma BuyAllAffordable(p: Position)
    requires p.value.Some? && p.value.value > 0.0
    ensures BuyAll(p).Ok?
    ensures BuyAll(p).value * p.value.value <= p.cash
    ensures BuyAll(p).value * p.value.value <= p.budget
    ensures !(Trunc(BuyAll(p).value) > 0 && Trunc(BuyAll(p).value) as real * p.value.value > p.cash)
  {
    var n, v := BuyAll(p).value, p.value.value;
    var t := Trunc(n);
    if t > 0 {
      assert 0.0 <= t as real <= n;
      assert (n - t as real) * v >= 0.0;
    }
  }

  /** `sell_all`: the whole holding, negated. */
  function SellAll(p: Position): (r: real)
    ensures p.count + r == 0.0
  {
    -p.count
  }

  /** A result that trades nothing. */
  predicate NoTrade(r: Result<real>)
  {
    r == Ok(0.0)
  }

  /** The three outcomes a decision other than Fill can have, besides an
      exception: nothing, `buy_all`, or the whole holding sold. */
  predicate Shaped(p: Position, r: Result<real>)
  {
    r.Raise? || NoTrade(r) || r == BuyAll(p) || r == Ok(SellAll(p))
  }

  /** Monkey: on a draw above 0.85 buy all when flat and sell all when
      holding; otherwise do nothing. */
  function Monkey(p: Position, draw: real): (r: Result<real>)
    ensures draw <= 0.85 ==> NoTrade(r)
    ensures draw > 0.85 && !p.Held() ==> r == BuyAll(p)
    ensures draw > 0.85 && p.Held() ==> r == Ok(SellAll(p)) && r.value != 0.0
    ensures Shaped(p, r)
  {
    if !p.Held() && draw > 0.85 then BuyAll(p)
    else if p.Held() && draw > 0.85 then Ok(-p.count)
    else Ok(0.0)
  }

  /** `get_total_value` of the position, as the algorithms see it.  The
      algorithms are functions of a `Position` value (the snapshot that
      `Engine.PositionOf` takes of a `Ledger.Stock`), so they cannot call the
      object's own `Stock.TotalValue`; both follow the same lines of
      stocks.py and give the same value on that snapshot. */
  function TotalValue(p: Position): (r: Option<real>)
    ensures r.Some? <==> p.valid && p.value.Some?
    ensures r.Some? ==> r.value == p.count * p.value.value
  {
    if !p.valid then None
    else if p.value.None? then None
    else Some(p.count * p.value.value)
  }

  /** Fill: trade the position to exactly its budget.  An unpriced position
      is left alone; a zero price divides by zero. */
  function Fill(p: Position): (r: Result<real>)
    ensures TotalValue(p).None? ==> NoTrade(r)
    ensures TotalValue(p).Some? && p.value.value == 0.0 ==> r == Raise(ZeroDivisionError)
    ensures TotalValue(p).Some? && p.value.value != 0.0 ==>
      r.Ok? && (p.count + r.value) * p.value.value == p.budget
  {
    var total := TotalValue(p);
    if total.None? then Ok(0.0)
    else
      var overflow := total.value - p.budget;
      if p.value.value == 0.0 then Raise(ZeroDivisionError)
      else
        var v := p.value.value;
        var r := -overflow / v;
        assert r * v == p.budget - p.count * v;
        Ok(r)
  }

  /** Fill from a flat position buys the budget's worth of shares. */
  lemma FillWhenFlat(p: Position)
    requires p.valid && p.value.Some? && p.value.value != 0.0 && p.count == 0.0
    ensures Fill(p).Ok? && Fill(p).value * p.value.value == p.budget
  {
    assert (p.count + Fill(p).value) * p.value.value == p.budget;
  }

  /** Empty: sell everything that is held. */
  function Empty(p: Position): (r: real)
    ensures p.count + r == 0.0
    ensures r == 0.0 <==> !p.Held()
  {
    if p.Held() then SellAll(p) else 0.0
  }

  /** The most recent `n` bars of a symbol: `filter(symbol=...)
      .order_by('-date')[0:n]` on a newest-first table. */
  function Recent(t: seq<Bar>, symbol: Symbol, n: nat): (r: seq<Bar>)
    ensures |r| <= n
    ensures |r| < n ==> r == ForSymbol(t, symbol)
    ensures r <= ForSymbol(t, symbol)
  {
    var s := ForSymbol(t, symbol);
    if |s| <= n then s else s[..n]
  }

  /** On a bar table the recent bars are one per day, newest first. */
  lemma RecentOrdered(t: seq<Bar>, symbol: Symbol, n: nat)
    requires Table(t)
    ensures StrictlyNewestFirst(Recent(t, symbol, n))
    ensures forall b | b in Recent(t, symbol, n) :: b in t && b.symbol == symbol
  {
    ForSymbolOrdered(t, symbol);
    var s := ForSymbol(t, symbol);
    var r := Recent(t, symbol, n);
    forall b | b in r ensures b in s {
      var k :| 0 <= k < |r| && r[k] == b;
      assert s[k] == b;
    }
  }

  /** `consecutive_up` by in-stance. */
  function ConsecutiveUpDays(stance: Stance): nat
  {
    [5, 3, 2][stance]
  }

  /** No open in `hs` (newest first) is below the one the day before it. */
  predicate OpensNeverFall(hs: seq<Bar>)
  {
    forall i | 0 <= i < |hs| - 1 :: hs[i].open >= hs[i + 1].open
  }

  /** Day-over-day non-falling opens never fall over any span. */
  lemma {:induction false} OpensNeverFallSpan(hs: seq<Bar>)
    requires OpensNeverFall(hs)
    ensures forall i, j | 0 <= i <= j < |hs| :: hs[i].open >= hs[j].open
  {
    if |hs| > 1 {
      var tail := hs[1..];
      assert OpensNeverFall(tail) by {
        forall i | 0 <= i < |tail| - 1 ensures tail[i].open >= tail[i + 1].open {
          assert tail[i] == hs[i + 1] && tail[i + 1] == hs[i + 2];
        }
      }
      OpensNeverFallSpan(tail);
      forall i, j | 0 <= i <= j < |hs| ensures hs[i].open >= hs[j].open {
        if 0 < i {
          assert hs[i] == tail[i - 1] && hs[j] == tail[j - 1];
        } else if 0 < j {
          assert hs[1] == tail[0] && hs[j] == tail[j - 1];
        }
      }
    }
  }

  /** ConsecutiveUp: from a flat position, buy all when the last
      `consecutive_up` opens never fell; needs that many bars. */
  ghost function ConsecutiveUpDecision(p: Position, history: seq<Bar>): (r: Result<real>)
    ensures Shaped(p, r)
    ensures !NoTrade(r) ==> !p.Held()
  {
    var n := ConsecutiveUpDays(p.inStance);
    var hs := Recent(history, p.symbol, n);
    if p.Held() || |hs| < n || !OpensNeverFall(hs) then Ok(0.0)
    else BuyAll(p)
  }

  /** A buy by ConsecutiveUp means a full window of the symbol's bars whose
      opens, taken oldest to newest, never decrease. */
  lemma ConsecutiveUpBuysOnRise(p: Position, history: seq<Bar>)
    requires !NoTrade(ConsecutiveUpDecision(p, history))
    ensures var hs := Recent(history, p.symbol, ConsecutiveUpDays(p.inStance));
      |hs| == ConsecutiveUpDays(p.inStance) &&
      forall i, j | 0 <= i <= j < |hs| :: hs[j].open <= hs[i].open
  {
    OpensNeverFallSpan(Recent(history, p.symbol, ConsecutiveUpDays(p.inStance)));
  }

  /** The converse: a flat position with a full window whose opens never
      fall is bought with all of its budget. */
  lemma ConsecutiveUpRiseBuys(p: Position, history: seq<Bar>)
    requires !p.Held()
    requires var hs := Recent(history, p.symbol, ConsecutiveUpDays(p.inStance));
      |hs| == ConsecutiveUpDays(p.inStance) &&
      forall i, j | 0 <= i <= j < |hs| :: hs[j].open <= hs[i].open
    ensures ConsecutiveUpDecision(p, history) == BuyAll(p)
    ensures p.value.Some? && p.value.value != 0.0 ==>
      var r := ConsecutiveUpDecision(p, history); r.Ok? && r.value * p.value.value == Min(p.cash, p.budget)
  {
    var hs := Recent(history, p.symbol, ConsecutiveUpDays(p.inStance));
    forall i | 0 <= i < |hs| - 1 ensures hs[i].open >= hs[i + 1].open {
      assert i <= i + 1 < |hs|;
    }
  }

  method ConsecutiveUp(p: Position, history: seq<Bar>) returns (r: Result<real>)
    ensures r == ConsecutiveUpDecision(p, history)
  {
    if p.Held() {
      return Ok(0.0);
    }
    var n := ConsecutiveUpDays(p.inStance);
    var hs := Recent(history, p.symbol, n);
    if |hs| < n {
      return Ok(0.0);
    }
    var i := 0;
    while i < |hs| - 1
      invariant 0 <= i <= |hs| - 1
      invariant forall k | 0 <= k < i :: hs[k].open >= hs[k + 1].open
    {
      if hs[i].open < hs[i + 1].open {
        return Ok(0.0);
      }
      i := i + 1;
    }
    return BuyAll(p);
  }

  /** `ahnyung_variable`: the take-profit and stop-loss multipliers of the
      last purchase price, by out-stance. */
  function AhnyungOutRate(stance: Stance): real
  {
    [1.2, 1.1, 1.03][stance]
  }

  function AhnyungEmergencyRate(stance: Stance): real
  {
    [0.6, 0.7, 0.8][stance]
  }

  /** Ahnyung (out): sell the holding once the price leaves the band around
      the account's last purchase price in the symbol. */
  function Ahnyung(p: Position, orders: seq<Order>): (r: Result<real>)
    ensures !p.Held() || LastBuyOrder(orders, p.symbol, p.accountId).None? ==> NoTrade(r)
    ensures p.Held() && LastBuyOrder(orders, p.symbol, p.accountId).Some? && p.value.None? ==>
      r == Raise(TypeError)
    ensures p.Held() && LastBuyOrder(orders, p.symbol, p.accountId).Some? && p.value.Some? ==>
      var price := LastBuyOrder(orders, p.symbol, p.accountId).value.price;
      r.Ok? && (r.value != 0.0 <==> price * AhnyungOutRate(p.outStance) < p.value.value ||
                                    price * AhnyungEmergencyRate(p.outStance) > p.value.value)
    ensures Shaped(p, r)
  {
    if !p.Held() then Ok(0.0)
    else
      var order := LastBuyOrder(orders, p.symbol, p.accountId);
      if order.None? then Ok(0.0)
      else if p.value.None? then Raise(TypeError)
      else if order.value.price * AhnyungOutRate(p.outStance) < p.value.value then Ok(SellAll(p))
      else if order.value.price * AhnyungEmergencyRate(p.outStance) > p.value.value then Ok(SellAll(p))
      else Ok(0.0)
  }

  /** `vertex_variable`: the window length, by the stance that applies. */
  function VertexPeriod(stance: Stance): nat
  {
    [5, 4, 3][stance]
  }

  /** Vertex: with `o` the oldest open of the window, `old_rate` is the
      newest open minus `o` and `new_rate` the current price minus `o`.  Sell
      a holding when the window rose but the price fell below its start; buy
      from flat when the window fell but the price rose above its start. */
  ghost function VertexDecision(p: Position, history: seq<Bar>): (r: Result<real>)
    ensures Shaped(p, r)
  {
    var period := VertexPeriod(if p.Held() then p.outStance else p.inStance);
    var hs := Recent(history, p.symbol, period);
    if |hs| < period then Ok(0.0)
    else if p.value.None? then Raise(TypeError)
    else
      var oldRate := hs[0].open - hs[period - 1].open;
      var newRate := p.value.value - hs[period - 1].open;
      if p.Held() && oldRate > 0.0 && newRate < 0.0 then Ok(SellAll(p))
      else if !p.Held() && oldRate < 0.0 && newRate > 0.0 then BuyAll(p)
      else Ok(0.0)
  }

  /** The source's accumulation loop: both rates add up the day-over-day
      changes of the window's opens. */
  method Vertex(p: Position, history: seq<Bar>) returns (r: Result<real>)
    ensures r == VertexDecision(p, history)
  {
    var period := VertexPeriod(if p.Held() then p.outStance else p.inStance);
    var hs := Recent(history, p.symbol, period);
    if |hs| < period {
      return Ok(0.0);
    }
    if p.value.None? {
      return Raise(TypeError);
    }
    var oldRate := 0.0;
    var newRate := p.value.value - hs[0].open;
    var i := 0;
    while i < |hs| - 1
      invariant 0 <= i <= |hs| - 1
      invariant oldRate == hs[0].open - hs[i].open
      invariant newRate == p.value.value - hs[i].open
    {
      oldRate := oldRate + (hs[i].open - hs[i + 1].open);
      newRate := newRate + (hs[i].open - hs[i + 1].open);
      i := i + 1;
    }
    if p.Held() && oldRate > 0.0 && newRate < 0.0 {
      return Ok(SellAll(p));
    } else if !p.Held() && oldRate < 0.0 && newRate > 0.0 {
      return BuyAll(p);
    }
    return Ok(0.0);
  }

  /** The algorithms of `in_algorithm_list` and `out_algorithm_list`. */
  datatype Algorithm = Monkey | Fill | Empty | Hold | ConsecutiveUp | Ahnyung | Vertex

  const InAlgorithms: seq<Algorithm> := [Algorithm.Monkey, Algorithm.Fill, Algorithm.Hold,
                                         Algorithm.ConsecutiveUp, Algorithm.Vertex]
  const OutAlgorithms: seq<Algorithm> := [Algorithm.Monkey, Algorithm.Empty, Algorithm.Hold,
                                          Algorithm.Ahnyung, Algorithm.Vertex]

  /** `get_in_algorithm`: None for an index past the list. */
  function GetInAlgorithm(num: nat): (r: Option<Algorithm>)
    ensures r.None? <==> num >= |InAlgorithms|
    ensures r.Some? ==> r.value == InAlgorithms[num]
    ensures r.Some? ==> r.value != Algorithm.Empty && r.value != Algorithm.Ahnyung
  {
    if num < |InAlgorithms| then Some(InAlgorithms[num]) else None
  }

  /** `get_out_algorithm`: None for an index past the list. */
  function GetOutAlgorithm(num: nat): (r: Option<Algorithm>)
    ensures r.None? <==> num >= |OutAlgorithms|
    ensures r.Some? ==> r.value == OutAlgorithms[num]
    ensures r.Some? ==> r.value != Algorithm.Fill && r.value != Algorithm.ConsecutiveUp
  {
    if num < |OutAlgorithms| then Some(OutAlgorithms[num]) else None
  }

  /** `trade_decision` of each algorithm. */
  ghost function Decision(alg: Algorithm, p: Position, history: seq<Bar>, orders: seq<Order>, draw: real)
    : (r: Result<real>)
    ensures alg != Algorithm.Fill ==> Shaped(p, r)
    ensures alg == Algorithm.Hold ==> NoTrade(r)
  {
    match alg
    case Monkey => Monkey(p, draw)
    case Fill => Fill(p)
    case Empty => Ok(Empty(p))
    case Hold => Ok(0.0)
    case ConsecutiveUp => ConsecutiveUpDecision(p, history)
    case Ahnyung => Ahnyung(p, orders)
    case Vertex => VertexDecision(p, history)
  }

  method Decide(alg: Algorithm, p: Position, history: seq<Bar>, orders: seq<Order>, draw: real)
    returns (r: Result<real>)
    ensures r == Decision(alg, p, history, orders, draw)
  {
    match alg
    case Monkey => r := Monkey(p, draw);
    case Fill => r := Fill(p);
    case Empty => r := Ok(Empty(p));
    case Hold => r := Ok(0.0);
    case ConsecutiveUp => r := ConsecutiveUp(p, history);
    case Ahnyung => r := Ahnyung(p, orders);
    case Vertex => r := Vertex(p, history);
  }
}
