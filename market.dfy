/** Daily bars and the queries the engine runs against the two bar tables
    (SimHistory and DayHistory of stock/models.py).

    A table is a set of rows unique on (symbol, date).  The model keeps it as
    a sequence ordered newest first, so that the source's
    `filter(...).order_by('-date')` is a plain filter of the sequence. */
module Market {
  import opened Wrappers

  type Symbol = string
  /** A calendar day, counted in days. */
  type Date = int

  datatype Bar = Bar(symbol: Symbol, date: Date, open: real, high: real, low: real, close: real, volume: real)

  /** Row `h` may precede row `b` in a table: not older, and a different key. */
  ghost predicate Precedes(h: Bar, b: Bar)
  {
    h.date >= b.date && (h.symbol == b.symbol ==> h.date != b.date)
  }

  /** A bar table: ordered by non-increasing date, unique on (symbol, date). */
  ghost predicate Table(t: seq<Bar>)
  {
    forall i, j | 0 <= i < j < |t| :: Precedes(t[i], t[j])
  }

  lemma TableTail(t: seq<Bar>)
    requires Table(t) && t != []
    ensures Table(t[1..])
    ensures forall b | b in t[1..] :: Precedes(t[0], b)
  {
    forall b | b in t[1..] ensures Precedes(t[0], b) {
      var k :| 0 <= k < |t[1..]| && t[1..][k] == b;
      assert t[k + 1] == b;
    }
  }

  lemma TableCons(h: Bar, t: seq<Bar>)
    requires Table(t)
    requires forall b | b in t :: Precedes(h, b)
    ensures Table([h] + t)
  {
    var r := [h] + t;
    forall i, j | 0 <= i < j < |r| ensures Precedes(r[i], r[j]) {
      assert r[j] == t[j - 1];
      if i > 0 {
        assert r[i] == t[i - 1];
      } else {
        assert t[j - 1] in t;
      }
    }
  }

  /** Rows ordered by strictly decreasing date: one symbol's bars, newest first. */
  ghost predicate StrictlyNewestFirst(t: seq<Bar>)
  {
    forall i, j | 0 <= i < j < |t| :: t[i].date > t[j].date
  }

  /** True when the table holds a row for (symbol, date). */
  predicate HasKey(t: seq<Bar>, symbol: Symbol, date: Date)
  {
    exists i | 0 <= i < |t| :: t[i].symbol == symbol && t[i].date == date
  }

  /** `filter(symbol=symbol)`, keeping the table's order. */
  function ForSymbol(t: seq<Bar>, symbol: Symbol): (r: seq<Bar>)
    ensures |r| <= |t|
    ensures forall b :: b in r <==> b in t && b.symbol == symbol
  {
    if t == [] then []
    else if t[0].symbol == symbol then [t[0]] + ForSymbol(t[1..], symbol)
    else ForSymbol(t[1..], symbol)
  }

  /** `filter(date__lte=date)`, keeping the table's order. */
  function OnOrBefore(t: seq<Bar>, date: Date): (r: seq<Bar>)
    ensures |r| <= |t|
    ensures forall b :: b in r <==> b in t && b.date <= date
  {
    if t == [] then []
    else if t[0].date <= date then [t[0]] + OnOrBefore(t[1..], date)
    else OnOrBefore(t[1..], date)
  }

  /** One symbol's bars of a table come newest first, with no two on a day. */
  lemma {:induction false} ForSymbolOrdered(t: seq<Bar>, symbol: Symbol)
    requires Table(t)
    ensures StrictlyNewestFirst(ForSymbol(t, symbol))
  {
    if t != [] {
      TableTail(t);
      ForSymbolOrdered(t[1..], symbol);
      var rest := ForSymbol(t[1..], symbol);
      if t[0].symbol == symbol {
        var r := [t[0]] + rest;
        forall i, j | 0 <= i < j < |r| ensures r[i].date > r[j].date {
          assert r[j] == rest[j - 1] && r[j] in t[1..];
          if i > 0 {
            assert r[i] == rest[i - 1];
          }
        }
      }
    }
  }

  lemma {:induction false} ForSymbolTable(t: seq<Bar>, symbol: Symbol)
    requires Table(t)
    ensures Table(ForSymbol(t, symbol))
  {
    if t != [] {
      TableTail(t);
      ForSymbolTable(t[1..], symbol);
      if t[0].symbol == symbol {
        TableCons(t[0], ForSymbol(t[1..], symbol));
      }
    }
  }

  lemma {:induction false} OnOrBeforeTable(t: seq<Bar>, date: Date)
    requires Table(t)
    ensures Table(OnOrBefore(t, date))
  {
    if t != [] {
      TableTail(t);
      OnOrBeforeTable(t[1..], date);
      if t[0].date <= date {
        TableCons(t[0], OnOrBefore(t[1..], date));
      }
    }
  }

  /** The newest `symbol` bar dated on or before `date`: the source's
      `filter(symbol=..., date__lte=...).order_by('-date')[0]`, or None for its
      IndexError. */
  function LatestOnOrBefore(t: seq<Bar>, symbol: Symbol, date: Date): (r: Option<Bar>)
    ensures r.Some? ==> r.value in t && r.value.symbol == symbol && r.value.date <= date
    ensures r.None? <==> forall b | b in t :: !(b.symbol == symbol && b.date <= date)
  {
    if t == [] then None
    else if t[0].symbol == symbol && t[0].date <= date then Some(t[0])
    else LatestOnOrBefore(t[1..], symbol, date)
  }

  /** In a newest-first table the first match is the latest one. */
  lemma {:induction false} LatestOnOrBeforeIsLatest(t: seq<Bar>, symbol: Symbol, date: Date)
    requires Table(t)
    requires LatestOnOrBefore(t, symbol, date).Some?
    ensures forall b | b in t && b.symbol == symbol && b.date <= date ::
      b.date <= LatestOnOrBefore(t, symbol, date).value.date
  {
    TableTail(t);
    if !(t[0].symbol == symbol && t[0].date <= date) {
      LatestOnOrBeforeIsLatest(t[1..], symbol, date);
      assert forall b | b in t :: b == t[0] || b in t[1..] by {
        assert t == [t[0]] + t[1..];
      }
    } else {
      assert forall b | b in t :: b == t[0] || b in t[1..] by {
        assert t == [t[0]] + t[1..];
      }
    }
  }

  /** The earliest date of any bar dated on or after `bound` (any date when
      there is no bound): `order_by('date')[0]` of simulate. */
  function EarliestDate(t: seq<Bar>, bound: Option<Date>): (r: Option<Date>)
    ensures r.Some? ==> exists b | b in t :: b.date == r.value && (bound.Some? ==> b.date >= bound.value)
    ensures r.Some? ==> forall b | b in t && (bound.Some? ==> b.date >= bound.value) :: r.value <= b.date
    ensures r.None? <==> forall b | b in t :: bound.Some? && b.date < bound.value
  {
    if t == [] then None
    else
      var rest := EarliestDate(t[1..], bound);
      if bound.Some? && t[0].date < bound.value then rest
      else if rest.Some? && rest.value < t[0].date then rest
      else Some(t[0].date)
  }

  /** The latest date of any bar dated on or before `bound`: `order_by('-date')[0]`. */
  function LatestDate(t: seq<Bar>, bound: Option<Date>): (r: Option<Date>)
    ensures r.Some? ==> exists b | b in t :: b.date == r.value && (bound.Some? ==> b.date <= bound.value)
    ensures r.Some? ==> forall b | b in t && (bound.Some? ==> b.date <= bound.value) :: b.date <= r.value
    ensures r.None? <==> forall b | b in t :: bound.Some? && b.date > bound.value
  {
    if t == [] then None
    else
      var rest := LatestDate(t[1..], bound);
      if bound.Some? && t[0].date > bound.value then rest
      else if rest.Some? && rest.value > t[0].date then rest
      else Some(t[0].date)
  }

  /** Adds a row at its place in a newest-first table. */
  function Insert(t: seq<Bar>, b: Bar): (r: seq<Bar>)
    ensures multiset(r) == multiset(t) + multiset{b}
    ensures |r| == |t| + 1
  {
    if t == [] || t[0].date <= b.date then [b] + t
    else
      assert t == [t[0]] + t[1..];
      [t[0]] + Insert(t[1..], b)
  }

  /** Inserting a row whose key is absent keeps the table a table, and the key
      is then present. */
  lemma {:induction false} InsertKeepsTable(t: seq<Bar>, b: Bar)
    requires Table(t)
    requires !HasKey(t, b.symbol, b.date)
    ensures Table(Insert(t, b))
    ensures HasKey(Insert(t, b), b.symbol, b.date)
  {
    var r := Insert(t, b);
    assert b in multiset(r);
    assert b in r;
    if t == [] || t[0].date <= b.date {
      forall x | x in t ensures Precedes(b, x) {
        var k :| 0 <= k < |t| && t[k] == x;
        assert k > 0 ==> Precedes(t[0], t[k]);
        assert !(t[k].symbol == b.symbol && t[k].date == b.date);
      }
      TableCons(b, t);
    } else {
      TableTail(t);
      var t' := t[1..];
      forall k | 0 <= k < |t'| ensures !(t'[k].symbol == b.symbol && t'[k].date == b.date) {
        assert t[k + 1] == t'[k];
      }
      InsertKeepsTable(t', b);
      var rest := Insert(t', b);
      forall x | x in rest ensures Precedes(t[0], x) {
        assert x in multiset(rest);
        if x != b {
          assert x in multiset(t');
        } else {
          assert !(t[0].symbol == b.symbol && t[0].date == b.date);
        }
      }
      TableCons(t[0], rest);
    }
  }
}
