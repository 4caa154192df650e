/** The private trade decisions (stock/private_algorithms.py).  They read
    `stock.stance`, which the engine never sets, so the stance is an explicit
    parameter here; the bars and orders are explicit inputs as in the public
    decisions. */
module PrivateAlgorithms {
  import opened Wrappers
  import opened PyNum
  import opened Market
  import opened Models
  import opened Algorithms

  /** Whether the first `k` rates all `pass`, as the source's
      `for index in range(k): if not pass(rates[index]): return 0` loops do:
      Ok(false) at the first failing rate, IndexError when the rates run out
      first. */
  function PrefixHolds(rates: seq<real>, k: nat, pass: real -> bool): (r: Result<bool>)
    ensures r == Ok(true) <==> k <= |rates| && forall i | 0 <= i < k :: pass(rates[i])
    ensures r.Raise? <==> |rates| < k && forall i | 0 <= i < |rates| :: pass(rates[i])
    ensures r.Raise? ==> r.error == IndexError
  {
    if k == 0 then Ok(true)
    else if rates == [] then Raise(IndexError)
    else if !pass(rates[0]) then Ok(false)
    else
      var r := PrefixHolds(rates[1..], k - 1, pass);
      assert forall i | 1 <= i < |rates| :: rates[i] == rates[1..][i - 1];
      r
  }

  // ---------------------------------------------------------------------
  // The up/down run scan of TrendTrend and DTTT

  /** DIRECTION_UP, DIRECTION_DOWN, DIRECTION_SIDE. */
  datatype Direction = Up | Down | Side

  /** The scan's state: the current direction and its run length, and the
      peaks and bottoms recorded so far. */
  datatype Trend = Trend(direction: Direction, runLength: nat, peaks: seq<Bar>, bottoms: seq<Bar>)

  const NoTrend := Trend(Side, 0, [], [])

  /** One step of the scan, comparing `today` with the bar before it.  A day
      that closes higher ends a down run (recording `yesterday` as a bottom
      when the run was long enough); a day that closes lower ends a long
      enough up or sideways run (recording a peak after an up run). */
  function TrendStep(s: Trend, today: Bar, yesterday: Bar, upCount: nat, downCount: nat): (r: Trend)
    // an unchanged close changes nothing
    ensures today.close == yesterday.close ==> r == s
    // a bottom is recorded only on a higher close after a down run of at least downCount
    ensures r.bottoms == s.bottoms ||
      (r.bottoms == s.bottoms + [yesterday] && today.close > yesterday.close &&
       s.direction == Down && s.runLength >= downCount)
    // a peak is recorded only on a lower close after an up run of at least upCount
    ensures r.peaks == s.peaks ||
      (r.peaks == s.peaks + [yesterday] && today.close < yesterday.close &&
       s.direction == Up && s.runLength >= upCount)
    ensures today.close > yesterday.close ==>
      r.direction == Up && r.runLength == (if s.direction == Up then s.runLength + 1 else 1) &&
      (s.direction == Down && s.runLength >= downCount ==> r.bottoms == s.bottoms + [yesterday])
    // on a lower close the run restarts only after upCount days of another direction
    ensures today.close < yesterday.close ==>
      r.direction == Down &&
      r.runLength == (if s.direction != Down && s.runLength >= upCount then 1 else s.runLength + 1) &&
      (s.direction == Up && s.runLength >= upCount ==> r.peaks == s.peaks + [yesterday])
  {
    if today.close > yesterday.close then
      var bottoms := if s.direction == Down && s.runLength >= downCount then s.bottoms + [yesterday] else s.bottoms;
      var count := if s.direction != Up then 0 else s.runLength;
      Trend(Up, count + 1, s.peaks, bottoms)
    else if today.close < yesterday.close then
      var reset := s.direction != Down && s.runLength >= upCount;
      var peaks := if reset && s.direction == Up then s.peaks + [yesterday] else s.peaks;
      var count := if reset then 0 else s.runLength;
      Trend(Down, count + 1, peaks, s.bottoms)
    else s
  }

  /** The state after the first `n` steps over a newest-first window. */
  ghost function TrendScan(hs: seq<Bar>, n: nat, upCount: nat, downCount: nat): Trend
    requires n < |hs|
  {
    if n == 0 then NoTrend
    else TrendStep(TrendScan(hs, n - 1, upCount, downCount), hs[n - 1], hs[n], upCount, downCount)
  }

  /** Every recorded peak is a bar of the window whose successor in the
      window closed lower, and every bottom one whose successor closed
      higher. */
  lemma {:induction false} TrendScanRecords(hs: seq<Bar>, n: nat, upCount: nat, downCount: nat)
    requires n < |hs|
    ensures forall q | q in TrendScan(hs, n, upCount, downCount).peaks ::
      exists k | 0 <= k < n :: q == hs[k + 1] && hs[k].close < hs[k + 1].close
    ensures forall q | q in TrendScan(hs, n, upCount, downCount).bottoms ::
      exists k | 0 <= k < n :: q == hs[k + 1] && hs[k].close > hs[k + 1].close
  {
    if n > 0 {
      TrendScanRecords(hs, n - 1, upCount, downCount);
      var s := TrendScan(hs, n - 1, upCount, downCount);
      var r := TrendScan(hs, n, upCount, downCount);
      forall q | q in r.peaks
        ensures exists k | 0 <= k < n :: q == hs[k + 1] && hs[k].close < hs[k + 1].close
      {
        if q !in s.peaks {
          assert q == hs[n - 1 + 1];
        }
      }
      forall q | q in r.bottoms
        ensures exists k | 0 <= k < n :: q == hs[k + 1] && hs[k].close > hs[k + 1].close
      {
        if q !in s.bottoms {
          assert q == hs[n - 1 + 1];
        }
      }
    }
  }

  /** All records so far are dated no earlier than bar `hs[n]`. */
  ghost predicate RecordsWithin(hs: seq<Bar>, t: Trend, n: nat)
    requires n < |hs|
  {
    (forall i | 0 <= i < |t.peaks| :: t.peaks[i].date >= hs[n].date) &&
    (forall i | 0 <= i < |t.bottoms| :: t.bottoms[i].date >= hs[n].date)
  }

  /** On a window of one bar per day, newest first, the peaks and the bottoms
      come newest first too: `peaks[0]` is the most recent peak. */
  lemma {:induction false} TrendScanNewestFirst(hs: seq<Bar>, n: nat, upCount: nat, downCount: nat)
    requires n < |hs| && StrictlyNewestFirst(hs)
    ensures RecordsWithin(hs, TrendScan(hs, n, upCount, downCount), n)
    ensures StrictlyNewestFirst(TrendScan(hs, n, upCount, downCount).peaks)
    ensures StrictlyNewestFirst(TrendScan(hs, n, upCount, downCount).bottoms)
  {
    if n > 0 {
      TrendScanNewestFirst(hs, n - 1, upCount, downCount);
      var s := TrendScan(hs, n - 1, upCount, downCount);
      var r := TrendScan(hs, n, upCount, downCount);
      OlderRecord(hs, s.peaks, r.peaks, n);
      OlderRecord(hs, s.bottoms, r.bottoms, n);
    }
  }

  /** Appending bar `hs[n]` to records dated no earlier than `hs[n - 1]`
      keeps them newest first. */
  lemma OlderRecord(hs: seq<Bar>, before: seq<Bar>, after: seq<Bar>, n: nat)
    requires 0 < n < |hs| && StrictlyNewestFirst(hs)
    requires forall i | 0 <= i < |before| :: before[i].date >= hs[n - 1].date
    requires StrictlyNewestFirst(before)
    requires after == before || after == before + [hs[n]]
    ensures forall i | 0 <= i < |after| :: after[i].date >= hs[n].date
    ensures StrictlyNewestFirst(after)
  {
    assert hs[n - 1].date > hs[n].date;
    if after != before {
      forall i, j | 0 <= i < j < |after| ensures after[i].date > after[j].date {
        assert after[i] == before[i];
        if j < |before| {
          assert after[j] == before[j];
        }
      }
    }
  }

  // ---------------------------------------------------------------------
  // TrendTrend

  const TtMinHistory: nat := 15

  function TtUpCount(stance: Stance): nat
  {
    [3, 2, 1][stance]
  }

  function TtDownCount(stance: Stance): nat
  {
    [3, 2, 1][stance]
  }

  /** The source's scan loop over the window's 14 newest day pairs. */
  method ScanTrend(hs: seq<Bar>, upCount: nat, downCount: nat) returns (t: Trend)
    requires |hs| >= TtMinHistory
    ensures t == TrendScan(hs, TtMinHistory - 1, upCount, downCount)
  {
    var direction := Side;
    var count := 0;
    var peaks := [];
    var bottoms := [];
    for index := 0 to TtMinHistory - 1
      invariant Trend(direction, count, peaks, bottoms) == TrendScan(hs, index, upCount, downCount)
    {
      var today, yesterday := hs[index], hs[index + 1];
      if today.close > yesterday.close {
        if direction != Up {
          if direction == Down && count >= downCount {
            bottoms := bottoms + [yesterday];
          }
          count := 0;
        }
        count := count + 1;
        direction := Up;
      } else if today.close < yesterday.close {
        if direction != Down && count >= upCount {
          if direction == Up {
            peaks := peaks + [yesterday];
          }
          count := 0;
        }
        count := count + 1;
        direction := Down;
      }
    }
    t := Trend(direction, count, peaks, bottoms);
  }

  /** The TrendTrend rules over a scanned window.  From flat: buy when there
      are fewer than two peaks and the newest close rose, or when the newest
      bottom, newer than the symbol's last order, is above the one before it.
      Holding: sell on the mirrored rules for peaks. */
  /** TrendTrend's buy signal: fewer than two peaks and a higher newest
      close, or a newest bottom above the one before it that is newer than
      the symbol's last order. */
  predicate TtBuySignal(hs: seq<Bar>, t: Trend, last: Option<Order>)
    requires |hs| >= 2
  {
    (|t.peaks| < 2 && hs[0].close > hs[1].close) ||
    (|t.bottoms| >= 2 && !(last.Some? && t.bottoms[0].date <= last.value.dt) &&
     t.bottoms[0].close > t.bottoms[1].close)
  }

  /** The mirrored sell signal on peaks. */
  predicate TtSellSignal(hs: seq<Bar>, t: Trend, last: Option<Order>)
    requires |hs| >= 2
  {
    (|t.peaks| < 2 && hs[0].close < hs[1].close) ||
    (|t.peaks| >= 2 && !(last.Some? && t.peaks[0].date <= last.value.dt) &&
     t.peaks[0].close < t.peaks[1].close)
  }

  /** The TrendTrend rules over a scanned window: buy from flat exactly on
      the buy signal, sell a holding exactly on the sell signal. */
  function TrendTrendRule(p: Position, hs: seq<Bar>, t: Trend, last: Option<Order>): (r: Result<real>)
    requires |hs| >= 2
    ensures Shaped(p, r)
    ensures !p.Held() ==> r == (if TtBuySignal(hs, t, last) then BuyAll(p) else Ok(0.0))
    ensures p.Held() ==> r == (if TtSellSignal(hs, t, last) then Ok(SellAll(p)) else Ok(0.0))
  {
    if !p.Held() then
      if |t.peaks| < 2 && hs[0].close > hs[1].close then BuyAll(p)
      else if |t.bottoms| >= 2 then
        if last.Some? && t.bottoms[0].date <= last.value.dt then Ok(0.0)
        else if t.bottoms[0].close > t.bottoms[1].close then BuyAll(p)
        else Ok(0.0)
      else Ok(0.0)
    else if |t.peaks| < 2 && hs[0].close < hs[1].close then Ok(SellAll(p))
    else if |t.peaks| >= 2 then
      if last.Some? && t.peaks[0].date <= last.value.dt then Ok(0.0)
      else if t.peaks[0].close < t.peaks[1].close then Ok(SellAll(p))
      else Ok(0.0)
    else Ok(0.0)
  }

  ghost function TrendTrendDecision(p: Position, stance: Stance, history: seq<Bar>, orders: seq<Order>)
    : (r: Result<real>)
    ensures Shaped(p, r)
    ensures |Recent(history, p.symbol, TtMinHistory)| < TtMinHistory ==> NoTrade(r)
  {
    var hs := Recent(history, p.symbol, TtMinHistory);
    if |hs| < TtMinHistory then Ok(0.0)
    else TrendTrendRule(p, hs, TrendScan(hs, TtMinHistory - 1, TtUpCount(stance), TtDownCount(stance)),
                        LastSymbolOrder(orders, p.symbol))
  }

  method TrendTrend(p: Position, stance: Stance, history: seq<Bar>, orders: seq<Order>) returns (r: Result<real>)
    ensures r == TrendTrendDecision(p, stance, history, orders)
  {
    var hs := Recent(history, p.symbol, TtMinHistory);
    if |hs| < TtMinHistory {
      return Ok(0.0);
    }
    var t := ScanTrend(hs, TtUpCount(stance), TtDownCount(stance));
    r := TrendTrendRule(p, hs, t, LastSymbolOrder(orders, p.symbol));
  }

  // ---------------------------------------------------------------------
  // DTTT

  const DtttMinHistory: nat := 30

  function DtttUdCount(stance: Stance): nat
  {
    [2, 2, 1][stance]
  }

  function DtttPeakCount(stance: Stance): nat
  {
    [3, 3, 2][stance]
  }

  function DtttBuyRate(stance: Stance): real
  {
    [0.6, 0.5, 0.4][stance]
  }

  function DtttDays(stance: Stance): nat
  {
    [3, 2, 2][stance]
  }

  /** Where the close sits in the day's range, 0 at the low and 1 at the high. */
  function CloseInRange(b: Bar): real
    requires b.high - b.low > 0.0
  {
    (b.close - b.low) / (b.high - b.low)
  }

  /** DTTT's scan step: a day with no positive range is skipped entirely;
      otherwise it is TrendTrend's step with `ud_count` for both runs. */
  function DtttStep(s: Trend, today: Bar, yesterday: Bar, udCount: nat): (r: Trend)
    ensures today.high - today.low <= 0.0 ==> r == s
    ensures today.high - today.low > 0.0 ==> r == TrendStep(s, today, yesterday, udCount, udCount)
  {
    if today.high - today.low > 0.0 then TrendStep(s, today, yesterday, udCount, udCount) else s
  }

  ghost function DtttTrend(hs: seq<Bar>, n: nat, udCount: nat): Trend
    requires n < |hs|
  {
    if n == 0 then NoTrend else DtttStep(DtttTrend(hs, n - 1, udCount), hs[n - 1], hs[n], udCount)
  }

  /** The rates the scan collects from the window's first `n` bars: the
      close's place in the range of each day with a positive range. */
  ghost function DtttRates(hs: seq<Bar>, n: nat): (r: seq<real>)
    requires n <= |hs|
    ensures |r| <= n
  {
    if n == 0 then []
    else
      var b := hs[n - 1];
      if b.high - b.low > 0.0 then DtttRates(hs, n - 1) + [CloseInRange(b)] else DtttRates(hs, n - 1)
  }

  /** On well-formed bars every rate lies between 0 and 1. */
  lemma {:induction false} DtttRatesInUnit(hs: seq<Bar>, n: nat)
    requires n <= |hs|
    requires forall b | b in hs :: b.low <= b.close <= b.high
    ensures forall x | x in DtttRates(hs, n) :: 0.0 <= x <= 1.0
  {
    if n > 0 {
      DtttRatesInUnit(hs, n - 1);
      var b := hs[n - 1];
      if b.high - b.low > 0.0 {
        assert b in hs;
        QuotientInUnit(b.close - b.low, b.high - b.low);
        assert DtttRates(hs, n) == DtttRates(hs, n - 1) + [CloseInRange(b)];
      }
    }
  }

  lemma QuotientInUnit(x: real, g: real)
    requires 0.0 <= x <= g && g > 0.0
    ensures 0.0 <= x / g <= 1.0
  {
    assert x / g * g == x;
  }

  /** The source's scan loop: rates and runs over the 14 newest day pairs. */
  method ScanDttt(hs: seq<Bar>, udCount: nat) returns (t: Trend, rates: seq<real>)
    requires |hs| >= TtMinHistory
    ensures t == DtttTrend(hs, TtMinHistory - 1, udCount)
    ensures rates == DtttRates(hs, TtMinHistory - 1)
  {
    var direction := Side;
    var count := 0;
    var peaks := [];
    var bottoms := [];
    rates := [];
    for index := 0 to TtMinHistory - 1
      invariant Trend(direction, count, peaks, bottoms) == DtttTrend(hs, index, udCount)
      invariant rates == DtttRates(hs, index)
    {
      var today, yesterday := hs[index], hs[index + 1];
      var gap := today.high - today.low;
      if gap > 0.0 {
        rates := rates + [(today.close - today.low) / gap];
      } else {
        continue;
      }
      if today.close > yesterday.close {
        if direction != Up {
          if direction == Down && count >= udCount {
            bottoms := bottoms + [yesterday];
          }
          count := 0;
        }
        count := count + 1;
        direction := Up;
      } else if today.close < yesterday.close {
        if direction != Down && count >= udCount {
          if direction == Up {
            peaks := peaks + [yesterday];
          }
          count := 0;
        }
        count := count + 1;
        direction := Down;
      }
    }
    t := Trend(direction, count, peaks, bottoms);
  }

  /** The first `peakCount + 1` peaks have strictly rising closes (newest
      lowest). */
  predicate PeaksFalling(peaks: seq<Bar>, peakCount: nat)
    requires peakCount < |peaks|
  {
    forall n | 0 <= n < peakCount :: peaks[n].close < peaks[n + 1].close
  }

  /** The DTTT rules.  From flat: buy when each of the first `days` rates
      reaches `buy_rate` (IndexError when fewer rates were collected).
      Holding: with more than `peakCount` peaks, sell when the second peak is
      newer than the symbol's last order and the peaks fall toward the
      present; with fewer, sell when the newest close fell. */
  function DtttRule(p: Position, hs: seq<Bar>, t: Trend, rates: seq<real>, last: Option<Order>,
                    peakCount: nat, buyRate: real, days: nat): (r: Result<real>)
    requires |hs| >= 2 && peakCount >= 1
    ensures Shaped(p, r)
    ensures !p.Held() ==> match PrefixHolds(rates, days, x => x >= buyRate)
      case Ok(pass) => r == (if pass then BuyAll(p) else Ok(0.0))
      case Raise(_) => r == Raise(IndexError)
    ensures p.Held() ==> r == Ok(SellAll(p)) || NoTrade(r)
    ensures p.Held() ==> (r == Ok(SellAll(p)) <==>
      if |t.peaks| >= peakCount + 1 then
        !(last.Some? && t.peaks[1].date <= last.value.dt) && PeaksFalling(t.peaks, peakCount)
      else hs[0].close < hs[1].close)
  {
    if !p.Held() then
      match PrefixHolds(rates, days, x => x >= buyRate)
      case Ok(pass) => if pass then BuyAll(p) else Ok(0.0)
      case Raise(_) => Raise(IndexError)
    else if |t.peaks| >= peakCount + 1 then
      if last.Some? && t.peaks[1].date <= last.value.dt then Ok(0.0)
      else if !PeaksFalling(t.peaks, peakCount) then Ok(0.0)
      else Ok(SellAll(p))
    else if hs[0].close < hs[1].close then Ok(SellAll(p))
    else Ok(0.0)
  }

  /** DTTT on a window of the symbol's newest bars, with the peak count given. */
  ghost function DtttWindow(p: Position, stance: Stance, hs: seq<Bar>, last: Option<Order>, peakCount: nat)
    : (r: Result<real>)
    requires |hs| >= TtMinHistory && peakCount >= 1
    ensures Shaped(p, r)
  {
    DtttRule(p, hs, DtttTrend(hs, TtMinHistory - 1, DtttUdCount(stance)), DtttRates(hs, TtMinHistory - 1),
             last, peakCount, DtttBuyRate(stance), DtttDays(stance))
  }

  /** DTTT as the source writes it: the peak count is read from the
      `ud_count` column of the thresholds table. */
  ghost function DtttAsWritten(p: Position, stance: Stance, history: seq<Bar>, orders: seq<Order>)
    : (r: Result<real>)
    ensures Shaped(p, r)
  {
    var hs := Recent(history, p.symbol, DtttMinHistory);
    if |hs| < DtttMinHistory then Ok(0.0)
    else DtttWindow(p, stance, hs, LastSymbolOrder(orders, p.symbol), DtttUdCount(stance))
  }

  /** DTTT with the peak count read from its own `peak_count` column. */
  ghost function DtttDecision(p: Position, stance: Stance, history: seq<Bar>, orders: seq<Order>)
    : (r: Result<real>)
    ensures Shaped(p, r)
    ensures |Recent(history, p.symbol, DtttMinHistory)| < DtttMinHistory ==> NoTrade(r)
  {
    var hs := Recent(history, p.symbol, DtttMinHistory);
    if |hs| < DtttMinHistory then Ok(0.0)
    else DtttWindow(p, stance, hs, LastSymbolOrder(orders, p.symbol), DtttPeakCount(stance))
  }

  /** With the intended peak count a holding is sold on the peak rule only
      when `peak_count + 1` peaks were recorded and their closes fall toward
      the present across all `peak_count` steps. */
  lemma DtttPeakSell(p: Position, stance: Stance, history: seq<Bar>, orders: seq<Order>)
    requires p.Held()
    requires DtttDecision(p, stance, history, orders) == Ok(SellAll(p))
    ensures var hs := Recent(history, p.symbol, DtttMinHistory);
      |hs| == DtttMinHistory &&
      var t := DtttTrend(hs, TtMinHistory - 1, DtttUdCount(stance));
      if |t.peaks| > DtttPeakCount(stance) then PeaksFalling(t.peaks, DtttPeakCount(stance))
      else hs[0].close < hs[1].close
  {
  }

  /** The closes of a 30-day window, newest first, that take three up runs
      of two days, each ended by a lower close. */
  const PeakCloses: seq<real> := [3.0, 2.0, 1.0, 6.0, 5.0, 4.0, 9.0, 8.0, 7.0, 10.0]

  function PeakWindow(): (w: seq<Bar>)
    ensures |w| == DtttMinHistory
  {
    seq(DtttMinHistory, i requires 0 <= i < DtttMinHistory =>
      Bar("ABC", 100 - i, 0.0, 20.0, 0.0, if i < |PeakCloses| then PeakCloses[i] else 10.0, 1.0))
  }

  const PeakHolder := Position("ABC", 0, 5.0, Some(10.0), true, 0.0, 0.0, Conservative, Conservative)

  /** On this window the scan records three peaks with closes 6, 9 and 10.
      Conservatively, as written (two peaks compared, three needed) DTTT sells
      the holding; reading `peak_count` (three compared, four needed) it
      keeps it, since the newest close also rose. */
  lemma DtttPeakCountMisread()
    ensures DtttWindow(PeakHolder, Conservative, PeakWindow(), None, DtttUdCount(Conservative)) == Ok(-5.0)
    ensures DtttWindow(PeakHolder, Conservative, PeakWindow(), None, DtttPeakCount(Conservative)) == Ok(0.0)
  {
    var w := PeakWindow();
    PeakWindowScan();
    var t := DtttTrend(w, TtMinHistory - 1, DtttUdCount(Conservative));
    var rates := DtttRates(w, TtMinHistory - 1);
    assert |t.peaks| == 3 && PeaksFalling(t.peaks, 2);
    assert w[0].close == 3.0 && w[1].close == 2.0;
    assert PeakHolder.Held() && SellAll(PeakHolder) == -5.0;
    assert DtttRule(PeakHolder, w, t, rates, None, 2, DtttBuyRate(Conservative), DtttDays(Conservative)) == Ok(-5.0);
    assert DtttRule(PeakHolder, w, t, rates, None, 3, DtttBuyRate(Conservative), DtttDays(Conservative)) == Ok(0.0);
  }

  /** The scan of PeakWindow's eight newest bars records the peaks at
      closes 6 and 9. */
  lemma PeakWindowFirstPeaks()
    ensures DtttTrend(PeakWindow(), 8, 2) == Trend(Up, 2, [PeakWindow()[3], PeakWindow()[6]], [])
  {
    var w := PeakWindow();
    assert w[0].close == 3.0 && w[1].close == 2.0 && w[2].close == 1.0 && w[3].close == 6.0;
    assert w[4].close == 5.0 && w[5].close == 4.0 && w[6].close == 9.0 && w[7].close == 8.0;
    assert w[8].close == 7.0;
    assert DtttTrend(w, 1, 2) == Trend(Up, 1, [], []);
    assert DtttTrend(w, 2, 2) == Trend(Up, 2, [], []);
    assert DtttTrend(w, 3, 2) == Trend(Down, 1, [w[3]], []);
    assert DtttTrend(w, 4, 2) == Trend(Up, 1, [w[3]], []);
    assert DtttTrend(w, 5, 2) == Trend(Up, 2, [w[3]], []);
    assert DtttTrend(w, 6, 2) == Trend(Down, 1, [w[3], w[6]], []);
    assert DtttTrend(w, 7, 2) == Trend(Up, 1, [w[3], w[6]], []);
    assert DtttTrend(w, 8, 2) == Trend(Up, 2, [w[3], w[6]], []);
  }

  /** The trend scan of PeakWindow records the peaks at closes 6, 9 and 10. */
  lemma PeakWindowScan()
    ensures DtttTrend(PeakWindow(), 14, 2)
      == Trend(Down, 1, [PeakWindow()[3], PeakWindow()[6], PeakWindow()[9]], [])
  {
    var w := PeakWindow();
    PeakWindowFirstPeaks();
    assert w[8].close == 7.0 && w[9].close == 10.0;
    assert forall i | 10 <= i < |w| :: w[i].close == 10.0;
    var t := Trend(Down, 1, [w[3], w[6], w[9]], []);
    assert DtttTrend(w, 9, 2) == t;
    assert DtttTrend(w, 10, 2) == t;
    assert DtttTrend(w, 11, 2) == t;
    assert DtttTrend(w, 12, 2) == t;
    assert DtttTrend(w, 13, 2) == t;
  }

  method Dttt(p: Position, stance: Stance, history: seq<Bar>, orders: seq<Order>) returns (r: Result<real>)
    ensures r == DtttDecision(p, stance, history, orders)
  {
    var hs := Recent(history, p.symbol, DtttMinHistory);
    if |hs| < DtttMinHistory {
      return Ok(0.0);
    }
    var t, rates := ScanDttt(hs, DtttUdCount(stance));
    r := DtttRule(p, hs, t, rates, LastSymbolOrder(orders, p.symbol),
                  DtttPeakCount(stance), DtttBuyRate(stance), DtttDays(stance));
  }

  // ---------------------------------------------------------------------
  // OpenClose and OCTrend

  /** The day's body as a share of its range. */
  function BodyRate(b: Bar): real
    requires b.high - b.low != 0.0
  {
    (b.close - b.open) / (b.high - b.low)
  }

  /** The body rates of a window's bars, skipping days whose range is zero. */
  ghost function BodyRates(hs: seq<Bar>): (r: seq<real>)
    ensures |r| <= |hs|
  {
    if hs == [] then []
    else
      var b := hs[|hs| - 1];
      var rest := BodyRates(hs[..|hs| - 1]);
      if b.high - b.low == 0.0 then rest else rest + [BodyRate(b)]
  }

  /** On well-formed bars every body rate lies between -1 and 1. */
  lemma {:induction false} BodyRatesInUnit(hs: seq<Bar>)
    requires forall b | b in hs :: b.low <= b.open <= b.high && b.low <= b.close <= b.high
    ensures forall x | x in BodyRates(hs) :: -1.0 <= x <= 1.0
  {
    if hs != [] {
      var b := hs[|hs| - 1];
      assert b in hs;
      assert forall c | c in hs[..|hs| - 1] :: c in hs;
      BodyRatesInUnit(hs[..|hs| - 1]);
      if b.high - b.low != 0.0 {
        assert BodyRates(hs) == BodyRates(hs[..|hs| - 1]) + [BodyRate(b)];
        RatioInUnit(b.close - b.open, b.high - b.low);
      }
    }
  }

  lemma RatioInUnit(num: real, g: real)
    requires g > 0.0 && -g <= num <= g
    ensures -1.0 <= num / g <= 1.0
  {
    var x := num / g;
    assert x * g == num;
    assert (x - 1.0) * g <= 0.0;
    assert (x + 1.0) * g >= 0.0;
  }

  /** The source's append loop over the window. */
  method CollectBodyRates(hs: seq<Bar>) returns (rates: seq<real>)
    ensures rates == BodyRates(hs)
  {
    rates := [];
    var i := 0;
    while i < |hs|
      invariant 0 <= i <= |hs|
      invariant rates == BodyRates(hs[..i])
    {
      assert hs[..i + 1][..i] == hs[..i];
      var gap := hs[i].high - hs[i].low;
      if gap != 0.0 {
        rates := rates + [(hs[i].close - hs[i].open) / gap];
      }
      i := i + 1;
    }
    assert hs[..i] == hs;
  }

  const OcMinHistory: nat := 5

  function OcMeaningfulRate(stance: Stance): real
  {
    [0.6, 0.5, 0.4][stance]
  }

  function OcUpRepeat(stance: Stance): nat
  {
    [3, 2, 1][stance]
  }

  function OcDownRepeat(stance: Stance): nat
  {
    [3, 2, 1][stance]
  }

  /** OpenClose: buy from flat when the first `up_repeat` rates are all
      meaningful and non-negative; sell a holding when the first
      `down_repeat` are all meaningful and non-positive. */
  function OpenCloseRule(p: Position, stance: Stance, rates: seq<real>): (r: Result<real>)
    ensures Shaped(p, r)
    ensures !p.Held() ==> match PrefixHolds(rates, OcUpRepeat(stance), x => Abs(x) >= OcMeaningfulRate(stance) && x >= 0.0)
      case Ok(pass) => r == (if pass then BuyAll(p) else Ok(0.0))
      case Raise(_) => r == Raise(IndexError)
    ensures p.Held() ==> match PrefixHolds(rates, OcDownRepeat(stance), x => Abs(x) >= OcMeaningfulRate(stance) && x <= 0.0)
      case Ok(pass) => r == (if pass then Ok(SellAll(p)) else Ok(0.0))
      case Raise(_) => r == Raise(IndexError)
  {
    var m := OcMeaningfulRate(stance);
    var check := if p.Held() then PrefixHolds(rates, OcDownRepeat(stance), x => Abs(x) >= m && x <= 0.0)
                 else PrefixHolds(rates, OcUpRepeat(stance), x => Abs(x) >= m && x >= 0.0);
    match check
    case Raise(_) => Raise(IndexError)
    case Ok(pass) =>
      if !pass then Ok(0.0) else if p.Held() then Ok(SellAll(p)) else BuyAll(p)
  }

  ghost function OpenCloseDecision(p: Position, stance: Stance, history: seq<Bar>): (r: Result<real>)
    ensures Shaped(p, r)
  {
    var hs := Recent(history, p.symbol, OcMinHistory);
    if |hs| < OcMinHistory then Ok(0.0) else OpenCloseRule(p, stance, BodyRates(hs))
  }

  method OpenClose(p: Position, stance: Stance, history: seq<Bar>) returns (r: Result<real>)
    ensures r == OpenCloseDecision(p, stance, history)
  {
    var hs := Recent(history, p.symbol, OcMinHistory);
    if |hs| < OcMinHistory {
      return Ok(0.0);
    }
    var rates := CollectBodyRates(hs);
    r := OpenCloseRule(p, stance, rates);
  }

  const OctMinHistory: nat := 7

  function OctPrevDownCount(stance: Stance): nat
  {
    [3, 2, 1][stance]
  }

  function OctMonitorCount(stance: Stance): nat
  {
    [3, 2, 1][stance]
  }

  /** OCTrend: buy from flat when the newest body rate is positive and the
      `prev_down_count` before it are not; sell a holding when the newest is
      negative and none of the first `monitor_count` is positive. */
  function OcTrendRule(p: Position, stance: Stance, rates: seq<real>): (r: Result<real>)
    ensures Shaped(p, r)
    ensures rates == [] ==> r == Raise(IndexError)
    ensures rates != [] && !p.Held() ==>
      if rates[0] > 0.0 then
        match PrefixHolds(rates[1..], OctPrevDownCount(stance), x => x <= 0.0)
        case Ok(pass) => r == (if pass then BuyAll(p) else Ok(0.0))
        case Raise(_) => r == Raise(IndexError)
      else NoTrade(r)
    ensures rates != [] && p.Held() ==>
      if rates[0] < 0.0 then
        match PrefixHolds(rates, OctMonitorCount(stance), x => x <= 0.0)
        case Ok(pass) => r == (if pass then Ok(SellAll(p)) else Ok(0.0))
        case Raise(_) => r == Raise(IndexError)
      else NoTrade(r)
  {
    if rates == [] then Raise(IndexError)
    else if !p.Held() then
      if rates[0] > 0.0 then
        match PrefixHolds(rates[1..], OctPrevDownCount(stance), x => x <= 0.0)
        case Ok(pass) => if pass then BuyAll(p) else Ok(0.0)
        case Raise(_) => Raise(IndexError)
      else Ok(0.0)
    else if rates[0] < 0.0 then
      match PrefixHolds(rates, OctMonitorCount(stance), x => x <= 0.0)
      case Ok(pass) => if pass then Ok(SellAll(p)) else Ok(0.0)
      case Raise(_) => Raise(IndexError)
    else Ok(0.0)
  }

  ghost function OcTrendDecision(p: Position, stance: Stance, history: seq<Bar>): (r: Result<real>)
    ensures Shaped(p, r)
  {
    var hs := Recent(history, p.symbol, OctMinHistory);
    if |hs| < OctMinHistory then Ok(0.0) else OcTrendRule(p, stance, BodyRates(hs))
  }

  method OcTrend(p: Position, stance: Stance, history: seq<Bar>) returns (r: Result<real>)
    ensures r == OcTrendDecision(p, stance, history)
  {
    var hs := Recent(history, p.symbol, OctMinHistory);
    if |hs| < OctMinHistory {
      return Ok(0.0);
    }
    var rates := CollectBodyRates(hs);
    r := OcTrendRule(p, stance, rates);
  }

  // ---------------------------------------------------------------------
  // DayTrend, AggDT and AggTwo

  /** How far `price` sits above the middle of bar `b`'s range, relative to
      its low. */
  function MidRate(price: real, b: Bar): real
    requires b.low != 0.0
  {
    (price - (b.high + b.low) / 2.0) / b.low
  }

  predicate NoZeroLow(hs: seq<Bar>)
  {
    forall i | 0 <= i < |hs| :: hs[i].low != 0.0
  }

  /** DayTrend's rates: each day's close against its own mid-range. */
  function CloseRates(hs: seq<Bar>): (r: seq<real>)
    requires NoZeroLow(hs)
    ensures |r| == |hs| && forall i | 0 <= i < |hs| :: r[i] == MidRate(hs[i].close, hs[i])
  {
    seq(|hs|, i requires 0 <= i < |hs| && NoZeroLow(hs) => MidRate(hs[i].close, hs[i]))
  }

  /** The source's append loop; a zero low divides by zero. */
  method CollectCloseRates(hs: seq<Bar>) returns (r: Result<seq<real>>)
    ensures NoZeroLow(hs) ==> r == Ok(CloseRates(hs))
    ensures !NoZeroLow(hs) ==> r == Raise(ZeroDivisionError)
  {
    var rates := [];
    for i := 0 to |hs|
      invariant NoZeroLow(hs[..i])
      invariant |rates| == i && forall k | 0 <= k < i :: rates[k] == MidRate(hs[k].close, hs[k])
    {
      if hs[i].low == 0.0 {
        return Raise(ZeroDivisionError);
      }
      var center := (hs[i].high + hs[i].low) / 2.0;
      rates := rates + [(hs[i].close - center) / hs[i].low];
    }
    assert hs[..|hs|] == hs;
    assert NoZeroLow(hs);
    assert rates == CloseRates(hs);
    return Ok(rates);
  }

  function DtBuyRate(stance: Stance): real
  {
    [0.001, 0.0008, 0.0006][stance]
  }

  function DtSellRate(stance: Stance): real
  {
    [-0.001, -0.0008, -0.0006][stance]
  }

  function DtDays(stance: Stance): nat
  {
    [4, 2, 2][stance]
  }

  /** Buy from flat iff every rate is above `buy`; sell a holding iff every
      rate is below `sell`. */
  function AllRatesRule(p: Position, rates: seq<real>, buy: real, sell: real): (r: Result<real>)
    ensures Shaped(p, r)
    ensures !p.Held() ==> r == (if forall i | 0 <= i < |rates| :: rates[i] > buy then BuyAll(p) else Ok(0.0))
    ensures p.Held() ==> r == (if forall i | 0 <= i < |rates| :: rates[i] < sell then Ok(SellAll(p)) else Ok(0.0))
  {
    if !p.Held() then
      if forall i | 0 <= i < |rates| :: rates[i] > buy then BuyAll(p) else Ok(0.0)
    else if forall i | 0 <= i < |rates| :: rates[i] < sell then Ok(SellAll(p))
    else Ok(0.0)
  }

  /** DayTrend: the all-rates rule over the newest `days` close rates. */
  ghost function DayTrendDecision(p: Position, stance: Stance, history: seq<Bar>): (r: Result<real>)
    ensures Shaped(p, r)
    ensures |Recent(history, p.symbol, DtDays(stance))| < DtDays(stance) ==> NoTrade(r)
  {
    var hs := Recent(history, p.symbol, DtDays(stance));
    if |hs| < DtDays(stance) then Ok(0.0)
    else if !NoZeroLow(hs) then Raise(ZeroDivisionError)
    else AllRatesRule(p, CloseRates(hs), DtBuyRate(stance), DtSellRate(stance))
  }

  method DayTrend(p: Position, stance: Stance, history: seq<Bar>) returns (r: Result<real>)
    ensures r == DayTrendDecision(p, stance, history)
  {
    var hs := Recent(history, p.symbol, DtDays(stance));
    if |hs| < DtDays(stance) {
      return Ok(0.0);
    }
    var rates := CollectCloseRates(hs);
    if rates.Raise? {
      return Raise(rates.error);
    }
    r := AllRatesRule(p, rates.value, DtBuyRate(stance), DtSellRate(stance));
  }

  function AdtOneBuyRate(stance: Stance): real
  {
    [0.010, 0.008, 0.006][stance]
  }

  function AdtOneSellRate(stance: Stance): real
  {
    [-0.010, -0.008, -0.006][stance]
  }

  function AdtBuyRate(stance: Stance): real
  {
    [0.0006, 0.0004, 0.0003][stance]
  }

  /** The `sell_rate` column is -0.0 for every stance. */
  function AdtSellRate(stance: Stance): real
  {
    0.0
  }

  function AdtDays(stance: Stance): nat
  {
    [3, 2, 2][stance]
  }

  /** AggDT's and AggTwo's rule: a newest rate at or beyond the one-day
      threshold trades at once; otherwise the all-rates rule applies. */
  function AggressiveRule(p: Position, stance: Stance, rates: seq<real>): (r: Result<real>)
    requires rates != []
    ensures Shaped(p, r)
    ensures !p.Held() && rates[0] >= AdtOneBuyRate(stance) ==> r == BuyAll(p)
    ensures p.Held() && rates[0] <= AdtOneSellRate(stance) ==> r == Ok(SellAll(p))
    ensures !p.Held() && rates[0] < AdtOneBuyRate(stance) ==>
      r == AllRatesRule(p, rates, AdtBuyRate(stance), AdtSellRate(stance))
    ensures p.Held() && rates[0] > AdtOneSellRate(stance) ==>
      r == AllRatesRule(p, rates, AdtBuyRate(stance), AdtSellRate(stance))
  {
    if !p.Held() && rates[0] >= AdtOneBuyRate(stance) then BuyAll(p)
    else if p.Held() && rates[0] <= AdtOneSellRate(stance) then Ok(SellAll(p))
    else AllRatesRule(p, rates, AdtBuyRate(stance), AdtSellRate(stance))
  }

  ghost function AggDtDecision(p: Position, stance: Stance, history: seq<Bar>): (r: Result<real>)
    ensures Shaped(p, r)
  {
    var hs := Recent(history, p.symbol, AdtDays(stance));
    if |hs| < AdtDays(stance) then Ok(0.0)
    else if !NoZeroLow(hs) then Raise(ZeroDivisionError)
    else AggressiveRule(p, stance, CloseRates(hs))
  }

  method AggDt(p: Position, stance: Stance, history: seq<Bar>) returns (r: Result<real>)
    ensures r == AggDtDecision(p, stance, history)
  {
    var hs := Recent(history, p.symbol, AdtDays(stance));
    if |hs| < AdtDays(stance) {
      return Ok(0.0);
    }
    var rates := CollectCloseRates(hs);
    if rates.Raise? {
      return Raise(rates.error);
    }
    r := AggressiveRule(p, stance, rates.value);
  }

  /** AggTwo's rates: the current price against the newest day's mid-range,
      then each day's open against the mid-range of the day before. */
  function OpenRates(price: real, hs: seq<Bar>): (r: seq<real>)
    requires NoZeroLow(hs)
    ensures |r| == |hs|
    ensures hs != [] ==> r[0] == MidRate(price, hs[0])
    ensures forall i | 1 <= i < |hs| :: r[i] == MidRate(hs[i - 1].open, hs[i])
  {
    seq(|hs|, i requires 0 <= i < |hs| && NoZeroLow(hs) =>
      MidRate(if i == 0 then price else hs[i - 1].open, hs[i]))
  }

  /** The source's computation: the first rate, then the append loop.  An
      unpriced position fails before any division. */
  method CollectOpenRates(value: Option<real>, hs: seq<Bar>) returns (r: Result<seq<real>>)
    requires hs != []
    ensures value.None? ==> r == Raise(TypeError)
    ensures value.Some? && NoZeroLow(hs) ==> r == Ok(OpenRates(value.value, hs))
    ensures value.Some? && !NoZeroLow(hs) ==> r == Raise(ZeroDivisionError)
  {
    if value.None? {
      return Raise(TypeError);
    }
    if hs[0].low == 0.0 {
      return Raise(ZeroDivisionError);
    }
    var center := (hs[0].high + hs[0].low) / 2.0;
    r := AppendOpenRates(hs, [(value.value - center) / hs[0].low]);
    if r.Ok? {
      assert r.value == OpenRates(value.value, hs);
    }
  }

  /** The append loop: the remaining rates after the first. */
  method AppendOpenRates(hs: seq<Bar>, first: seq<real>) returns (r: Result<seq<real>>)
    requires hs != [] && hs[0].low != 0.0 && |first| == 1
    ensures NoZeroLow(hs) ==>
      r.Ok? && |r.value| == |hs| && r.value[0] == first[0] &&
      forall k | 1 <= k < |hs| :: r.value[k] == MidRate(hs[k - 1].open, hs[k])
    ensures !NoZeroLow(hs) ==> r == Raise(ZeroDivisionError)
  {
    var rates := first;
    for n := 0 to |hs| - 1
      invariant forall k | 0 <= k <= n :: hs[k].low != 0.0
      invariant |rates| == n + 1 && rates[0] == first[0]
      invariant forall k | 1 <= k <= n :: rates[k] == MidRate(hs[k - 1].open, hs[k])
    {
      if hs[n + 1].low == 0.0 {
        return Raise(ZeroDivisionError);
      }
      var center := (hs[n + 1].high + hs[n + 1].low) / 2.0;
      rates := rates + [(hs[n].open - center) / hs[n + 1].low];
    }
    return Ok(rates);
  }

  ghost function AggTwoDecision(p: Position, stance: Stance, history: seq<Bar>): (r: Result<real>)
    ensures Shaped(p, r)
  {
    var hs := Recent(history, p.symbol, AdtDays(stance));
    if |hs| < AdtDays(stance) then Ok(0.0)
    else if p.value.None? then Raise(TypeError)
    else if !NoZeroLow(hs) then Raise(ZeroDivisionError)
    else AggressiveRule(p, stance, OpenRates(p.value.value, hs))
  }

  method AggTwo(p: Position, stance: Stance, history: seq<Bar>) returns (r: Result<real>)
    ensures r == AggTwoDecision(p, stance, history)
  {
    var hs := Recent(history, p.symbol, AdtDays(stance));
    if |hs| < AdtDays(stance) {
      return Ok(0.0);
    }
    var rates := CollectOpenRates(p.value, hs);
    if rates.Raise? {
      return Raise(rates.error);
    }
    r := AggressiveRule(p, stance, rates.value);
  }

  // ---------------------------------------------------------------------
  // RAvg

  function RaDays(stance: Stance): nat
  {
    [7, 6, 5][stance]
  }

  /** The weight of the bar `k` days back: `pow(1 - 0.05, k)`. */
  function Weight(k: nat): (r: real)
    ensures 0.0 < r <= 1.0
  {
    Pow(0.95, k)
  }

  /** The weights of the first `n` days. */
  ghost function WeightSum(n: nat): (r: real)
    ensures n > 0 ==> r >= 1.0
    ensures r >= 0.0
  {
    if n == 0 then 0.0 else WeightSum(n - 1) + Weight(n - 1)
  }

  /** The weighted opens of the window's first `n` days. */
  ghost function WeightedOpens(hs: seq<Bar>, n: nat): real
    requires n <= |hs|
  {
    if n == 0 then 0.0 else WeightedOpens(hs, n - 1) + hs[n - 1].open * Weight(n - 1)
  }

  /** The weighted average of opens that are all at least `floor` is at least
      `floor`. */
  lemma {:induction false} WeightedOpensAbove(hs: seq<Bar>, n: nat, floor: real)
    requires n <= |hs|
    requires forall k | 0 <= k < n :: hs[k].open >= floor
    ensures WeightedOpens(hs, n) >= floor * WeightSum(n)
  {
    if n > 0 {
      WeightedOpensAbove(hs, n - 1, floor);
      var w := Weight(n - 1);
      assert hs[n - 1].open * w >= floor * w;
    }
  }

  /** ... and at most `ceiling` when they are all at most `ceiling`. */
  lemma {:induction false} WeightedOpensBelow(hs: seq<Bar>, n: nat, ceiling: real)
    requires n <= |hs|
    requires forall k | 0 <= k < n :: hs[k].open <= ceiling
    ensures WeightedOpens(hs, n) <= ceiling * WeightSum(n)
  {
    if n > 0 {
      WeightedOpensBelow(hs, n - 1, ceiling);
      var w := Weight(n - 1);
      assert hs[n - 1].open * w <= ceiling * w;
    }
  }

  /** RAvg: compare the weighted average open of the window with its oldest
      open; buy from flat when the average is not below it, sell a holding
      when it is not above it. */
  function RAvgRule(p: Position, total: real, weightSum: real, startOpen: real): (r: Result<real>)
    requires weightSum > 0.0
    ensures Shaped(p, r)
    ensures !p.Held() ==> r == (if total / weightSum >= startOpen then BuyAll(p) else Ok(0.0))
    ensures p.Held() ==> r == (if total / weightSum <= startOpen then Ok(SellAll(p)) else Ok(0.0))
  {
    var diff := total / weightSum - startOpen;
    if !p.Held() then (if diff >= 0.0 then BuyAll(p) else Ok(0.0))
    else if diff <= 0.0 then Ok(SellAll(p))
    else Ok(0.0)
  }

  /** RAvg on a window of the symbol's newest bars. */
  ghost function RAvgWindow(p: Position, hs: seq<Bar>): (r: Result<real>)
    requires hs != []
    ensures Shaped(p, r)
  {
    RAvgRule(p, WeightedOpens(hs, |hs|), WeightSum(|hs|), hs[|hs| - 1].open)
  }

  ghost function RAvgDecision(p: Position, stance: Stance, history: seq<Bar>): (r: Result<real>)
    ensures Shaped(p, r)
  {
    var hs := Recent(history, p.symbol, RaDays(stance));
    if |hs| < RaDays(stance) then Ok(0.0) else RAvgWindow(p, hs)
  }

  lemma QuotientAtLeast(x: real, w: real, floor: real)
    requires w > 0.0 && x >= floor * w
    ensures x / w >= floor
  {
    var q := x / w;
    assert q * w == x;
    assert (q - floor) * w >= 0.0;
  }

  lemma QuotientAtMost(x: real, w: real, ceiling: real)
    requires w > 0.0 && x <= ceiling * w
    ensures x / w <= ceiling
  {
    var q := x / w;
    assert q * w == x;
    assert (q - ceiling) * w <= 0.0;
  }

  /** A window whose opens never go below its oldest open makes RAvg buy
      from flat. */
  lemma RAvgBuysOnRise(p: Position, hs: seq<Bar>)
    requires !p.Held() && hs != []
    requires forall k | 0 <= k < |hs| :: hs[k].open >= hs[|hs| - 1].open
    ensures RAvgWindow(p, hs) == BuyAll(p)
  {
    WeightedOpensAbove(hs, |hs|, hs[|hs| - 1].open);
    QuotientAtLeast(WeightedOpens(hs, |hs|), WeightSum(|hs|), hs[|hs| - 1].open);
  }

  /** A window whose opens never go above its oldest open makes RAvg sell a
      holding. */
  lemma RAvgSellsOnFall(p: Position, hs: seq<Bar>)
    requires p.Held() && hs != []
    requires forall k | 0 <= k < |hs| :: hs[k].open <= hs[|hs| - 1].open
    ensures RAvgWindow(p, hs) == Ok(SellAll(p))
  {
    WeightedOpensBelow(hs, |hs|, hs[|hs| - 1].open);
    QuotientAtMost(WeightedOpens(hs, |hs|), WeightSum(|hs|), hs[|hs| - 1].open);
  }

  /** The source's accumulation loop over the window. */
  method WeighOpens(hs: seq<Bar>) returns (total: real, weightSum: real)
    ensures total == WeightedOpens(hs, |hs|) && weightSum == WeightSum(|hs|)
  {
    total := 0.0;
    var weight := 1.0;
    weightSum := 0.0;
    var times := 0;
    while times < |hs|
      invariant 0 <= times <= |hs|
      invariant total == WeightedOpens(hs, times) && weightSum == WeightSum(times)
      invariant weight == Weight(times)
    {
      total := total + hs[times].open * weight;
      weightSum := weightSum + weight;
      times := times + 1;
      weight := Pow(0.95, times);
    }
  }

  method RAvg(p: Position, stance: Stance, history: seq<Bar>) returns (r: Result<real>)
    ensures r == RAvgDecision(p, stance, history)
  {
    var days := RaDays(stance);
    var hs := Recent(history, p.symbol, days);
    if |hs| < days {
      return Ok(0.0);
    }
    var startOpen := hs[days - 1].open;
    var total, weightSum := WeighOpens(hs);
    r := RAvgRule(p, total, weightSum, startOpen);
  }

  // ---------------------------------------------------------------------
  // Ahnyung

  const AhnyungDays: nat := 10

  function AhInRate(stance: Stance): real
  {
    [0.980, 0.990, 0.995][stance]
  }

  function AhOutRate(stance: Stance): real
  {
    [1.020, 1.010, 1.005][stance]
  }

  /** The top-price scan: climb from `top` through the newest-first opens
      while each is higher than the top so far. */
  function TopPrice(top: real, hs: seq<Bar>): (r: real)
    decreases |hs|
    ensures r >= top
    ensures r == top || exists k | 0 <= k < |hs| :: r == hs[k].open
    ensures hs != [] && hs[0].open > top ==> r >= hs[0].open
  {
    if hs == [] || !(hs[0].open > top) then top
    else
      var r := TopPrice(hs[0].open, hs[1..]);
      assert r == hs[0].open || exists k | 0 <= k < |hs| :: r == hs[k].open by {
        if r != hs[0].open {
          var k :| 0 <= k < |hs[1..]| && r == hs[1..][k].open;
          assert r == hs[k + 1].open;
        }
      }
      r
  }

  /** The price the last BUY was filled at, or the current price. */
  function PrevBuy(p: Position, orders: seq<Order>): (r: Option<real>)
    ensures LastBuyOrder(orders, p.symbol, p.accountId).Some? ==>
      r == Some(LastBuyOrder(orders, p.symbol, p.accountId).value.price)
    ensures LastBuyOrder(orders, p.symbol, p.accountId).None? ==> r == p.value
  {
    var o := LastBuyOrder(orders, p.symbol, p.accountId);
    if o.Some? then Some(o.value.price) else p.value
  }

  /** Ahnyung: sell a holding once the price is above the last purchase
      price by `out_rate`; buy from flat once the price is below the top of
      the recent climb by `in_rate`.  Needs at least one bar. */
  ghost function AhnyungDecision(p: Position, stance: Stance, history: seq<Bar>, orders: seq<Order>)
    : (r: Result<real>)
    ensures Shaped(p, r)
    ensures ForSymbol(history, p.symbol) == [] ==> NoTrade(r)
    ensures ForSymbol(history, p.symbol) != [] && p.value.None? ==> r == Raise(TypeError)
  {
    var hs := Recent(history, p.symbol, AhnyungDays);
    if ForSymbol(history, p.symbol) == [] then Ok(0.0)
    else if p.value.None? then Raise(TypeError)
    else if p.Held() then
      if p.value.value > PrevBuy(p, orders).value * AhOutRate(stance) then Ok(SellAll(p)) else Ok(0.0)
    else if TopPrice(p.value.value, hs) * AhInRate(stance) > p.value.value then BuyAll(p)
    else Ok(0.0)
  }

  /** A priced holding with history is sold exactly when its price is above
      the last purchase price times `out_rate`, and kept otherwise. */
  lemma AhnyungSells(p: Position, stance: Stance, history: seq<Bar>, orders: seq<Order>)
    requires ForSymbol(history, p.symbol) != [] && p.value.Some? && p.Held()
    ensures PrevBuy(p, orders).Some?
    ensures AhnyungDecision(p, stance, history, orders)
      == if p.value.value > PrevBuy(p, orders).value * AhOutRate(stance) then Ok(SellAll(p)) else Ok(0.0)
  {
  }

  /** A priced flat position with history is bought exactly when the top of
      the recent climb times `in_rate` is above its price. */
  lemma AhnyungBuys(p: Position, stance: Stance, history: seq<Bar>, orders: seq<Order>)
    requires ForSymbol(history, p.symbol) != [] && p.value.Some? && !p.Held()
    ensures AhnyungDecision(p, stance, history, orders)
      == if TopPrice(p.value.value, Recent(history, p.symbol, AhnyungDays)) * AhInRate(stance) > p.value.value
         then BuyAll(p) else Ok(0.0)
  {
  }

  /** From flat at a positive price, Ahnyung buys only when the newest
      bar's open is above the price: a price at or above the last open never
      triggers a purchase. */
  lemma AhnyungBuysOnDip(p: Position, stance: Stance, history: seq<Bar>, orders: seq<Order>)
    requires !p.Held() && p.value.Some? && p.value.value > 0.0 && ForSymbol(history, p.symbol) != []
    ensures var hs := Recent(history, p.symbol, AhnyungDays);
      hs != [] &&
      AhnyungDecision(p, stance, history, orders) ==
        if hs[0].open > p.value.value && TopPrice(p.value.value, hs) * AhInRate(stance) > p.value.value
        then BuyAll(p) else Ok(0.0)
  {
    var v := p.value.value;
    var hs := Recent(history, p.symbol, AhnyungDays);
    assert hs != [] by {
      assert |ForSymbol(history, p.symbol)| > 0;
    }
    if !(hs[0].open > v) {
      assert TopPrice(v, hs) == v;
      assert v * AhInRate(stance) < v;
    }
  }

  /** The source's top-price loop. */
  method ScanTop(price: real, hs: seq<Bar>) returns (top: real)
    ensures top == TopPrice(price, hs)
  {
    top := price;
    var i := 0;
    while i < |hs| && hs[i].open > top
      invariant 0 <= i <= |hs|
      invariant TopPrice(top, hs[i..]) == TopPrice(price, hs)
    {
      assert hs[i..][1..] == hs[i + 1..];
      top := hs[i].open;
      i := i + 1;
    }
  }

  method Ahnyung(p: Position, stance: Stance, history: seq<Bar>, orders: seq<Order>) returns (r: Result<real>)
    ensures r == AhnyungDecision(p, stance, history, orders)
  {
    var prevBuy := PrevBuy(p, orders);
    if ForSymbol(history, p.symbol) == [] {
      return Ok(0.0);
    }
    var hs := Recent(history, p.symbol, AhnyungDays);
    if p.value.None? {
      return Raise(TypeError);
    }
    if p.Held() {
      if p.value.value > prevBuy.value * AhOutRate(stance) {
        return Ok(SellAll(p));
      }
      return Ok(0.0);
    }
    var top := ScanTop(p.value.value, hs);
    if top * AhInRate(stance) > p.value.value {
      return BuyAll(p);
    }
    return Ok(0.0);
  }
}
