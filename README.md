# A paper-trading engine, modelled and proved in Dafny

The system is a small Django paper-trading engine. It has three layers.

- **Simulated broker.** It keeps accounts and their positions in memory. It prices each position from the SimHistory table. It fills or refuses market orders, charging a fixed fee of 6.95 per fill. It saves account state to a JSON configuration between sessions.
- **Trade decisions.** These are the "algorithms". Each one maps a position, a stance (conservative, moderate or aggressive), the daily bars of the DayHistory table and the order log to a signed quantity of shares.
- **Tick engine.** `run` trades every configured Stock row of every Account row once, logs each order, and stores the new counts, net values and day reports. `simulate` resets the tables and replays `run` for every calendar day covered by the SimHistory table. Before each day it marks the broker to market, and after it copies the day's bars into DayHistory.

The Dafny modules follow that structure.

| file | module | what it holds |
|---|---|---|
| wrappers.dfy | `Wrappers`, `PyNum` | `Option` and `Result` (a Python exception is a `Raise` value), and Python's `int()`, `abs`, `min` and `pow` on reals |
| market.dfy | `Market` | a daily bar. SimHistory and DayHistory as newest-first sequences with a unique (symbol, date) key. The ORM queries the core makes on them. |
| models.dfy | `Models` | the Order row, its actions, the stance constants, and the "last order" queries |
| ledger.dfy | `Ledger` | the classes `Quote`, `Stock` and `Account` of the simulated broker. Their fields are updated in place. |
| simclient.dfy | `SimClient` | the class `Client`, with the JSON configuration as a datatype value, `reset_sim_config`, and login/update/logout |
| algorithms.dfy | `Algorithms` | `buy_all`, `sell_all` and the public decisions Monkey, Fill, Empty, Hold, ConsecutiveUp, Ahnyung and Vertex. The in and out algorithm lists. |
| private_algorithms.dfy | `PrivateAlgorithms` | DTTT, TrendTrend, OpenClose, OCTrend, DayTrend, AggDT, AggTwo, RAvg and the private Ahnyung |
| store.dfy | `Store` | the class `Database`, whose fields are the tables the engine reads and writes. The load and store helpers of stock/main.py. |
| engine.dfy | `Engine` | `run` on the simulated-broker path, and `simulate` |

## How it is modelled

Plain functions stay functions. Loops over Python locals become methods with loop invariants. A method whose ensures says "this computes `SomethingDecision` / `SomethingRates`" is proved against a ghost function. The properties the code promises are proved as lemmas about that function or as its ensures.

The following are parameters:

- the US holiday calendar, as a set of day numbers;
- the random draw of Monkey, as a function of (date, account id, symbol);
- the stance of a private algorithm;
- the SimHistory table;
- dates, which are whole day numbers.

Prices, counts and cash are `real`.

Two behaviours of the source are easy to miss. The model keeps both.

- **Order ids on the simulated path.** `run` calls `get_order_id` and `store_quotes` only when no client is passed in (stock/main.py:185-206). As `simulate` calls it, every `run` therefore counts its order ids from 0. `store_order_id` then saves that day's count of orders, not a running counter.
- **Where `simulate` resets.** The reset (stock/main.py:288-298) happens before the date bounds are sought. A call that returns `False` for an empty range has still cleared the tables.

## Model

| member | source | states |
|---|---|---|
| PyNum.Trunc | stock/main.py:252-253 | `int()` of a float truncates toward zero: the result is within 1 of `x` and no farther from 0 than `x`, on both signs |
| PyNum.Abs | stock/main.py:96 | `abs` is non-negative and equals `x` or `-x` |
| PyNum.Min | stock/algorithms.py:37-39 | the budget `buy_all` uses is the smaller of the cash and the position budget |
| PyNum.Pow | stock/private_algorithms.py:502 | `pow(1 - a, times)` is positive for a positive base, and at most 1 for a base in [0, 1] |
| Market.ForSymbol | python_simtrade/stocks.py:34 | `filter(symbol=…)` keeps exactly the table's bars of that symbol |
| Market.OnOrBefore | python_simtrade/stocks.py:34 | `filter(date__lte=…)` keeps exactly the bars dated on or before the date |
| Market.ForSymbolOrdered | stock/algorithms.py:141 | `filter(symbol=…).order_by('-date')` of a keyed table is strictly newest first |
| Market.ForSymbolTable | stock/models.py:35-37 | filtering by symbol keeps the table newest first with a unique (symbol, date) key |
| Market.OnOrBeforeTable | stock/models.py:53-55 | filtering by date keeps the table newest first with a unique key |
| Market.LatestOnOrBefore | python_simtrade/stocks.py:33-36 | the query's first row exists iff some bar of the symbol is dated on or before the date; if it does, it is such a bar |
| Market.LatestOnOrBeforeIsLatest | python_simtrade/stocks.py:34 | on a keyed table, `[0]` of the date-descending query is the latest such bar |
| Market.EarliestDate | stock/main.py:300-306 | the earliest date at or after the optional bound is a date of the table and no later than any such date. It is None iff no bar qualifies. |
| Market.LatestDate | stock/main.py:311-317 | the latest date at or before the optional bound is a date of the table and no earlier than any such date. It is None iff no bar qualifies. |
| Market.Insert | stock/main.py:356-364 | saving a bar adds exactly that bar to the table |
| Market.InsertKeepsTable | stock/models.py:35-37 | saving a bar whose (symbol, date) is new keeps the table keyed and newest first, and the key is then present |
| Models.LastMatching | stock/algorithms.py:174-181 | `order_by('-dt')[0]` of a filtered Order query is a matching order no older than any other. It is None exactly when nothing matches (the IndexError path). |
| Models.LastBuyOrder | stock/algorithms.py:175-178 | the previous purchase is a BUY of that symbol by that account, no older than any other such BUY. It is None iff the account never bought the symbol. |
| Models.LastSymbolOrder | stock/private_algorithms.py:48-51 | the last order DTTT and TrendTrend consult is an order of the symbol, no older than any other order of it. It is None iff the symbol has no order. |
| Ledger.Quote.constructor | python_simtrade/stocks.py:27-30 | a new quote has no ask and no bid |
| Ledger.Quote.Update | python_simtrade/stocks.py:32-44 | it succeeds iff a bar of the symbol exists on or before the date. On success ask and bid are that bar's open; on failure nothing changes. |
| Ledger.MarketOrderEffect | python_simtrade/stocks.py:80-101 | (1) An invalid stock is refused, with its reason kept. (2) A sale exceeding the holding is refused with "not enough stock count". (3) A purchase whose notional exceeds the cash is refused with "not enough cash"; the fee is not part of this check. (4) A refusal changes neither count nor cash. (5) A fill adds `n` to the count, sets "success", and moves `n * price` plus the 6.95 fee out of cash. (6) A filled sale leaves the count non-negative, and a filled purchase leaves cash at least -6.95. |
| Ledger.Stock.constructor | python_simtrade/stocks.py:48-62 | a new position is valid and unpriced, with count 0 and reason "success". It trades fractions iff its symbol is "BTC". |
| Ledger.Stock.Update | python_simtrade/stocks.py:64-75 | the price becomes the open of the latest bar on or before the date, when there is one. Otherwise `valid` becomes false and the price is kept. `valid` is never set back to true. |
| Ledger.Stock.MarketOrder | python_simtrade/stocks.py:80-101 | the new count, cash and reason, and the result, are `MarketOrderEffect` of the old state |
| Ledger.Stock.TotalValue | python_simtrade/stocks.py:103-114 | None iff the stock is invalid or unpriced; otherwise count times price |
| Ledger.HoldingsOf | python_simtrade/client.py:109-113 | the (symbol, count) pairs of the position list, in order |
| Ledger.UpdatedMark | python_simtrade/accounts.py:35-40 | a position contributes `value * count` to the net value when its update succeeded, and nothing when it failed |
| Ledger.EmptyHoldingsWorthNothing | python_simtrade/accounts.py:35-40 | flat positions add nothing to the net value |
| Ledger.HoldingsValueNonNegative | python_simtrade/accounts.py:35-40 | with non-negative prices and counts, the holdings are worth at least 0 |
| Ledger.FirstWithSymbol | python_simtrade/accounts.py:50-55 | the first position whose symbol matches; null iff none matches |
| Ledger.Account.constructor | python_simtrade/accounts.py:23-29 | a new account is in setup mode with no positions, no cash and no net value |
| Ledger.Account.Update | python_simtrade/accounts.py:31-48 | `dt` is replaced only when a date is given. Every position is priced as of the account's date. The net value is the cash plus the value of the positions whose update succeeded. A position is valid afterwards iff it was valid before and has a bar on or before the date. A position with no such bar keeps its price. |
| Ledger.Reprice | python_simtrade/accounts.py:35-40 | the loop of `update`: the sum it returns is the holdings marked as of the date. Every position is priced; its validity and, when it has no bar, its price change as in `Account.Update`. |
| Ledger.Account.GetStock | python_simtrade/accounts.py:50-55 | the search loop returns the first position with the symbol, or null |
| Ledger.Account.NewStock | python_simtrade/accounts.py:57-64 | when no bar resolves, it returns null and leaves the list unchanged. Otherwise it appends exactly one fresh, priced position of the symbol, with count 0, and returns it. |
| SimClient.ResetSimConfig | python_simtrade/client.py:29-45 | exactly 10 accounts with ids 0..9, each with cash 100000.0, no positions and no net value |
| SimClient.FromJson | python_simtrade/client.py:74-80 | the JSON positions read in order, symbol and count |
| SimClient.ToJson | python_simtrade/client.py:109-113 | the positions written in order, symbol and count |
| SimClient.HoldingsRoundTrip | python_simtrade/client.py:74-80 | reading back written positions gives the same positions |
| SimClient.JsonRoundTrip | python_simtrade/client.py:109-113 | writing read positions gives the same JSON |
| SimClient.ById | python_simtrade/client.py:67-80 | the account map login builds is keyed by each entry's id |
| SimClient.ById_IsLastEntry | python_simtrade/client.py:67-80 | an id is in the map iff some entry has it, and then it maps to the last such entry (a later entry overwrites) |
| SimClient.NewKeysSpec | python_simtrade/client.py:67-80 | the ids login adds to the dictionary's insertion order are new, come from the entries, cover every new id, and are listed once each |
| SimClient.HoldingsAgree | python_simtrade/client.py:109-113 | logout's loop over the positions writes the same pairs as `HoldingsOf` |
| SimClient.WriteEntry | python_simtrade/client.py:104-113 | the written entry keeps the account's id, cash and ordered positions |
| SimClient.Written | python_simtrade/client.py:101-103 | the written net value is the cash plus the positions marked as of the account's date |
| SimClient.LogoutLoginRoundTrip | python_simtrade/client.py:67-113 | reading back what logout wrote gives the same id, cash and ordered (symbol, count) list. The mode is not saved and comes back as setup (python_simtrade/accounts.py:28). |
| SimClient.AddPosition | python_simtrade/client.py:75-80 | appends one fresh position with the entry's symbol and count |
| SimClient.NewAccount | python_simtrade/client.py:68-80 | a fresh account in setup mode with the entry's id and cash, and exactly the entry's positions |
| SimClient.LoadAccount | python_simtrade/client.py:68-80 | the account is the entry's (id, cash, setup mode, ordered positions), marked to market as of the login date |
| SimClient.StocksJson | python_simtrade/client.py:109-113 | the JSON positions are the account's positions, in order |
| SimClient.WriteAccount | python_simtrade/client.py:100-113 | the entry logout writes is `Written` of the account's state before the update, and the account's date is kept |
| SimClient.LoadAll | python_simtrade/client.py:67-80 | one fresh account per distinct id, loaded from that id's last entry |
| SimClient.Client.constructor | python_simtrade/client.py:49-52 | no time, no configuration, no accounts |
| SimClient.Client.Login | python_simtrade/client.py:54-81 | the configuration is the file, or an empty one when the file is missing (58-63). The time is set. Every configured account is rebuilt from its entry and marked as of the date. Accounts not in the file are kept, and ids are added to the insertion order as a dict does. |
| SimClient.Client.File | python_simtrade/client.py:67-80 | the loaded accounts are added to the dictionary and the new ids to its insertion order |
| SimClient.Client.Update | python_simtrade/client.py:83-88 | the time is set, and every account is marked to market as of `dt`. The set of positions is unchanged. A position is valid afterwards iff it was valid before and has a bar on or before `dt`. A position with no such bar keeps its price. |
| SimClient.Client.MarkInOrder | python_simtrade/client.py:85-88 | the loop of `update`: every account ends marked. A position only loses its validity, keeps it when it has a bar, and keeps its price when it has none. |
| SimClient.Client.MarkedInvalid | python_simtrade/client.py:85-88 | once every account is marked as of `dt`, no position without a bar on or before `dt` is valid |
| SimClient.Client.PositionsKept | python_simtrade/client.py:85-88 | the set of positions stays the same while no account and no position list is replaced |
| SimClient.Client.MarkAccount | python_simtrade/client.py:86-88 | one step of update's loop: accounts earlier in insertion order stay marked, and this one becomes marked. Its positions change validity and price as in `Account.Update`. |
| SimClient.Client.Logout | python_simtrade/client.py:93-116 | (1) Without a configuration it raises TypeError after setting an empty one (`old_config['accounts']` on None). (2) Otherwise it succeeds iff every configured id has an account, and raises KeyError (`get_account`) when one does not. (3) On success the new configuration has one entry per old one, in order, each `Written` from the account's state before logout. (4) No account's date changes. |
| SimClient.Client.WriteEntries | python_simtrade/client.py:98-113 | logout's loop: the entries written so far are `Written` from the accounts' prior state, and it stops exactly at the first id with no account |
| SimClient.Client.GetAccount | python_simtrade/client.py:118-119 | the account of the id, or KeyError iff the id is unknown |
| SimClient.Client.GetQuote | python_simtrade/client.py:121-128 | AttributeError iff no current time is set (`cur_time.date()` on None, python_simtrade/stocks.py:34). Otherwise null iff no bar of the symbol exists on or before the current time, and else a fresh quote at that bar's open. |
| Algorithms.BuyAll | stock/algorithms.py:36-41 | `min(cash, budget) / value`. TypeError when unpriced, ZeroDivisionError at price 0. |
| Algorithms.BuyAllAffordable | stock/algorithms.py:36-41 | at a positive price the purchase is within both cash and budget. Truncated, it still passes the cash check of `market_order` (python_simtrade/stocks.py:88). |
| Algorithms.SellAll | stock/algorithms.py:44-45 | the sale empties the position |
| Algorithms.Monkey | stock/algorithms.py:66-77 | above a 0.85 draw it buys all when flat and sells all when holding; otherwise nothing |
| Algorithms.TotalValue | python_simtrade/stocks.py:103-114 | `get_total_value` on a position: None iff invalid or unpriced, else count times price |
| Algorithms.Fill | stock/algorithms.py:87-97 | nothing without a total value, ZeroDivisionError at price 0. Otherwise the order brings the position's value exactly to its budget. |
| Algorithms.FillWhenFlat | stock/algorithms.py:87-97 | from flat, Fill buys `budget / value` |
| Algorithms.Empty | stock/algorithms.py:105-109 | sells the whole holding; nothing iff flat |
| Algorithms.Recent | stock/algorithms.py:141 | the `[0:n]` slice: at most `n` bars, a prefix of the symbol's bars, and all of them when there are fewer than `n` |
| Algorithms.RecentOrdered | stock/algorithms.py:141 | that slice holds only the symbol's bars, strictly newest first |
| Algorithms.OpensNeverFallSpan | stock/algorithms.py:147-149 | checking each adjacent pair means no newer open is below any older one |
| Algorithms.ConsecutiveUpDecision | stock/algorithms.py:133-151 | only nothing or `buy_all`, and a trade only when flat |
| Algorithms.ConsecutiveUpBuysOnRise | stock/algorithms.py:143-151 | a trade happens only with the full `consecutive_up` bars and opens that never fall |
| Algorithms.ConsecutiveUpRiseBuys | stock/algorithms.py:143-151 | conversely, a flat position with the full window of opens that never fall is bought with `buy_all`. When it has a non-zero price, that is the budget divided by the price. |
| Algorithms.ConsecutiveUp | stock/algorithms.py:133-151 | the comparison loop computes `ConsecutiveUpDecision` |
| Algorithms.Ahnyung | stock/algorithms.py:165-191 | nothing when flat or with no earlier BUY. TypeError when unpriced. Otherwise it sells all iff `price * out_rate < value` or `price * emergency_rate > value`. |
| Algorithms.VertexDecision | stock/algorithms.py:205-234 | only nothing, `buy_all` or selling everything. Its rates are the telescoped sums of the loop: `old_rate` is the newest open minus the oldest, `new_rate` the price minus the oldest open. |
| Algorithms.Vertex | stock/algorithms.py:205-234 | the loop that adds up the day-over-day changes of the window's opens into `old_rate` and `new_rate` computes `VertexDecision`, so the sums telescope to its closed forms |
| Algorithms.GetInAlgorithm | stock/main.py:156-162 | None iff the index is past the in list; never Empty or Ahnyung |
| Algorithms.GetOutAlgorithm | stock/main.py:165-171 | None iff the index is past the out list; never Fill or ConsecutiveUp |
| Algorithms.Decision | stock/algorithms.py:48-237 | every decision except Fill is nothing, `buy_all`, an exception, or the whole holding sold. Hold never trades. |
| Algorithms.Decide | stock/main.py:250 | `alg.trade_decision(stock)` computes `Decision` |
| PrivateAlgorithms.PrefixHolds | stock/private_algorithms.py:96-99 | it holds iff the first `k` rates pass. It raises IndexError iff fewer than `k` rates were collected and all of them pass. |
| PrivateAlgorithms.TrendStep | stock/private_algorithms.py:150-167 | equal closes change nothing. A bottom is recorded only on a higher close that ends a down run of at least `down_count`. A peak is recorded only on a lower close that ends an up run of at least `up_count`. On a lower close the run restarts only after `up_count` days. |
| PrivateAlgorithms.TrendScanRecords | stock/private_algorithms.py:150-167 | every recorded peak closed above the next-newer bar, and every recorded bottom closed below it |
| PrivateAlgorithms.TrendScanNewestFirst | stock/private_algorithms.py:150-167 | peaks and bottoms are recorded from the window, strictly newest first |
| PrivateAlgorithms.ScanTrend | stock/private_algorithms.py:145-167 | the scan loop computes `TrendScan` over the first 14 adjacent pairs |
| PrivateAlgorithms.TrendTrendRule | stock/private_algorithms.py:169-195 | from flat it buys all iff the buy signal holds, and holding it sells all iff the sell signal holds |
| PrivateAlgorithms.TrendTrendDecision | stock/private_algorithms.py:130-195 | nothing with fewer than 15 bars; only nothing, `buy_all` or selling everything |
| PrivateAlgorithms.TrendTrend | stock/private_algorithms.py:130-195 | the method computes `TrendTrendDecision` |
| PrivateAlgorithms.DtttStep | stock/private_algorithms.py:74-93 | a day without a range (`high - low <= 0`) is skipped; any other day is the TrendTrend step with `ud_count` both ways |
| PrivateAlgorithms.DtttRates | stock/private_algorithms.py:74-78 | at most one rate per scanned day |
| PrivateAlgorithms.DtttRatesInUnit | stock/private_algorithms.py:74-76 | for bars whose close lies within [low, high], every rate is in [0, 1] |
| PrivateAlgorithms.ScanDttt | stock/private_algorithms.py:65-93 | the loop computes `DtttTrend` and `DtttRates` |
| PrivateAlgorithms.DtttRule | stock/private_algorithms.py:95-116 | (1) From flat it buys iff the first `days` rates reach `buy_rate`, raising IndexError when too few rates were collected. (2) Holding with more than `peak_count` peaks, it sells iff the second peak is newer than the last order and the peaks fall. (3) Holding with fewer peaks, it sells iff the newest close fell. |
| PrivateAlgorithms.DtttWindow | stock/private_algorithms.py:60-116 | only nothing, `buy_all`, an exception or selling everything |
| PrivateAlgorithms.DtttAsWritten | stock/private_algorithms.py:47-116 | DTTT as written, with `peak_count` read from `ud_count` (line 61): only nothing, `buy_all`, an exception or selling everything |
| PrivateAlgorithms.DtttDecision | stock/private_algorithms.py:47-116 | DTTT with `peak_count` read from the table: nothing with fewer than 30 bars; only the four outcomes |
| PrivateAlgorithms.DtttPeakSell | stock/private_algorithms.py:103-114 | a sale by the corrected DTTT needs the full window, and either `peak_count` falling peaks or a falling newest close |
| PrivateAlgorithms.PeakWindow | stock/private_algorithms.py:53-57 | the counterexample window has the 30 bars DTTT needs |
| PrivateAlgorithms.DtttPeakCountMisread | stock/private_algorithms.py:61 | on that window, a conservative holder of 5 shares sells everything as written (`peak_count` is 2), and holds with the table's `peak_count` of 3 |
| PrivateAlgorithms.Dttt | stock/private_algorithms.py:47-116 | the method computes `DtttDecision`, the corrected DTTT that reads `peak_count` from its own entry (see Findings) |
| PrivateAlgorithms.BodyRates | stock/private_algorithms.py:219-225 | at most one rate per bar; days with `high == low` are excluded |
| PrivateAlgorithms.BodyRatesInUnit | stock/private_algorithms.py:219-225 | for bars whose open and close lie within [low, high], every rate is in [-1, 1] |
| PrivateAlgorithms.CollectBodyRates | stock/private_algorithms.py:219-225 | the append loop computes `BodyRates` |
| PrivateAlgorithms.OpenCloseRule | stock/private_algorithms.py:227-247 | from flat it buys iff the first `up_repeat` rates are non-negative and meaningful. Holding, it sells iff the first `down_repeat` rates are non-positive and meaningful. IndexError when too few rates. |
| PrivateAlgorithms.OpenCloseDecision | stock/private_algorithms.py:209-247 | only nothing, `buy_all`, an exception or selling everything |
| PrivateAlgorithms.OpenClose | stock/private_algorithms.py:209-247 | the method computes `OpenCloseDecision` |
| PrivateAlgorithms.OcTrendRule | stock/private_algorithms.py:282-302 | from flat it buys only when `rates[0] > 0` and the next `prev_down_count` rates are `<= 0`. Holding, it sells only when `rates[0] < 0` and the first `monitor_count` rates are `<= 0`. IndexError when rates run out. |
| PrivateAlgorithms.OcTrendDecision | stock/private_algorithms.py:261-302 | only nothing, `buy_all`, an exception or selling everything |
| PrivateAlgorithms.OcTrend | stock/private_algorithms.py:261-302 | the method computes `OcTrendDecision` |
| PrivateAlgorithms.CloseRates | stock/private_algorithms.py:331-334 | one rate per bar: the close's distance from the bar's centre, relative to the low |
| PrivateAlgorithms.CollectCloseRates | stock/private_algorithms.py:331-334 | the loop computes `CloseRates`, or raises ZeroDivisionError when some low is 0 |
| PrivateAlgorithms.AllRatesRule | stock/private_algorithms.py:338-352 | from flat it buys iff every rate is above `buy_rate`, and holding it sells iff every rate is below `sell_rate` |
| PrivateAlgorithms.DayTrendDecision | stock/private_algorithms.py:315-352 | nothing with fewer than `days` bars; only the four outcomes |
| PrivateAlgorithms.DayTrend | stock/private_algorithms.py:315-352 | the method computes `DayTrendDecision` |
| PrivateAlgorithms.AggressiveRule | stock/private_algorithms.py:388-409 | from flat, `rates[0] >= one_buy_rate` forces a buy. Holding, `rates[0] <= one_sell_rate` forces a sale. Otherwise the all-rates rule applies. |
| PrivateAlgorithms.AggDtDecision | stock/private_algorithms.py:365-409 | only nothing, `buy_all`, an exception or selling everything |
| PrivateAlgorithms.AggDt | stock/private_algorithms.py:365-409 | the method computes `AggDtDecision` |
| PrivateAlgorithms.OpenRates | stock/private_algorithms.py:431-442 | the first rate is the current price against yesterday's bar; each later one is a day's open against the next-older bar |
| PrivateAlgorithms.CollectOpenRates | stock/private_algorithms.py:431-442 | the loop computes `OpenRates`. TypeError when unpriced, ZeroDivisionError when some low is 0. |
| PrivateAlgorithms.AppendOpenRates | stock/private_algorithms.py:437-442 | the loop keeps the first rate and appends one open rate per older bar |
| PrivateAlgorithms.AggTwoDecision | stock/private_algorithms.py:415-467 | only nothing, `buy_all`, an exception or selling everything |
| PrivateAlgorithms.AggTwo | stock/private_algorithms.py:415-467 | the method computes `AggTwoDecision` |
| PrivateAlgorithms.Weight | stock/private_algorithms.py:494-502 | every weight `0.95^k` lies in (0, 1] |
| PrivateAlgorithms.WeightSum | stock/private_algorithms.py:496-500 | the weight sum is non-negative, and at least 1 once a bar is counted |
| PrivateAlgorithms.WeightedOpensAbove | stock/private_algorithms.py:492-504 | opens all at least `floor` give a weighted total of at least `floor` times the weight sum |
| PrivateAlgorithms.WeightedOpensBelow | stock/private_algorithms.py:492-504 | opens all at most `ceiling` give a weighted total of at most `ceiling` times the weight sum |
| PrivateAlgorithms.RAvgRule | stock/private_algorithms.py:504-520 | from flat it buys iff the weighted average reaches the oldest open, and holding it sells iff the average does not exceed it |
| PrivateAlgorithms.RAvgWindow | stock/private_algorithms.py:492-520 | only nothing, `buy_all` or selling everything |
| PrivateAlgorithms.RAvgDecision | stock/private_algorithms.py:480-520 | only nothing, `buy_all`, an exception or selling everything |
| PrivateAlgorithms.RAvgBuysOnRise | stock/private_algorithms.py:492-513 | a flat position buys when no open of the window is below the oldest |
| PrivateAlgorithms.RAvgSellsOnFall | stock/private_algorithms.py:492-520 | a held position sells when no open of the window is above the oldest |
| PrivateAlgorithms.WeighOpens | stock/private_algorithms.py:492-502 | the loop computes the weighted total and the weight sum |
| PrivateAlgorithms.RAvg | stock/private_algorithms.py:480-520 | the method computes `RAvgDecision` |
| PrivateAlgorithms.TopPrice | stock/private_algorithms.py:803-808 | the top price is at least the current price. It is the current price or one of the window's opens, and at least the newest open when that open is higher. |
| PrivateAlgorithms.PrevBuy | stock/private_algorithms.py:780-787 | the price of the account's last BUY of the symbol, or the current price when there is none |
| PrivateAlgorithms.AhnyungDecision | stock/private_algorithms.py:774-816 | the outcome is one of the four shapes. Nothing is traded without history, and an unpriced position raises TypeError. |
| PrivateAlgorithms.AhnyungSells | stock/private_algorithms.py:780-801 | a priced holding with history has a last purchase price, and is sold iff `value > prev_buy * out_rate` |
| PrivateAlgorithms.AhnyungBuys | stock/private_algorithms.py:803-816 | a priced flat position with history is bought iff `top_price * in_rate > value` |
| PrivateAlgorithms.AhnyungBuysOnDip | stock/private_algorithms.py:803-816 | from flat at a positive price, it buys only when the newest open exceeds the price and the top price times `in_rate` still does |
| PrivateAlgorithms.ScanTop | stock/private_algorithms.py:803-808 | the scan loop computes `TopPrice` |
| PrivateAlgorithms.Ahnyung | stock/private_algorithms.py:774-816 | the method computes `AhnyungDecision` |
| Store.Symbols | stock/main.py:342-344 | the symbols of the Stock rows, in order |
| Store.Deduplicated | stock/main.py:340-344 | each symbol once, and exactly the symbols of the rows |
| Store.SymbolList | stock/main.py:340-344 | the collecting loop computes `Deduplicated` |
| Store.Without | stock/main.py:71-73 | deleting keeps exactly the rows not matched |
| Store.Delete | stock/main.py:72-73 | the delete loop computes `Without` |
| Store.Replace | stock/main.py:70-80 | after delete-then-save, the saved row is the only one with its key, and every row with another key stays |
| Store.ActionOf | stock/main.py:99-106 | BUY iff a purchase not failed, BUY_FAIL iff a failed purchase, SELL iff a sale not failed, and otherwise SELL_FAIL. An action is a failure iff the trade failed (or the decision was 0). |
| Store.OrderRowRecordsDecision | stock/main.py:92-106 | the stored count is the decision's magnitude and the action's side its sign, so the signed decision and the failure flag can be read back |
| Store.CounterSet | stock/main.py:146-153 | `store_order_id` overwrites the first counter row or creates it, leaving any other row as it was |
| Store.CounterRoundTrip | stock/main.py:132-153 | reading a stored counter gives the stored id, and a second store overwrites the first |
| Store.Loaded | stock/main.py:51-60 | budget is net value times share. The algorithms and stances are copied. `last_count` is the row's, or 0.0 when None. Count and reason are kept. |
| Store.StoredThenLoaded | stock/main.py:51-67 | loading from a row just stored gives back its `last_count` |
| Store.LoadDbStock | stock/main.py:51-60 | the position's settings become `Loaded` of the row |
| Store.QuotesStoredKeep | stock/main.py:116-129 | storing a round of quotes never loses a cached quote row |
| Store.QuotesStoredCache | stock/main.py:116-129 | after the round, each listed symbol with a bar has exactly one quote row for `dt`, at that bar's open |
| Store.SimWindowHead | stock/main.py:347-349 | the copied window is empty iff no bar resolves, and starts with the latest bar on or before the date |
| Store.FilteredHead | stock/main.py:347 | the date-filtered, symbol-filtered table starts with the latest bar on or before the date |
| Store.CopyUntilPresent | stock/main.py:351-364 | copying keeps every existing row and adds only bars of the window |
| Store.KeyKept | stock/main.py:351-364 | a key present before the copy is still present |
| Store.CopyUntilPresentTable | stock/main.py:351-364 | copying keeps DayHistory keyed and newest first, and the newest bar of the window ends up present |
| Store.HistoryLoaded | stock/main.py:339-364 | loading keeps every existing DayHistory row |
| Store.HistoryLoadedNewest | stock/main.py:339-364 | afterwards DayHistory is still keyed, and holds every symbol's latest bar on or before the date |
| Store.Zeroed | stock/main.py:293-298 | a Stock row of a listed account gets count 0, and nothing else changes |
| Store.Database.Restore | stock/main.py:174 | the rollback of `@transaction.atomic` puts back the saved tables |
| Store.Database.StoreDbAccount | stock/main.py:45-48 | only the account row's net value and cash change, to the account's |
| Store.Database.ResetForSimulation | stock/main.py:288-298 | the Order, Quote, DayReport and DayHistory tables are cleared, and every Stock row of an account gets count 0 |
| Store.Database.StoreDbStock | stock/main.py:63-67 | only the row's count and `last_count` change, to the position's |
| Store.Database.StoreDayReport | stock/main.py:70-80 | afterwards the report for (account, date) is the only one with that key, and holds the given net value and cash |
| Store.Database.StoreOrder | stock/main.py:83-107 | (1) The failure reason is added to the reasons table when new. (2) One order row is appended with the position's symbol, account, price and `ActionOf` class. (3) An unpriced position's row is refused (IntegrityError). |
| Store.Database.StoreQuotes | stock/main.py:110-129 | with no current time on the client and at least one symbol, the first `get_quote` raises AttributeError and the table is unchanged. Otherwise the Quote table becomes `QuotesStored` over the de-duplicated symbols. |
| Store.Database.GetOrderId | stock/main.py:132-143 | it creates the counter at 500 when absent and returns the first row's id |
| Store.Database.StoreOrderId | stock/main.py:146-153 | the counter becomes `CounterSet` of the id |
| Store.Database.LoadHistorySim | stock/main.py:339-364 | DayHistory becomes `HistoryLoaded` of the deduplicated symbols |
| Store.Database.CopyBars | stock/main.py:351-364 | the copy loop computes `CopyUntilPresent` |
| Engine.SelectAlgorithm | stock/main.py:240-247 | a held position gets the out algorithm of its index, and a flat one the in algorithm. None iff the index is past the list. A held position is never offered Fill or ConsecutiveUp, and a flat one never Empty or Ahnyung. |
| Engine.OrderAmount | stock/main.py:252-253 | fractions are kept for float symbols. Otherwise the order is a whole number, truncated toward zero, within 1 of the decision and of the same sign. |
| Engine.OrderAmountWhole | stock/main.py:252-253 | truncation leaves whole decisions unchanged |
| Engine.MarkedQuoted | python_simtrade/accounts.py:35-40 | after an account is marked, every valid position has a price |
| Engine.Trade | stock/main.py:250-270 | (1) An exception of the decision is passed on. (2) A zero order changes nothing and uses no id. (3) A non-zero order snapshots `last_count`, applies `MarketOrderEffect`, uses one id, sets a sticky failure flag, and appends one `OrderRow`. (4) The Stock row is stored. |
| Engine.PlaceOrder | stock/main.py:257-268 | one non-zero order: `last_count` is the pre-trade count. The order fills as `MarketOrderEffect` says. Exactly one id is used and one row appended, failed when this or an earlier order of the account failed. |
| Engine.Locate | stock/main.py:231-238 | (1) An existing position of the symbol is reused. (2) Otherwise a new one is created iff the symbol has a bar. (3) The result is configured from the row. |
| Engine.TradeStock | stock/main.py:240-270 | the algorithm is chosen by the count. An index past the list skips the row with no order. A trade adds at most one order row of the account and day. |
| Engine.RunStock | stock/main.py:224-270 | (1) A holiday skips non-BTC rows. (2) The algorithm is chosen by the count held before the trade. (3) Only this row of the Stock table can change. (4) At most one order of the account and day is logged. |
| Engine.StickyLastFailed | stock/main.py:261-268 | with a sticky log (`trade_failed`, set False once per account at line 223), the last order failed iff some order of the account's tick failed |
| Engine.RunPositions | stock/main.py:223-270 | (1) Only the account's Stock rows change. (2) Each order uses exactly one id. (3) Every order is dated `dt` and charged to the account. (4) Failures are sticky, and the flag is set iff the last order failed. |
| Engine.Settle | stock/main.py:274-276 | the account is re-marked at its own date. Its cash, its positions and their counts are kept. A position stays valid iff it has a bar, and keeps its price when it has none. Its row stores its net value and cash. Its day report is replaced with them. |
| Engine.RunAccount | stock/main.py:219-276 | setup becomes run iff no order of the account failed, and run never reverts. The account's rows and report hold its new net value and cash, and its orders are sticky. |
| Engine.RunRow | stock/main.py:214-276 | the account rows before and including this one are settled, and the orders added are dated `dt`. The rows keep their account ids, and the reports of other dates are kept. |
| Engine.RunRows | stock/main.py:184-276 | every Account row is settled. Each order uses one id, and all are dated `dt`. The rows keep their account ids, and the reports of other dates are kept. |
| Engine.Run | stock/main.py:174-284 | (1) On an exception, every table is rolled back. (2) On success it returns true. (3) Every account row is settled, orders are only appended and are dated `dt`, and the counter stores the tick's order count. (4) Quotes and history are untouched on this path. (5) The Account rows keep their ids, and the day reports of other dates are kept. |
| Engine.SimDays | stock/main.py:300-320 | (1) IndexError iff no start is given and SimHistory is empty. (2) False iff the bounds exclude every bar. (3) Otherwise the replay runs from the earliest bar date at or after the start to the latest bar date at or before the end. |
| Engine.MoveBroker | stock/main.py:329 | every account is marked as of the day, so every valid position is priced. No positions are added. A position stays valid iff it has a bar on or before the day, and keeps its price when it has none. Nothing but the time, the accounts' dates and net values, and the positions' prices and validity changes. |
| Engine.SimulateDay | stock/main.py:329-331 | the day's orders are dated that day, and DayHistory then holds every symbol's latest bar up to it. Every Account row has a report of the day, the rows keep their ids, and reports of other days are kept. |
| Engine.ReplayDays | stock/main.py:327-332 | every day from first to last is run, weekends included, leaving `Replayed` through the last day: valid client and database, no cached quotes, orders dated within the range, DayHistory loaded up to the last day, and a day report of every Account row for every day of the range. A day that raises stops the loop with client and database still valid. |
| Engine.ReplayDay | stock/main.py:327-332 | one day of the loop keeps the loop's invariant, advanced by a day |
| Engine.ReportedThrough | stock/main.py:327-332 | a day's reports for every account, added to the reports of the earlier days while those are kept, give a report of every account for every day through that one |
| Engine.OrdersDatedThrough | stock/main.py:327-332 | orders of earlier days plus those of `cur` are dated within [first, cur] |
| Engine.StartBroker | stock/main.py:324-326 | the broker starts from the reset configuration, with fresh accounts and positions |
| Engine.PositionsFresh | stock/main.py:325-326 | positions of freshly loaded accounts are fresh |
| Engine.FinishBroker | stock/main.py:334 | the written configuration lists the 10 simulated accounts, ids 0..9 |
| Engine.Simulate | stock/main.py:287-336 | (1) The tables are reset even when the range is empty or raises. (2) IndexError or False follow `SimDays`. (3) If a day raises, the reset configuration is left in the file. (4) On success the written configuration lists the 10 accounts, every order is dated within the range, and DayHistory is loaded up to the last day. (5) On success every Account row has a day report for every day from the first to the last bar date, weekends included. |
| Engine.SimulateRange | stock/main.py:324-334 | the replay of a known range, with the same promises as `Simulate` on success, including a day report of every account for every day of the range |

## Left out

- The live-broker branch of `run` (stock/main.py:185-212) and the E*TRADE and Coinbase clients are not modelled. They are network calls. Only the path where `simulate` passes the simulated client in is modelled, so `get_order_id` and `store_quotes` are modelled but `run` does not call them.
- The holiday calendar (`holidays.UnitedStates()`, is_holiday.py) is a parameter set of day numbers.
- Time zones, the clock (`timezone.now()`) and the time of day are not modelled: dates are day numbers.
- The JSON file reads and writes of the simulated client are not modelled. The file is an `Option<Config>` value passed to login and returned by logout.
- Logging and `print` are left out.
- `random.random()` in Monkey is a parameter (`draw`).
- Floating point is modelled as exact `real` arithmetic: rounding is not modelled. The fee is 6.95 exactly.
- The ML algorithm and DayTradeAlgorithm are left out. ML depends on TensorFlow; DayTrade always raises by subscripting a float.
- `private_algorithm_list` is left out, because stock/main.py never reads it. The private algorithms are separate methods and are not in `Decide`.
- The history downloads, CSV parsing and symbol loaders (python_simtrade/load_history.py, stock/load_history.py, stock/main.py:366-473) are left out. They are network and file I/O.
- The web layer (views, forms, urls, admin) is left out.
- `load_db_account` is not modelled because its body is `pass`.
- The `account is None` branch in `run` (stock/main.py:215-217) cannot fire: `get_account` raises KeyError rather than returning None. That KeyError is modelled instead.
- `store_db_stock` also sets `db_stock.value`, but the Stock table has no such column. The price is therefore not stored.
- The `decision > 0` / `decision < 0` branches of `run` (stock/main.py:260-265) call the same order. They are modelled as one call.
- `@transaction.atomic` is modelled as a snapshot and restore of the database tables only. The in-memory client objects the failed tick changed are not rolled back.
- Order's uniqueness constraints beyond the (symbol, date) keys of Quote, DayHistory and SimHistory are not modelled. The only IntegrityError modelled is a NULL price of an unpriced position.
- `Engine.Run` requires every valid position of every account to be priced (`AllQuoted`). `simulate` establishes this by marking the broker before each `run`. A caller that passes a client whose positions are valid but unpriced is outside the model.
- Ledger.Account.constructor: cash and net value start at 0.0, not None. Login sets the cash at once, and the net value is computed before it is read.
- Ledger.Stock.constructor: the count starts at 0.0, not None. `new_stock` sets it to 0 and login to the configured count before it is read.
- The stance of the private algorithms is a parameter, because `load_db_stock` never sets `stock.stance`.
- Negative algorithm indices are not modelled. `in_algorithm`, `out_algorithm` and the argument of Algorithms.GetInAlgorithm and Algorithms.GetOutAlgorithm are `nat`. The `choices` of the IntegerFields (stock/models.py:145,147) are not enforced by the database, so a negative index is possible. Python then picks from the end of the list (stock/main.py:157-158), and an index below -5 raises IndexError.
- Stance values outside 0..2 are not modelled: `Stance` is the subset type 0..2 (models.dfy). The database does not enforce the choices of `in_stance` and `out_stance` (stock/models.py:146,148). With another value the stance tables would wrap for -3..-1 and raise IndexError otherwise.
- Algorithms.VertexDecision: its ensures states only the outcome shape. The sell and buy conditions are its body, the telescoped closed form that the method `Vertex` is proved to compute from the loop.
- PrivateAlgorithms.OpenCloseDecision, PrivateAlgorithms.OcTrendDecision, PrivateAlgorithms.AggDtDecision, PrivateAlgorithms.AggTwoDecision, PrivateAlgorithms.RAvgDecision: each states the outcome shape. The full rule is stated by the rule function it applies: `OpenCloseRule`, `OcTrendRule`, `AggressiveRule`, `RAvgRule`.
- Engine.FinishBroker and Engine.Simulate state only the ids of the written configuration. Each entry's content is stated by `SimClient.Client.Logout`, which they call.

## Findings

| source | as written | input that shows it | evidently intended | confidence | as-written member | corrected member |
|---|---|---|---|---|---|---|
| stock/private_algorithms.py:61 | `peak_count` is read from the `ud_count` entry, so every stance needs one falling peak fewer: the conservative and moderate stances need 2 instead of 3, and the aggressive stance 1 instead of 2 | `PeakWindow()`: 30 bars on which the scan records exactly three peaks, with closes 6, 9 and 10 newest first, and whose newest close rose. A conservative position holds 5 shares and has no earlier order. DTTT as written sells all 5. | read `peak_count` from the `peak_count` entry (3, 3 and 2 by stance, lines 38-40): the same position holds | not executed | PrivateAlgorithms.DtttAsWritten, PrivateAlgorithms.DtttPeakCountMisread | PrivateAlgorithms.DtttDecision, PrivateAlgorithms.DtttPeakSell |
