/** The simulated broker client (python_simtrade/client.py): the account
    configuration it loads at login and writes back at logout, and the
    accounts it keeps between the two.  The JSON file is a value of type
    Config; reading it is a parameter of Login and writing it is Logout's
    result. */
module SimClient {
  import opened Wrappers
  import opened Market
  import opened Ledger

  /** SIM_INITIAL_VALUE: the cash each account of a reset configuration holds. */
  const SimInitialValue: real := 100000.0

  datatype JsonStock = JsonStock(symbol: Symbol, count: real)

  /** One entry of the file's `accounts` list.  `net_value` is only written by
      logout; a reset configuration has none. */
  datatype JsonAccount = JsonAccount(id: int, cashToTrade: real, netValue: Option<real>,
                                     stocks: seq<JsonStock>)

  datatype Config = Config(accounts: seq<JsonAccount>)

  /** `reset_sim_config`: ten accounts with ids 0 to 9, full cash and no positions. */
  function ResetSimConfig(): (c: Config)
    ensures |c.accounts| == 10
    ensures forall i | 0 <= i < 10 :: c.accounts[i].id == i
    ensures forall a | a in c.accounts ::
      a.cashToTrade == SimInitialValue && a.stocks == [] && a.netValue.None?
  {
    Config(seq(10, i requires 0 <= i < 10 => JsonAccount(i, SimInitialValue, None, [])))
  }

  /** The positions a configuration entry lists, as (symbol, count) holdings. */
  function FromJson(js: seq<JsonStock>): (r: seq<Holding>)
    ensures |r| == |js|
    ensures forall k | 0 <= k < |js| :: r[k].symbol == js[k].symbol && r[k].count == js[k].count
  {
    seq(|js|, k requires 0 <= k < |js| => Holding(js[k].symbol, js[k].count))
  }

  /** The `stocks` list logout writes for a list of holdings. */
  function ToJson(hs: seq<Holding>): (r: seq<JsonStock>)
    ensures |r| == |hs|
    ensures forall k | 0 <= k < |hs| :: r[k].symbol == hs[k].symbol && r[k].count == hs[k].count
  {
    seq(|hs|, k requires 0 <= k < |hs| => JsonStock(hs[k].symbol, hs[k].count))
  }

  /** Holdings written by logout are read back unchanged by login. */
  lemma HoldingsRoundTrip(hs: seq<Holding>)
    ensures FromJson(ToJson(hs)) == hs
  {
  }

  /** A configuration's `stocks` list read by login is written back unchanged
      by logout. */
  lemma JsonRoundTrip(js: seq<JsonStock>)
    ensures ToJson(FromJson(js)) == js
  {
  }

  /** The account dictionary's view of a configuration: each id filed with
      its entry, a later entry replacing an earlier one. */
  function ById(accts: seq<JsonAccount>): (m: map<int, JsonAccount>)
    ensures forall id | id in m :: m[id].id == id
  {
    if accts == [] then map[]
    else ById(accts[..|accts| - 1])[accts[|accts| - 1].id := accts[|accts| - 1]]
  }

  /** An id is filed exactly when some entry carries it, and it is filed
      with the last such entry. */
  lemma {:induction false} ById_IsLastEntry(accts: seq<JsonAccount>, id: int)
    ensures id in ById(accts) <==> exists k | 0 <= k < |accts| :: accts[k].id == id
    ensures id in ById(accts) ==>
      exists k | 0 <= k < |accts| :: accts[k] == ById(accts)[id] && forall m | k < m < |accts| :: accts[m].id != id
  {
    if accts != [] {
      var n := |accts| - 1;
      var front := accts[..n];
      ById_IsLastEntry(front, id);
      if accts[n].id != id && id in ById(accts) {
        var k :| 0 <= k < |front| && front[k] == ById(front)[id] && forall m | k < m < |front| :: front[m].id != id;
        assert accts[k] == ById(accts)[id];
      }
      if accts[n].id != id {
        assert forall k | 0 <= k < n :: accts[k] == front[k];
      }
    }
  }

  ghost predicate Distinct(q: seq<int>)
  {
    forall j, k | 0 <= j < k < |q| :: q[j] != q[k]
  }

  /** `order` lists every key of `keys` exactly once. */
  ghost predicate ListsKeys(order: seq<int>, keys: set<int>)
  {
    (forall k | 0 <= k < |order| :: order[k] in keys)
    && (forall id | id in keys :: id in order)
    && Distinct(order)
  }

  /** The ids of `accts` not yet in `keys`, each once, in order of first
      appearance: the keys that filing the entries into a dictionary with
      keys `keys` adds to its walking order. */
  function NewKeys(accts: seq<JsonAccount>, keys: set<int>): seq<int>
  {
    if accts == [] then []
    else if accts[0].id in keys then NewKeys(accts[1..], keys)
    else [accts[0].id] + NewKeys(accts[1..], keys + {accts[0].id})
  }

  lemma {:induction false} NewKeysSpec(accts: seq<JsonAccount>, keys: set<int>)
    ensures forall x | x in NewKeys(accts, keys) :: x !in keys && exists k | 0 <= k < |accts| :: accts[k].id == x
    ensures forall k | 0 <= k < |accts| :: accts[k].id in keys || accts[k].id in NewKeys(accts, keys)
    ensures Distinct(NewKeys(accts, keys))
  {
    if accts != [] {
      var rest := accts[1..];
      if accts[0].id in keys {
        NewKeysSpec(rest, keys);
        assert NewKeys(accts, keys) == NewKeys(rest, keys);
        forall x | x in NewKeys(accts, keys) ensures exists k | 0 <= k < |accts| :: accts[k].id == x {
          var k :| 0 <= k < |rest| && rest[k].id == x;
          assert accts[k + 1].id == x;
        }
        forall k | 0 <= k < |accts| ensures accts[k].id in keys || accts[k].id in NewKeys(accts, keys) {
          if k > 0 {
            assert accts[k] == rest[k - 1];
          }
        }
      } else {
        var keys' := keys + {accts[0].id};
        NewKeysSpec(rest, keys');
        var tail := NewKeys(rest, keys');
        var r := [accts[0].id] + tail;
        forall x | x in r ensures x !in keys && exists k | 0 <= k < |accts| :: accts[k].id == x {
          if x != accts[0].id {
            var k :| 0 <= k < |rest| && rest[k].id == x;
            assert accts[k + 1].id == x;
          }
        }
        forall k | 0 <= k < |accts| ensures accts[k].id in keys || accts[k].id in r {
          if k > 0 {
            assert accts[k] == rest[k - 1];
          }
        }
        forall j, k | 0 <= j < k < |r| ensures r[j] != r[k] {
          assert r[k] == tail[k - 1] && tail[k - 1] in tail;
          if j > 0 {
            assert r[j] == tail[j - 1];
          }
        }
      }
    }
  }

  /** Filing the entries `accts` keeps the walking order a listing of the
      keys, old keys first. */
  lemma NewKeysExtend(order: seq<int>, keys: set<int>, accts: seq<JsonAccount>)
    requires ListsKeys(order, keys)
    ensures ListsKeys(order + NewKeys(accts, keys), keys + ById(accts).Keys)
  {
    NewKeysSpec(accts, keys);
    ExtendListed(order, keys, accts);
    ExtendCovers(order, keys, accts);
    ExtendDistinct(order, keys, accts);
  }

  lemma ExtendListed(order: seq<int>, keys: set<int>, accts: seq<JsonAccount>)
    requires forall k | 0 <= k < |order| :: order[k] in keys
    requires forall x | x in NewKeys(accts, keys) :: x !in keys && exists k | 0 <= k < |accts| :: accts[k].id == x
    ensures forall k | 0 <= k < |order + NewKeys(accts, keys)| :: (order + NewKeys(accts, keys))[k] in keys + ById(accts).Keys
  {
    var added := NewKeys(accts, keys);
    var r := order + added;
    forall k | 0 <= k < |r| ensures r[k] in keys + ById(accts).Keys {
      if k >= |order| {
        assert r[k] == added[k - |order|] && r[k] in added;
        ById_IsLastEntry(accts, r[k]);
      }
    }
  }

  lemma ExtendCovers(order: seq<int>, keys: set<int>, accts: seq<JsonAccount>)
    requires forall id | id in keys :: id in order
    requires forall k | 0 <= k < |accts| :: accts[k].id in keys || accts[k].id in NewKeys(accts, keys)
    ensures forall id | id in keys + ById(accts).Keys :: id in order + NewKeys(accts, keys)
  {
    var added := NewKeys(accts, keys);
    var r := order + added;
    forall id | id in keys + ById(accts).Keys ensures id in r {
      if id !in keys {
        ById_IsLastEntry(accts, id);
        var k :| 0 <= k < |accts| && accts[k].id == id;
        var m :| 0 <= m < |added| && added[m] == id;
        assert r[|order| + m] == id;
      } else {
        var m :| 0 <= m < |order| && order[m] == id;
        assert r[m] == id;
      }
    }
  }

  lemma ExtendDistinct(order: seq<int>, keys: set<int>, accts: seq<JsonAccount>)
    requires forall k | 0 <= k < |order| :: order[k] in keys
    requires Distinct(order) && Distinct(NewKeys(accts, keys))
    requires forall x | x in NewKeys(accts, keys) :: x !in keys
    ensures Distinct(order + NewKeys(accts, keys))
  {
    var added := NewKeys(accts, keys);
    var r := order + added;
    forall j, k | 0 <= j < k < |r| ensures r[j] != r[k] {
      if k >= |order| {
        assert r[k] == added[k - |order|] && r[k] in added;
        if j >= |order| {
          assert r[j] == added[j - |order|];
        } else {
          assert r[j] == order[j] && order[j] in keys;
        }
      } else {
        assert r[j] == order[j] && r[k] == order[k];
      }
    }
  }

  /** Account `a` is marked to market as of `dt`: every position priced, and
      its net value the cash plus the marked holdings. */
  ghost predicate Marked(a: Account, sim: seq<Bar>, dt: Date)
    reads a, a.stockList
  {
    a.dt == dt && NetMarked(a, sim)
    && forall k | 0 <= k < |a.stockList| :: PricedAt(a.stockList[k], sim, dt)
  }

  /** The net value of `a` is its cash plus its holdings marked as of its date. */
  ghost predicate NetMarked(a: Account, sim: seq<Bar>)
    reads a`netValue, a`cashToTrade, a`dt, a`stockList, a.stockList`count
  {
    a.netValue == a.cashToTrade + HoldingsValue(sim, a.dt, Holdings(a.stockList))
  }

  /** HoldingsOf, framed by the share counts alone: re-pricing a position
      does not change it. */
  ghost function Holdings(ss: seq<Stock>): (r: seq<Holding>)
    reads ss`count
  {
    if ss == [] then [] else Holdings(ss[..|ss| - 1]) + [Holding(ss[|ss| - 1].symbol, ss[|ss| - 1].count)]
  }

  lemma {:induction false} HoldingsAgree(ss: seq<Stock>)
    ensures Holdings(ss) == HoldingsOf(ss)
  {
    if ss != [] {
      HoldingsAgree(ss[..|ss| - 1]);
    }
  }

  /** What login restores of an account and logout writes back: its id,
      its cash, its mode and its holdings in list order. */
  datatype AccountView = AccountView(id: int, cashToTrade: real, mode: Mode, holdings: seq<Holding>)

  ghost function ViewOf(a: Account): AccountView
    reads a`cashToTrade, a`mode, a`stockList, a.stockList`count
  {
    AccountView(a.id, a.cashToTrade, a.mode, Holdings(a.stockList))
  }

  /** The first `|out|` configuration entries `listed` name accounts of
      `dict`, and `out` holds their entries written from the accounts as they
      were before. */
  twostate predicate WrittenSoFar(dict: map<int, Account>, listed: seq<JsonAccount>, out: seq<JsonAccount>, sim: seq<Bar>)
  {
    |out| <= |listed|
    && forall k | 0 <= k < |out| ::
      listed[k].id in dict && out[k] == Written(old(ViewOf(dict[listed[k].id])), old(dict[listed[k].id].dt), sim)
  }

  /** The first `|out|` configuration entries `listed` are filed in
      `before`, a snapshot of each account's view and date, and `out` holds
      the entries written from that snapshot. */
  ghost predicate WrittenFrom(before: map<int, (AccountView, Date)>, listed: seq<JsonAccount>,
                              out: seq<JsonAccount>, sim: seq<Bar>)
  {
    |out| <= |listed|
    && forall k | 0 <= k < |out| ::
      listed[k].id in before && out[k] == Written(before[listed[k].id].0, before[listed[k].id].1, sim)
  }

  /** One more entry, written from the snapshot of the next listed
      account, extends what has been written. */
  lemma WrittenFromExtend(before: map<int, (AccountView, Date)>, listed: seq<JsonAccount>,
                          out: seq<JsonAccount>, entry: JsonAccount, sim: seq<Bar>)
    requires WrittenFrom(before, listed, out, sim) && |out| < |listed| && listed[|out|].id in before
    requires entry == Written(before[listed[|out|].id].0, before[listed[|out|].id].1, sim)
    ensures WrittenFrom(before, listed, out + [entry], sim)
  {
  }

  /** Re-pricing and re-marking an account leave its view as it was. */
  twostate lemma ViewStable(a: Account)
    requires unchanged(a`cashToTrade, a`mode, a`stockList)
    requires forall k | 0 <= k < |a.stockList| :: a.stockList[k].count == old(a.stockList[k].count)
    ensures ViewOf(a) == old(ViewOf(a))
  {
    HoldingsStable(a.stockList);
  }

  twostate lemma {:induction false} HoldingsStable(ss: seq<Stock>)
    requires forall k | 0 <= k < |ss| :: ss[k].count == old(ss[k].count)
    ensures Holdings(ss) == old(Holdings(ss))
  {
    if ss != [] {
      HoldingsStable(ss[..|ss| - 1]);
    }
  }

  /** The entry logout writes for an account with view `v` and net value `net`. */
  function WriteEntry(v: AccountView, net: real): (j: JsonAccount)
    ensures j.id == v.id && j.cashToTrade == v.cashToTrade && j.netValue == Some(net)
    ensures FromJson(j.stocks) == v.holdings
  {
    HoldingsRoundTrip(v.holdings);
    JsonAccount(v.id, v.cashToTrade, Some(net), ToJson(v.holdings))
  }

  /** The entry logout writes for an account with view `v` dated `dt`: its
      net value is marked afresh as of `dt`. */
  function Written(v: AccountView, dt: Date, sim: seq<Bar>): (j: JsonAccount)
    ensures j.netValue == Some(v.cashToTrade + HoldingsValue(sim, dt, v.holdings))
  {
    WriteEntry(v, v.cashToTrade + HoldingsValue(sim, dt, v.holdings))
  }

  /** The account login builds from entry `j`, before it is marked to market. */
  function EntryView(j: JsonAccount): AccountView
  {
    AccountView(j.id, j.cashToTrade, Setup, FromJson(j.stocks))
  }

  /** Logging out and back in keeps an account's id, cash and ordered
      holdings; only the mode is not saved and comes back as setup. */
  lemma LogoutLoginRoundTrip(v: AccountView, dt: Date, sim: seq<Bar>)
    ensures EntryView(Written(v, dt, sim)) == v.(mode := Setup)
  {
  }

  /** Account `a` is what login builds from entry `j` as of `dt`. */
  ghost predicate LoadedAs(a: Account, j: JsonAccount, sim: seq<Bar>, dt: Date)
    reads a, a.stockList
  {
    a.id == j.id && a.Valid() && ViewOf(a) == EntryView(j) && Marked(a, sim, dt)
  }

  /** One position of login's inner loop: a new Stock of the entry's symbol
      and count, priced at the ask of a fresh quote, appended to `a`. */
  method AddPosition(a: Account, js: JsonStock, sim: seq<Bar>, dt: Date) returns (stock: Stock)
    requires a.Valid()
    modifies a`stockList
    ensures a.Valid() && fresh(stock)
    ensures a.stockList == old(a.stockList) + [stock]
    ensures stock.symbol == js.symbol && stock.count == js.count
  {
    stock := new Stock(js.symbol, a);
    var quote := new Quote(stock.symbol);
    var found := quote.Update(dt, sim);
    stock.value := quote.ask;
    stock.count := js.count;
    a.stockList := a.stockList + [stock];
  }

  /** The body of login's loop for one entry: a new account holding the
      entry's cash and its positions in order, then marked to market. */
  method LoadAccount(j: JsonAccount, sim: seq<Bar>, dt: Date) returns (a: Account)
    ensures fresh(a) && LoadedAs(a, j, sim, dt)
    ensures forall s | s in a.stockList :: fresh(s)
  {
    a := NewAccount(j, dt, sim);
    a.Update(None, sim);
    HoldingsAgree(a.stockList);
  }

  /** A new account holding the entry's cash and its positions in order,
      before it is marked to market. */
  method NewAccount(j: JsonAccount, dt: Date, sim: seq<Bar>) returns (a: Account)
    ensures fresh(a) && a.Valid()
    ensures forall s | s in a.stockList :: fresh(s)
    ensures a.id == j.id && a.dt == dt && a.mode == Setup && a.cashToTrade == j.cashToTrade
    ensures HoldingsOf(a.stockList) == FromJson(j.stocks)
  {
    a := new Account(j.id, dt);
    a.cashToTrade := j.cashToTrade;
    var i := 0;
    while i < |j.stocks|
      invariant 0 <= i <= |j.stocks|
      invariant fresh(a) && a.Valid()
      invariant forall s | s in a.stockList :: fresh(s)
      invariant a.id == j.id && a.dt == dt && a.mode == Setup && a.cashToTrade == j.cashToTrade
      invariant |a.stockList| == i
      invariant forall k | 0 <= k < i ::
        a.stockList[k].symbol == j.stocks[k].symbol && a.stockList[k].count == j.stocks[k].count
    {
      var stock := AddPosition(a, j.stocks[i], sim, dt);
      i := i + 1;
    }
    assert HoldingsOf(a.stockList) == FromJson(j.stocks);
  }

  /** The `stocks` list logout writes for the positions `ss`. */
  method StocksJson(ss: seq<Stock>) returns (r: seq<JsonStock>)
    ensures r == ToJson(Holdings(ss))
  {
    r := [];
    var k := 0;
    while k < |ss|
      invariant 0 <= k <= |ss| && |r| == k
      invariant forall m | 0 <= m < k :: r[m] == JsonStock(ss[m].symbol, ss[m].count)
    {
      r := r + [JsonStock(ss[k].symbol, ss[k].count)];
      k := k + 1;
    }
    HoldingsAgree(ss);
  }

  /** The body of logout's loop for one account: marks it to market at its
      own date and writes its entry. */
  method WriteAccount(a: Account, sim: seq<Bar>) returns (j: JsonAccount)
    modifies a`dt, a`netValue, a.stockList`value, a.stockList`valid
    ensures a.dt == old(a.dt)
    ensures j == Written(old(ViewOf(a)), old(a.dt), sim)
  {
    a.Update(None, sim);
    ViewStable(a);
    HoldingsAgree(a.stockList);
    var stocks := StocksJson(a.stockList);
    j := JsonAccount(a.id, a.cashToTrade, Some(a.netValue), stocks);
  }

  /** The loop of `login`: one freshly loaded account per entry of `accts`,
      filed under its id; of two entries with one id the later one wins. */
  method LoadAll(accts: seq<JsonAccount>, sim: seq<Bar>, dt: Date) returns (loaded: map<int, Account>)
    ensures loaded.Keys == ById(accts).Keys
    ensures forall id | id in loaded :: fresh(loaded[id]) && LoadedAs(loaded[id], ById(accts)[id], sim, dt)
    ensures forall id | id in loaded :: forall s | s in loaded[id].stockList :: fresh(s)
  {
    var i := 0;
    ghost var byId: map<int, JsonAccount> := map[];
    loaded := map[];
    while i < |accts|
      invariant 0 <= i <= |accts|
      invariant byId == ById(accts[..i])
      invariant loaded.Keys == byId.Keys
      invariant forall id | id in loaded :: fresh(loaded[id]) && LoadedAs(loaded[id], byId[id], sim, dt)
      invariant forall id | id in loaded :: forall s | s in loaded[id].stockList :: fresh(s)
    {
      assert accts[..i + 1][..i] == accts[..i];
      var account := LoadAccount(accts[i], sim, dt);
      loaded := loaded[account.id := account];
      byId := byId[accts[i].id := accts[i]];
      i := i + 1;
    }
    assert accts[..i] == accts;
  }

  class Client {
    var currentTime: Option<Date>
    var config: Option<Config>
    var accountDict: map<int, Account>
    /** The keys of `accountDict` in insertion order, the order in which a
        Python dictionary is walked. */
    var order: seq<int>

    /** Every account is filed under its own id and owns its positions. */
    ghost predicate Valid()
      reads this`accountDict, accountDict.Values`stockList
    {
      forall id | id in accountDict :: accountDict[id].id == id && accountDict[id].Valid()
    }

    /** `order` lists every key of `accountDict` exactly once. */
    ghost predicate Ordered()
      reads this`accountDict, this`order
    {
      ListsKeys(order, accountDict.Keys)
    }

    /** The positions of all accounts. */
    ghost function Positions(): set<Stock>
      reads this`accountDict, accountDict.Values`stockList
    {
      set id, s | id in accountDict && s in accountDict[id].stockList :: s
    }

    constructor()
      ensures Valid() && Ordered()
      ensures currentTime.None? && config.None? && accountDict == map[]
    {
      currentTime := None;
      config := None;
      accountDict := map[];
      order := [];
    }

    /** `login`: reads the configuration (an empty one when the file is
        missing) and files one freshly loaded account per entry.  Accounts
        of an earlier login whose ids the configuration does not list stay,
        and ids already filed keep their place in the walking order. */
    method Login(dt: Date, file: Option<Config>, sim: seq<Bar>) returns (ok: bool)
      requires Valid() && Ordered()
      modifies this
      ensures Valid() && Ordered() && ok
      ensures config == Some(if file.Some? then file.value else Config([]))
      ensures currentTime == Some(dt)
      ensures accountDict.Keys == old(accountDict.Keys) + ById(config.value.accounts).Keys
      ensures forall id | id in ById(config.value.accounts) ::
        fresh(accountDict[id]) && LoadedAs(accountDict[id], ById(config.value.accounts)[id], sim, dt)
      ensures forall id | id in ById(config.value.accounts) :: forall s | s in accountDict[id].stockList :: fresh(s)
      ensures forall id | id in accountDict && id !in ById(config.value.accounts) ::
        accountDict[id] == old(accountDict[id])
      ensures order == old(order) + NewKeys(config.value.accounts, old(accountDict.Keys))
    {
      var cfg := if file.Some? then file.value else Config([]);
      config := Some(cfg);
      currentTime := Some(dt);
      var loaded := LoadAll(cfg.accounts, sim, dt);
      File(loaded, cfg.accounts);
      assert forall id | id in loaded :: accountDict[id] == loaded[id];
      return true;
    }

    /** The end of `login`: files the accounts loaded from the entries
        `accts`, a new id going to the end of the walking order. */
    method File(loaded: map<int, Account>, accts: seq<JsonAccount>)
      requires Valid() && Ordered()
      requires loaded.Keys == ById(accts).Keys
      requires forall id | id in loaded :: loaded[id].id == id && loaded[id].Valid()
      modifies this`accountDict, this`order
      ensures Valid() && Ordered()
      ensures accountDict == old(accountDict) + loaded
      ensures order == old(order) + NewKeys(accts, old(accountDict.Keys))
    {
      NewKeysExtend(order, accountDict.Keys, accts);
      order := order + NewKeys(accts, accountDict.Keys);
      accountDict := accountDict + loaded;
    }

    /** `update`: moves the clock to `dt` and marks every account to market
        as of `dt`, walking the accounts in insertion order. */
    method Update(dt: Date, sim: seq<Bar>) returns (ok: bool)
      requires Valid() && Ordered()
      modifies this`currentTime, accountDict.Values`dt, accountDict.Values`netValue
      modifies Positions()`value, Positions()`valid
      ensures Valid() && ok
      ensures currentTime == Some(dt)
      ensures forall id | id in accountDict :: Marked(accountDict[id], sim, dt)
      ensures Positions() == old(Positions())
      ensures forall s | s in Positions() :: s.valid == (old(s.valid) && LatestOnOrBefore(sim, s.symbol, dt).Some?)
      ensures forall s | s in Positions() && LatestOnOrBefore(sim, s.symbol, dt).None? :: s.value == old(s.value)
    {
      ghost var ps := Positions();
      currentTime := Some(dt);
      MarkInOrder(ps, dt, sim);
      PositionsKept();
      MarkedInvalid(sim, dt);
      return true;
    }

    /** The positions stay the same while no account and no position list is
        replaced. */
    twostate lemma PositionsKept()
      requires unchanged(this`accountDict)
      requires forall a | a in old(accountDict.Values) :: unchanged(a`stockList)
      ensures Positions() == old(Positions())
    {
      forall s ensures s in Positions() <==> s in old(Positions()) {
        if s in Positions() {
          var id :| id in accountDict && s in accountDict[id].stockList;
          assert accountDict[id] in old(accountDict.Values);
          assert id in old(accountDict) && s in old(accountDict[id].stockList);
        }
        if s in old(Positions()) {
          var id :| id in old(accountDict) && s in old(accountDict[id].stockList);
          assert accountDict[id] in old(accountDict.Values);
          assert id in accountDict && s in accountDict[id].stockList;
        }
      }
    }

    /** Once every account is marked as of `dt`, no position without a bar
        on or before `dt` is valid. */
    lemma MarkedInvalid(sim: seq<Bar>, dt: Date)
      requires forall id | id in accountDict :: Marked(accountDict[id], sim, dt)
      ensures forall s | s in Positions() && LatestOnOrBefore(sim, s.symbol, dt).None? :: !s.valid
    {
      forall s | s in Positions() ensures LatestOnOrBefore(sim, s.symbol, dt).None? ==> !s.valid {
        var id :| id in accountDict && s in accountDict[id].stockList;
        var a := accountDict[id];
        var k :| 0 <= k < |a.stockList| && a.stockList[k] == s;
        assert PricedAt(a.stockList[k], sim, dt);
      }
    }

    /** The loop of `update`: marks the accounts in the order of `order`.
        Along the way a position of `ps` can only lose its validity, keeps it
        when it has a bar, and keeps its price when it has none. */
    method MarkInOrder(ghost ps: set<Stock>, dt: Date, sim: seq<Bar>)
      requires Valid() && Ordered() && ps == Positions()
      modifies accountDict.Values`dt, accountDict.Values`netValue, ps`value, ps`valid
      ensures Valid()
      ensures forall id | id in accountDict :: Marked(accountDict[id], sim, dt)
      ensures forall s | s in ps :: s.valid ==> old(s.valid)
      ensures forall s | s in ps && LatestOnOrBefore(sim, s.symbol, dt).Some? :: old(s.valid) ==> s.valid
      ensures forall s | s in ps && LatestOnOrBefore(sim, s.symbol, dt).None? :: s.value == old(s.value)
    {
      var i := 0;
      while i < |order|
        invariant 0 <= i <= |order|
        invariant Valid() && Ordered()
        invariant forall k | 0 <= k < i :: Marked(accountDict[order[k]], sim, dt)
        invariant forall s | s in ps ::
          && (s.valid ==> old(s.valid))
          && (LatestOnOrBefore(sim, s.symbol, dt).Some? && old(s.valid) ==> s.valid)
          && (LatestOnOrBefore(sim, s.symbol, dt).None? ==> s.value == old(s.value))
      {
        var account := accountDict[order[i]];
        assert account in accountDict.Values;
        assert forall s | s in account.stockList :: s in ps;
        MarkAccount(account, i, dt, sim);
        i := i + 1;
      }
    }

    /** One step of `update`: marks the account filed under its id as of
        `dt`, keeping the accounts marked before it marked. */
    method MarkAccount(account: Account, ghost n: nat, dt: Date, sim: seq<Bar>)
      requires Valid() && Ordered() && n < |order| && accountDict[order[n]] == account
      requires forall k | 0 <= k < n :: Marked(accountDict[order[k]], sim, dt)
      modifies account`dt, account`netValue, account.stockList`value, account.stockList`valid
      ensures Valid()
      ensures forall k | 0 <= k <= n :: Marked(accountDict[order[k]], sim, dt)
      ensures forall s | s in account.stockList :: s.valid == (old(s.valid) && LatestOnOrBefore(sim, s.symbol, dt).Some?)
      ensures forall s | s in account.stockList && LatestOnOrBefore(sim, s.symbol, dt).None? :: s.value == old(s.value)
    {
      account.Update(Some(dt), sim);
      HoldingsAgree(account.stockList);
      forall s | s in account.stockList
        ensures s.valid == (old(s.valid) && LatestOnOrBefore(sim, s.symbol, dt).Some?)
        ensures LatestOnOrBefore(sim, s.symbol, dt).None? ==> s.value == old(s.value)
      {
        var k :| 0 <= k < |account.stockList| && account.stockList[k] == s;
      }
    }

    /** `logout`: marks every account the configuration lists to market at
        its own date and writes one entry per listed account, in the
        configuration's order.  A listed id with no account raises KeyError
        with the entries written so far in place; logging out before any
        login raises TypeError. */
    method Logout(sim: seq<Bar>) returns (r: Result<Config>)
      requires Valid()
      modifies this`config, accountDict.Values`dt, accountDict.Values`netValue
      modifies Positions()`value, Positions()`valid
      ensures Valid() && config.Some?
      ensures old(config).None? ==> r == Raise(TypeError) && config == Some(Config([]))
      ensures old(config).Some? ==>
        (r.Ok? <==> forall k | 0 <= k < |old(config).value.accounts| :: old(config).value.accounts[k].id in accountDict)
      ensures old(config).Some? && r.Raise? ==> r.error == KeyError
      ensures r.Ok? ==> config == Some(r.value) && |r.value.accounts| == |old(config).value.accounts|
      ensures r.Ok? ==> forall k | 0 <= k < |r.value.accounts| ::
        var a := accountDict[old(config).value.accounts[k].id];
        r.value.accounts[k] == Written(old(ViewOf(a)), old(a.dt), sim)
      ensures forall id | id in accountDict :: accountDict[id].dt == old(accountDict[id].dt)
    {
      if config.None? {
        config := Some(Config([]));
        return Raise(TypeError);
      }
      var oldAccts := config.value.accounts;
      var out := WriteEntries(oldAccts, sim);
      config := Some(Config(out));
      if |out| < |oldAccts| {
        return Raise(KeyError);
      }
      return Ok(config.value);
    }

    /** Logout's loop: writes the entries of the listed ids in order while
        each has an account, stopping at the first that has none. */
    method WriteEntries(listed: seq<JsonAccount>, sim: seq<Bar>) returns (out: seq<JsonAccount>)
      requires Valid()
      modifies accountDict.Values`dt, accountDict.Values`netValue
      modifies Positions()`value, Positions()`valid
      ensures Valid() && WrittenSoFar(accountDict, listed, out, sim)
      ensures |out| < |listed| ==> listed[|out|].id !in accountDict
      ensures forall id | id in accountDict :: accountDict[id].dt == old(accountDict[id].dt)
    {
      var dict := accountDict;
      out := [];
      ghost var positions := Positions();
      ghost var before := map id | id in dict :: (ViewOf(dict[id]), dict[id].dt);
      var i := 0;
      while i < |listed| && listed[i].id in dict
        invariant 0 <= i <= |listed| && |out| == i
        modifies dict.Values`dt, dict.Values`netValue, positions`value, positions`valid
        invariant Valid()
        invariant WrittenFrom(before, listed, out, sim)
        invariant forall id | id in dict :: dict[id].dt == old(dict[id].dt)
      {
        var account := dict[listed[i].id];
        assert account in dict.Values;
        assert forall s | s in account.stockList :: s in positions;
        ViewStable(account);
        ghost var view, date := ViewOf(account), account.dt;
        assert (view, date) == before[listed[i].id];
        var entry := WriteAccount(account, sim);
        WrittenFromExtend(before, listed, out, entry, sim);
        out := out + [entry];
        i := i + 1;
      }
    }

    /** `get_account`: the account filed under `id`; a missing id raises KeyError. */
    function GetAccount(id: int): (r: Result<Account>)
      reads this
      ensures r.Ok? <==> id in accountDict
      ensures r.Ok? ==> r.value == accountDict[id]
    {
      if id in accountDict then Ok(accountDict[id]) else Raise(KeyError)
    }

    /** `get_quote`: a fresh quote priced as of the current time, or null
        when the symbol has no bar on or before it.  Before any login the
        time is None and `cur_time.date()` raises AttributeError. */
    method GetQuote(symbol: Symbol, sim: seq<Bar>) returns (r: Result<Quote?>)
      ensures r.Raise? <==> currentTime.None?
      ensures r.Raise? ==> r.error == AttributeError
      ensures r.Ok? ==> (r.value == null <==> LatestOnOrBefore(sim, symbol, currentTime.value).None?)
      ensures r.Ok? && r.value != null ==>
        var q := r.value;
        fresh(q) && q.symbol == symbol && q.ask == q.bid == Some(LatestOnOrBefore(sim, symbol, currentTime.value).value.open)
    {
      var quote := new Quote(symbol);
      if currentTime.None? {
        return Raise(AttributeError);
      }
      var found := quote.Update(currentTime.value, sim);
      if !found {
        return Ok(null);
      }
      if quote.ask.None? {
        return Ok(null);
      }
      return Ok(quote);
    }
  }
}
