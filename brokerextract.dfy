/** extract-broker-data.py: the exchanges file. Each exchange from the exchange section
    is keyed by its code with an empty price table; each broker (one material traded on
    one exchange) contributes a six-field price record under its exchange code and ticker;
    main then attaches each known exchange's table. The file written is exactly the data
    `Market` reads (market.py). */
module BrokerExtract {
  import opened Wrappers
  import opened StateRecords
  import opened Markets

  /** One broker's data. The four price entries are `None` when the broker's entry is falsy
      (null or empty) and otherwise hold its amount; supply and demand are the raw numbers
      (zero is falsy). */
  datatype BrokerData = BrokerData(
    ticker: string, exchange: string,
    price: Option<real>, ask: Option<real>, bid: Option<real>, priceAverage: Option<real>,
    supply: real, demand: real)

  /** One exchange entry of the exchange section. */
  datatype ExchangeData = ExchangeData(code: string, name: string, currency: string)

  /** One material category. */
  datatype Category = Category(id: string, name: string)

  /** `if value: price[...] = value`: a zero count is left as `None`. */
  function Truthy(x: real): (r: Option<real>)
    ensures r.Some? <==> x != 0.0
    ensures r.Some? ==> r.value == x
  {
    if x != 0.0 then Some(x) else None
  }

  // ---------------------------------------------------------------------------------
  // build_price

  /** `build_price`: all six keys, each `None` unless the broker's field is truthy. */
  function BuildPrice(b: BrokerData): (r: Record)
    ensures r.Keys == {"last", "ask", "bid", "avg", "supply", "demand"}
    ensures r["last"] == b.price && r["ask"] == b.ask && r["bid"] == b.bid && r["avg"] == b.priceAverage
    ensures (r["supply"].Some? <==> b.supply != 0.0) && (r["demand"].Some? <==> b.demand != 0.0)
    ensures r["supply"].Some? ==> r["supply"].value == b.supply
    ensures r["demand"].Some? ==> r["demand"].value == b.demand
  {
    map["last" := b.price, "ask" := b.ask, "bid" := b.bid, "avg" := b.priceAverage,
        "supply" := Truthy(b.supply), "demand" := Truthy(b.demand)]
  }

  /** A built record always reads back as a `Price` holding the broker's values. */
  lemma BuiltPriceReads(b: BrokerData)
    ensures NewPrice(BuildPrice(b)) == Ok(Price(b.price, b.ask, b.bid, b.priceAverage, Truthy(b.supply), Truthy(b.demand)))
  {
    var r := BuildPrice(b);
    assert "last" in r;
    assert |r| > 0;
  }

  // ---------------------------------------------------------------------------------
  // load_prices

  /** Exchange code -> ticker -> price record: the dict load_prices builds. */
  type PriceTables = map<string, map<string, Record>>

  /** One turn of the broker loop: create the exchange's table if needed, then place the
      broker's record under its ticker. */
  function PriceStep(tables: PriceTables, b: BrokerData): PriceTables
  {
    var table := if b.exchange in tables then tables[b.exchange] else map[];
    tables[b.exchange := table[b.ticker := BuildPrice(b)]]
  }

  /** `load_prices` over all brokers. */
  function Prices(brokers: seq<BrokerData>): PriceTables
  {
    if |brokers| == 0 then map[]
    else PriceStep(Prices(brokers[..|brokers| - 1]), brokers[|brokers| - 1])
  }

  /** Whether some broker trades `ticker` on `exchange`. */
  predicate Trades(brokers: seq<BrokerData>, exchange: string, ticker: string)
  {
    exists i :: 0 <= i < |brokers| && brokers[i].exchange == exchange && brokers[i].ticker == ticker
  }

  /** Whether some broker trades on `exchange`. */
  predicate TradesOn(brokers: seq<BrokerData>, exchange: string)
  {
    exists i :: 0 <= i < |brokers| && brokers[i].exchange == exchange
  }

  /** The tables hold exactly the exchanges some broker trades on, and under each exactly
      the tickers traded there. */
  lemma {:induction false} PricesKeys(brokers: seq<BrokerData>)
    ensures forall e :: e in Prices(brokers) <==> TradesOn(brokers, e)
    ensures forall e, t | e in Prices(brokers) :: t in Prices(brokers)[e] <==> Trades(brokers, e, t)
  {
    if |brokers| > 0 {
      var n := |brokers| - 1;
      var pre := brokers[..n];
      PricesKeys(pre);
      assert forall i :: 0 <= i < n ==> pre[i] == brokers[i];
      forall e, t | Trades(pre, e, t)
        ensures Trades(brokers, e, t)
      {
        var i :| 0 <= i < n && pre[i].exchange == e && pre[i].ticker == t;
        assert brokers[i] == pre[i];
      }
      forall e, t | Trades(brokers, e, t) && !(brokers[n].exchange == e && brokers[n].ticker == t)
        ensures Trades(pre, e, t)
      {
        var i :| 0 <= i < |brokers| && brokers[i].exchange == e && brokers[i].ticker == t;
        assert i < n && pre[i] == brokers[i];
      }
      forall e | TradesOn(brokers, e)
        ensures e == brokers[n].exchange || TradesOn(pre, e)
      {
        var i :| 0 <= i < |brokers| && brokers[i].exchange == e;
        if i < n {
          assert pre[i].exchange == e;
        }
      }
      forall e | TradesOn(pre, e)
        ensures TradesOn(brokers, e)
      {
        var i :| 0 <= i < n && pre[i].exchange == e;
        assert brokers[i].exchange == e;
      }
    }
  }

  /** Each record is the one built from the last broker trading that ticker on that
      exchange: a later broker for the same pair overwrites an earlier one. */
  lemma {:induction false} PricesLast(brokers: seq<BrokerData>, i: nat)
    requires i < |brokers|
    requires forall j :: i < j < |brokers| ==>
      !(brokers[j].exchange == brokers[i].exchange && brokers[j].ticker == brokers[i].ticker)
    ensures brokers[i].exchange in Prices(brokers)
    ensures brokers[i].ticker in Prices(brokers)[brokers[i].exchange]
    ensures Prices(brokers)[brokers[i].exchange][brokers[i].ticker] == BuildPrice(brokers[i])
  {
    var n := |brokers| - 1;
    if i < n {
      var pre := brokers[..n];
      assert pre[i] == brokers[i];
      assert forall j :: i < j < |pre| ==> pre[j] == brokers[j];
      PricesLast(pre, i);
    }
  }

  /** The broker loop. */
  method LoadPrices(brokers: seq<BrokerData>) returns (tables: PriceTables)
    ensures tables == Prices(brokers)
  {
    tables := map[];
    var k := 0;
    while k < |brokers|
      invariant 0 <= k <= |brokers|
      invariant tables == Prices(brokers[..k])
    {
      assert brokers[..k + 1][..k] == brokers[..k];
      var data := brokers[k];
      var price := BuildPrice(data);
      if data.exchange !in tables {
        tables := tables[data.exchange := map[]];
      }
      tables := tables[data.exchange := tables[data.exchange][data.ticker := price]];
      k := k + 1;
    }
    assert brokers[..k] == brokers;
  }

  // ---------------------------------------------------------------------------------
  // load_exchanges and load_categories

  function CodeOf(x: ExchangeData): string { x.code }

  /** An exchange as first written: its identity and an empty price table. */
  function Unpriced(x: ExchangeData): ExchangeRecord { ExchangeRecord(x.code, x.name, x.currency, map[]) }

  /** `load_exchanges`: exchanges by code. */
  function Exchanges(data: seq<ExchangeData>): map<string, ExchangeRecord>
  {
    Keyed(data, CodeOf, Unpriced)
  }

  /** Every exchange code is a key, no other; each entry carries its own code, the name and
      currency of the last entry with that code, and no prices. */
  lemma ExchangesMeaning(data: seq<ExchangeData>)
    ensures forall c :: c in Exchanges(data) <==> exists i :: 0 <= i < |data| && data[i].code == c
    ensures forall c | c in Exchanges(data) :: Exchanges(data)[c].code == c && Exchanges(data)[c].prices == map[]
    ensures forall c | c in Exchanges(data) :: exists i :: (0 <= i < |data| && data[i].code == c &&
      Exchanges(data)[c] == Unpriced(data[i]) && forall j :: i < j < |data| ==> data[j].code != c)
  {
    KeyedMeaning(data, CodeOf, Unpriced);
  }

  /** The exchange loop. */
  method LoadExchanges(data: seq<ExchangeData>) returns (exchanges: map<string, ExchangeRecord>)
    ensures exchanges == Exchanges(data)
  {
    exchanges := map[];
    var k := 0;
    while k < |data|
      invariant 0 <= k <= |data|
      invariant exchanges == Keyed(data[..k], CodeOf, Unpriced)
    {
      assert data[..k + 1][..k] == data[..k];
      var x := data[k];
      exchanges := exchanges[x.code := ExchangeRecord(x.code, x.name, x.currency, map[])];
      k := k + 1;
    }
    assert data[..k] == data;
  }

  function CategoryId(c: Category): string { c.id }

  function CategoryName(c: Category): string { c.name }

  /** `load_categories`: category id -> name. */
  function Categories(cats: seq<Category>): map<string, string>
  {
    Keyed(cats, CategoryId, CategoryName)
  }

  /** Every category id is a key, no other, and maps to the name of its last entry. */
  lemma CategoriesMeaning(cats: seq<Category>)
    ensures forall id :: id in Categories(cats) <==> exists i :: 0 <= i < |cats| && cats[i].id == id
    ensures forall id | id in Categories(cats) :: exists i :: (0 <= i < |cats| && cats[i].id == id &&
      Categories(cats)[id] == cats[i].name && forall j :: i < j < |cats| ==> cats[j].id != id)
  {
    KeyedMeaning(cats, CategoryId, CategoryName);
  }

  /** The category loop. */
  method LoadCategories(cats: seq<Category>) returns (categories: map<string, string>)
    ensures categories == Categories(cats)
  {
    categories := map[];
    var k := 0;
    while k < |cats|
      invariant 0 <= k <= |cats|
      invariant categories == Keyed(cats[..k], CategoryId, CategoryName)
    {
      assert cats[..k + 1][..k] == cats[..k];
      categories := categories[cats[k].id := cats[k].name];
      k := k + 1;
    }
    assert cats[..k] == cats;
  }

  // ---------------------------------------------------------------------------------
  // The price merge in main

  /** Each known exchange with a table gets that table; the others keep theirs. */
  function Attached(exchanges: map<string, ExchangeRecord>, tables: PriceTables): (r: map<string, ExchangeRecord>)
    ensures r.Keys == exchanges.Keys
    ensures forall c | c in r :: (r[c].code == exchanges[c].code && r[c].name == exchanges[c].name &&
      r[c].currency == exchanges[c].currency)
    ensures forall c | c in r :: r[c].prices == if c in tables then tables[c] else exchanges[c].prices
  {
    map c | c in exchanges :: if c in tables then exchanges[c].(prices := tables[c]) else exchanges[c]
  }

  /** The merge loop: `exchange['prices'] = prices[code]` for each known code. */
  method AttachPrices(exchanges: map<string, ExchangeRecord>, tables: PriceTables) returns (r: map<string, ExchangeRecord>)
    ensures r == Attached(exchanges, tables)
  {
    r := exchanges;
    var todo := exchanges.Keys;
    while todo != {}
      invariant todo <= exchanges.Keys && r.Keys == exchanges.Keys
      invariant forall c | c in todo :: r[c] == exchanges[c]
      invariant forall c | c in r && c !in todo :: r[c] == Attached(exchanges, tables)[c]
      decreases todo
    {
      var code :| code in todo;
      if code in tables {
        r := r[code := r[code].(prices := tables[code])];
      }
      todo := todo - {code};
    }
  }

  /** The exchanges file. */
  function ExtractExchanges(data: seq<ExchangeData>, brokers: seq<BrokerData>): map<string, ExchangeRecord>
  {
    Attached(Exchanges(data), Prices(brokers))
  }

  /** Broker `i` trades ticker `t` on exchange `e`, and no later broker does. */
  predicate LastTrader(brokers: seq<BrokerData>, e: string, t: string, i: int)
  {
    0 <= i < |brokers| && brokers[i].exchange == e && brokers[i].ticker == t
    && forall j :: i < j < |brokers| ==> !(brokers[j].exchange == e && brokers[j].ticker == t)
  }

  /** The file lists exactly the exchange section's codes. An exchange no broker trades on
      keeps an empty table; otherwise its table lists exactly the tickers traded there, each
      with the record of the last broker for that pair. Brokers on unknown exchanges are
      dropped. */
  lemma ExtractExchangesMeaning(data: seq<ExchangeData>, brokers: seq<BrokerData>)
    ensures var r := ExtractExchanges(data, brokers);
      && (forall c :: c in r <==> exists i :: 0 <= i < |data| && data[i].code == c)
      && (forall c | c in r :: r[c].code == c)
      && (forall c | c in r && !TradesOn(brokers, c) :: r[c].prices == map[])
      && (forall c, t | c in r :: t in r[c].prices <==> Trades(brokers, c, t))
      && (forall c, t | c in r && t in r[c].prices ::
            exists i :: LastTrader(brokers, c, t, i) && r[c].prices[t] == BuildPrice(brokers[i]))
  {
    var r := ExtractExchanges(data, brokers);
    ExchangesMeaning(data);
    PricesKeys(brokers);
    forall c, t | c in r && t in r[c].prices
      ensures exists i :: LastTrader(brokers, c, t, i) && r[c].prices[t] == BuildPrice(brokers[i])
    {
      var i :| 0 <= i < |brokers| && brokers[i].exchange == c && brokers[i].ticker == t;
      var last := LastTrade(brokers, c, t, i);
      PricesLast(brokers, last);
    }
  }

  /** Every exchange of the file makes a `Market`: each of its records reads as a price. */
  lemma ExtractedMarketsBuild(data: seq<ExchangeData>, brokers: seq<BrokerData>)
    ensures var r := ExtractExchanges(data, brokers);
      forall c | c in r :: AllPriced(r[c].prices)
  {
    var r := ExtractExchanges(data, brokers);
    ExchangesMeaning(data);
    PricesKeys(brokers);
    forall c, t | c in r && t in r[c].prices
      ensures NewPrice(r[c].prices[t]).Ok?
    {
      var i :| 0 <= i < |brokers| && brokers[i].exchange == c && brokers[i].ticker == t;
      var last := LastTrade(brokers, c, t, i);
      PricesLast(brokers, last);
      BuiltPriceReads(brokers[last]);
    }
  }

  /** The last broker trading a pair that some broker trades. */
  lemma {:induction false} LastTrade(brokers: seq<BrokerData>, e: string, t: string, i: nat) returns (last: nat)
    requires i < |brokers| && brokers[i].exchange == e && brokers[i].ticker == t
    ensures i <= last < |brokers| && brokers[last].exchange == e && brokers[last].ticker == t
    ensures forall j :: last < j < |brokers| ==> !(brokers[j].exchange == e && brokers[j].ticker == t)
    decreases |brokers| - i
  {
    if exists j :: i < j < |brokers| && brokers[j].exchange == e && brokers[j].ticker == t {
      var j :| i < j < |brokers| && brokers[j].exchange == e && brokers[j].ticker == t;
      last := LastTrade(brokers, e, t, j);
    } else {
      last := i;
    }
  }

  /** main without the file I/O: the exchanges, the prices, then the merge. */
  method Extract(data: seq<ExchangeData>, brokers: seq<BrokerData>) returns (r: map<string, ExchangeRecord>)
    ensures r == ExtractExchanges(data, brokers)
  {
    var exchanges := LoadExchanges(data);
    var prices := LoadPrices(brokers);
    r := AttachPrices(exchanges, prices);
  }
}
