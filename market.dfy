/** Market prices (market.py). A `Price` holds six optional numbers; `multiply` and
    `add` work field by field on last/ask/bid/avg with a missing (or zero) field counted
    as 0.0 and copy supply and demand from the left operand. A `Market` is the table of
    prices of one exchange, fixed once built. */
module Markets {
  import opened Wrappers

  datatype Price = Price(
    last: Option<real>, ask: Option<real>, bid: Option<real>, avg: Option<real>,
    supply: Option<real>, demand: Option<real>)

  /** A price record as stored in the exchange data: field name -> value or null. */
  type Record = map<string, Option<real>>

  /** One exchange of the exchange data: its identity and the price record per ticker. */
  datatype ExchangeRecord = ExchangeRecord(code: string, name: string, currency: string, prices: map<string, Record>)

  /** `Price()`: every field 0. */
  const Zero := Price(Some(0.0), Some(0.0), Some(0.0), Some(0.0), Some(0.0), Some(0.0))

  predicate HasPriceFields(data: Record)
  {
    "last" in data && "avg" in data && "ask" in data && "bid" in data && "supply" in data && "demand" in data
  }

  /** `Price(pricedata)`: an empty record gives all zeros; otherwise the six fields are read
      in the order last, avg, ask, bid, supply, demand, and the first missing one raises. */
  function NewPrice(data: Record): (r: Result<Price>)
    ensures |data| == 0 ==> r == Ok(Zero)
    ensures |data| > 0 ==> (r.Ok? <==> HasPriceFields(data))
    ensures |data| > 0 && r.Ok? ==>
      r.value == Price(data["last"], data["ask"], data["bid"], data["avg"], data["supply"], data["demand"])
    ensures r.Err? ==> r.error.KeyNotFound? && r.error.key !in data
  {
    if |data| == 0 then Ok(Zero)
    else if "last" !in data then Err(KeyNotFound("last"))
    else if "avg" !in data then Err(KeyNotFound("avg"))
    else if "ask" !in data then Err(KeyNotFound("ask"))
    else if "bid" !in data then Err(KeyNotFound("bid"))
    else if "supply" !in data then Err(KeyNotFound("supply"))
    else if "demand" !in data then Err(KeyNotFound("demand"))
    else Ok(Price(data["last"], data["ask"], data["bid"], data["avg"], data["supply"], data["demand"]))
  }

  /** `_handle_none`: a falsy value (missing or zero) counts as 0.0. */
  function HandleNone(v: Option<real>): (r: real)
    ensures v.Some? ==> r == v.value
    ensures v.None? ==> r == 0.0
  {
    if v.Some? && v.value != 0.0 then v.value else 0.0
  }

  /** The four price fields as numbers. */
  function Values(p: Price): seq<real>
  {
    [HandleNone(p.last), HandleNone(p.ask), HandleNone(p.bid), HandleNone(p.avg)]
  }

  /** No missing value among the four price fields. */
  predicate Complete(p: Price)
  {
    p.last.Some? && p.ask.Some? && p.bid.Some? && p.avg.Some?
  }

  /** `multiply(factor)`: every price field scaled; supply and demand are carried over. */
  function Multiply(p: Price, factor: real): Price
  {
    Price(Some(HandleNone(p.last) * factor), Some(HandleNone(p.ask) * factor),
          Some(HandleNone(p.bid) * factor), Some(HandleNone(p.avg) * factor),
          p.supply, p.demand)
  }

  /** `add(other)`: the price fields summed; supply and demand are the left operand's. */
  function Add(p: Price, q: Price): Price
  {
    Price(Some(HandleNone(p.last) + HandleNone(q.last)), Some(HandleNone(p.ask) + HandleNone(q.ask)),
          Some(HandleNone(p.bid) + HandleNone(q.bid)), Some(HandleNone(p.avg) + HandleNone(q.avg)),
          p.supply, p.demand)
  }

  /** A product has every price field, each the field scaled by the factor (a missing or
      zero field counting as 0.0), and keeps supply and demand. */
  lemma MultiplyValues(p: Price, factor: real)
    ensures var r := Multiply(p, factor);
      && Complete(r)
      && Values(r) == [Values(p)[0] * factor, Values(p)[1] * factor, Values(p)[2] * factor, Values(p)[3] * factor]
      && r.supply == p.supply && r.demand == p.demand
  {
    var r := Multiply(p, factor);
    assert HandleNone(r.last) == Values(p)[0] * factor && HandleNone(r.ask) == Values(p)[1] * factor;
    assert HandleNone(r.bid) == Values(p)[2] * factor && HandleNone(r.avg) == Values(p)[3] * factor;
  }

  /** A sum has every price field, each the sum of the operands' fields, and keeps the left
      operand's supply and demand. */
  lemma AddValues(p: Price, q: Price)
    ensures var r := Add(p, q);
      && Complete(r)
      && Values(r) == [Values(p)[0] + Values(q)[0], Values(p)[1] + Values(q)[1],
                       Values(p)[2] + Values(q)[2], Values(p)[3] + Values(q)[3]]
      && r.supply == p.supply && r.demand == p.demand
  {
  }

  /** `add` commutes on the price fields, and on the whole price exactly when both
      operands carry the same supply and demand. */
  lemma AddCommutes(p: Price, q: Price)
    ensures Values(Add(p, q)) == Values(Add(q, p))
    ensures Add(p, q) == Add(q, p) <==> p.supply == q.supply && p.demand == q.demand
  {
    if Add(p, q) == Add(q, p) {
      assert Add(p, q).supply == Add(q, p).supply;
    }
  }

  /** `Price()` is a two-sided identity for `add` on the price fields. */
  lemma ZeroIsIdentity(p: Price)
    ensures Values(Add(Zero, p)) == Values(p)
    ensures Values(Add(p, Zero)) == Values(p)
    ensures Complete(p) ==> Add(p, Zero) == p
  {
  }

  lemma AddAssociates(p: Price, q: Price, s: Price)
    ensures Add(Add(p, q), s) == Add(p, Add(q, s))
  {
  }

  /** Two amounts of one price add up to the price of their sum: the accumulations of the
      ledger summary therefore equal one multiplication by the summed count. */
  lemma MultiplyDistributes(p: Price, a: real, b: real)
    ensures Add(Multiply(p, a), Multiply(p, b)) == Multiply(p, a + b)
  {
    assert HandleNone(p.last) * a + HandleNone(p.last) * b == HandleNone(p.last) * (a + b);
    assert HandleNone(p.ask) * a + HandleNone(p.ask) * b == HandleNone(p.ask) * (a + b);
    assert HandleNone(p.bid) * a + HandleNone(p.bid) * b == HandleNone(p.bid) * (a + b);
    assert HandleNone(p.avg) * a + HandleNone(p.avg) * b == HandleNone(p.avg) * (a + b);
  }

  lemma MultiplyByOne(p: Price)
    ensures Values(Multiply(p, 1.0)) == Values(p)
    ensures Complete(p) ==> Multiply(p, 1.0) == p
  {
  }

  // ---------------------------------------------------------------------------------
  // The market

  datatype Market = Market(prices: map<string, Price>)

  /** Every record of an exchange makes a price. */
  predicate AllPriced(records: map<string, Record>)
  {
    forall t | t in records :: NewPrice(records[t]).Ok?
  }

  /** `price(product)`: the stored price, or the "not found" exception. */
  function Lookup(m: Market, product: string): (r: Result<Price>)
    ensures r.Ok? <==> product in m.prices
    ensures r.Ok? ==> r.value == m.prices[product]
    ensures r.Err? ==> r.error == PriceNotFound(product)
  {
    if product in m.prices then Ok(m.prices[product]) else Err(PriceNotFound(product))
  }

  /** `Market(marketdata, exchange)`: one `Price` per record under the exchange's prices,
      read in `order`, the order in which the exchange data lists its tickers; the first
      record that does not read raises its error. */
  method NewMarket(data: map<string, ExchangeRecord>, exchange: string, order: seq<string>) returns (r: Result<Market>)
    requires exchange in data ==> forall t :: t in data[exchange].prices <==> t in order
    ensures r.Ok? <==> exchange in data && AllPriced(data[exchange].prices)
    ensures r.Ok? ==> r.value.prices.Keys == data[exchange].prices.Keys
    ensures r.Ok? ==> forall t | t in r.value.prices :: Ok(r.value.prices[t]) == NewPrice(data[exchange].prices[t])
    ensures r.Err? && exchange in data ==>
      exists i | 0 <= i < |order| && order[i] in data[exchange].prices ::
        && NewPrice(data[exchange].prices[order[i]]) == Err(r.error)
        && forall j | 0 <= j < i && order[j] in data[exchange].prices :: NewPrice(data[exchange].prices[order[j]]).Ok?
    ensures r.Err? && exchange !in data ==> r.error == KeyNotFound(exchange)
  {
    if exchange !in data {
      return Err(KeyNotFound(exchange));
    }
    var records := data[exchange].prices;
    var prices: map<string, Price> := map[];
    var k := 0;
    while k < |order|
      invariant 0 <= k <= |order|
      invariant forall j | 0 <= j < k :: order[j] in prices
      invariant forall t | t in prices :: t in records && Ok(prices[t]) == NewPrice(records[t])
      invariant forall j | 0 <= j < k :: NewPrice(records[order[j]]).Ok?
    {
      var product := order[k];
      var price := NewPrice(records[product]);
      if price.Err? {
        return Err(price.error);
      }
      prices := prices[product := price.value];
      k := k + 1;
    }
    return Ok(Market(prices));
  }

  /** Looking a ticker up in a freshly built market gives the price its record describes. */
  lemma LookupInBuilt(m: Market, records: map<string, Record>, product: string)
    requires m.prices.Keys == records.Keys
    requires forall t | t in m.prices :: Ok(m.prices[t]) == NewPrice(records[t])
    ensures Lookup(m, product).Ok? <==> product in records
    ensures product in records ==> Lookup(m, product) == NewPrice(records[product])
  {
  }
}
