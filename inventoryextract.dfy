/** extract-inventory-data.py: the inventory file is the per-ticker total of the item
    amounts held in the stores of type 'STORE'; every other store is skipped. */
module InventoryExtract {
  import opened Inventories

  /** One item of a store: its quantity's material ticker and amount. */
  datatype StoreItem = StoreItem(ticker: string, amount: real)

  /** One store of the storage section: its type and its items. */
  datatype Store = Store(kind: string, items: seq<StoreItem>)

  /** The inner loop: each item's amount added to its ticker's running total. */
  function ItemsAdded(inventory: Stock, items: seq<StoreItem>): Stock
  {
    if |items| == 0 then inventory
    else
      var last := items[|items| - 1];
      Added(ItemsAdded(inventory, items[..|items| - 1]), last.ticker, last.amount)
  }

  /** One turn of the outer loop: only a STORE store's items are counted. */
  function StoreStep(inventory: Stock, store: Store): Stock
  {
    if store.kind == "STORE" then ItemsAdded(inventory, store.items) else inventory
  }

  /** The inventory after the outer loop over all stores. */
  function Totals(stores: seq<Store>): Stock
  {
    if |stores| == 0 then map[]
    else StoreStep(Totals(stores[..|stores| - 1]), stores[|stores| - 1])
  }

  // ---------------------------------------------------------------------------------
  // Reference sums

  /** The summed amount of the items carrying ticker `t`. */
  function Sum(items: seq<StoreItem>, t: string): real
  {
    if |items| == 0 then 0.0
    else Sum(items[..|items| - 1], t) + (if items[|items| - 1].ticker == t then items[|items| - 1].amount else 0.0)
  }

  /** The summed amount of ticker `t` over the STORE stores. */
  function StoreSum(stores: seq<Store>, t: string): real
  {
    if |stores| == 0 then 0.0
    else
      var s := stores[|stores| - 1];
      StoreSum(stores[..|stores| - 1], t) + (if s.kind == "STORE" then Sum(s.items, t) else 0.0)
  }

  /** The tickers carried by some item of the list. */
  function ItemTickers(items: seq<StoreItem>): set<string>
  {
    set j | 0 <= j < |items| :: items[j].ticker
  }

  /** The tickers carried by some item of some STORE store. */
  function StoreTickers(stores: seq<Store>): set<string>
  {
    set s, j | 0 <= s < |stores| && stores[s].kind == "STORE" && 0 <= j < |stores[s].items| :: stores[s].items[j].ticker
  }

  /** Adding a list of items adds exactly its tickers as keys and raises each ticker's count
      by the sum of its items' amounts. */
  lemma {:induction false} ItemsAddedMeaning(inventory: Stock, items: seq<StoreItem>)
    ensures ItemsAdded(inventory, items).Keys == inventory.Keys + ItemTickers(items)
    ensures forall t :: CountOf(ItemsAdded(inventory, items), t) == CountOf(inventory, t) + Sum(items, t)
  {
    if |items| > 0 {
      var n := |items| - 1;
      var pre := items[..n];
      ItemsAddedMeaning(inventory, pre);
      assert ItemTickers(items) == ItemTickers(pre) + {items[n].ticker} by {
        assert forall j :: 0 <= j < n ==> pre[j] == items[j];
      }
    }
  }

  /** The stock tickers grow by a STORE store's own item tickers and by nothing else. */
  lemma StoreTickersStep(stores: seq<Store>)
    requires |stores| > 0
    ensures var n := |stores| - 1; var s := stores[n];
      StoreTickers(stores) == StoreTickers(stores[..n]) + (if s.kind == "STORE" then ItemTickers(s.items) else {})
  {
    var n := |stores| - 1;
    var pre := stores[..n];
    assert forall i :: 0 <= i < n ==> pre[i] == stores[i];
  }

  /** The inventory holds exactly the tickers of the items in STORE stores, and each
      ticker's total is the sum of its amounts over those stores (0 for the others). */
  lemma {:induction false} TotalsMeaning(stores: seq<Store>)
    ensures Totals(stores).Keys == StoreTickers(stores)
    ensures forall t :: CountOf(Totals(stores), t) == StoreSum(stores, t)
  {
    if |stores| > 0 {
      var n := |stores| - 1;
      TotalsMeaning(stores[..n]);
      StoreTickersStep(stores);
      ItemsAddedMeaning(Totals(stores[..n]), stores[n].items);
    }
  }

  /** Tickers found in no STORE store do not appear: there are no zero placeholder entries. */
  lemma OnlyStoredTickers(stores: seq<Store>, t: string)
    requires forall s, j :: 0 <= s < |stores| && stores[s].kind == "STORE" && 0 <= j < |stores[s].items| ==>
      stores[s].items[j].ticker != t
    ensures t !in Totals(stores)
  {
    TotalsMeaning(stores);
  }

  /** The outer loop of main, with the item loop inside. */
  method SummarizeStores(stores: seq<Store>) returns (inventory: Stock)
    ensures inventory == Totals(stores)
  {
    inventory := map[];
    var k := 0;
    while k < |stores|
      invariant 0 <= k <= |stores|
      invariant inventory == Totals(stores[..k])
    {
      assert stores[..k + 1][..k] == stores[..k];
      var store := stores[k];
      if store.kind == "STORE" {
        ghost var before := inventory;
        var j := 0;
        while j < |store.items|
          invariant 0 <= j <= |store.items|
          invariant inventory == ItemsAdded(before, store.items[..j])
        {
          assert store.items[..j + 1][..j] == store.items[..j];
          var ticker := store.items[j].ticker;
          var amount := store.items[j].amount;
          if ticker in inventory {
            inventory := inventory[ticker := inventory[ticker] + amount];
          } else {
            inventory := inventory[ticker := amount];
          }
          j := j + 1;
        }
        assert store.items[..j] == store.items;
      }
      k := k + 1;
    }
    assert stores[..k] == stores;
  }
}
