/** The shared stock of materials (inventory.py): a ticker -> quantity map with an
    unconditional `add` and a checked `remove`. The value-level functions say what each
    operation does to the map; the `Inventory` class performs it on its field. */
module Inventories {
  import opened Wrappers

  type Stock = map<string, real>

  /** `count(item)`: the stored quantity, 0 for an absent ticker. */
  function CountOf(items: Stock, item: string): real
  {
    if item in items then items[item] else 0.0
  }

  /** `has(item, count)`: present and at least `count` on hand. */
  predicate HasIn(items: Stock, item: string, count: real)
  {
    item in items && items[item] >= count
  }

  predicate NonNegative(items: Stock)
  {
    forall t | t in items :: items[t] >= 0.0
  }

  /** An absent ticker counts 0, yet `has` fails for it whatever the amount asked, even for
      an amount of 0 or less. */
  lemma AbsentTicker(items: Stock, item: string, count: real)
    requires item !in items
    ensures CountOf(items, item) == 0.0
    ensures !HasIn(items, item, count)
  {
  }

  /** For a present ticker, `has` is exactly "the count covers the amount". */
  lemma PresentTicker(items: Stock, item: string, count: real)
    requires item in items
    ensures HasIn(items, item, count) <==> CountOf(items, item) >= count
  {
  }

  /** The map after `add(item, count)`. */
  function Added(items: Stock, item: string, count: real): (r: Stock)
    ensures r.Keys == items.Keys + {item}
    ensures CountOf(r, item) == CountOf(items, item) + count
    ensures forall t | t in items && t != item :: r[t] == items[t]
  {
    if item !in items then items[item := count] else items[item := items[item] + count]
  }

  /** The map after a successful `remove(item, count)`, or `None` when it fails. */
  function Removed(items: Stock, item: string, count: real): (r: Option<Stock>)
    ensures r.Some? <==> HasIn(items, item, count)
    ensures r.Some? ==> r.value.Keys == items.Keys
    ensures r.Some? ==> CountOf(r.value, item) == CountOf(items, item) - count && r.value[item] >= 0.0
    ensures r.Some? ==> forall t | t in items && t != item :: r.value[t] == items[t]
  {
    if item in items && items[item] >= count then Some(items[item := items[item] - count]) else None
  }

  /** Adding and then removing the same amount succeeds and restores every count; a ticker
      that was absent is now present with 0. */
  lemma AddThenRemove(items: Stock, item: string, count: real)
    requires item in items ==> items[item] >= 0.0
    ensures Removed(Added(items, item, count), item, count) == Some(items[item := CountOf(items, item)])
  {
    var a := Added(items, item, count);
    var r := Removed(a, item, count);
    var want := items[item := CountOf(items, item)];
    assert r.Some?;
    assert r.value.Keys == want.Keys;
    assert r.value[item] == want[item];
    assert forall t | t in want && t != item :: r.value[t] == want[t];
    assert r.value == want;
  }

  /** A sequence of inventory operations, as the production lines issue them. */
  datatype Op = AddOp(item: string, count: real) | RemoveOp(item: string, count: real)

  /** The map after one operation; a failed remove changes nothing. */
  function Apply(items: Stock, op: Op): Stock
  {
    match op
    case AddOp(t, n) => Added(items, t, n)
    case RemoveOp(t, n) => var r := Removed(items, t, n); if r.Some? then r.value else items
  }

  function Replay(items: Stock, ops: seq<Op>): Stock
    decreases |ops|
  {
    if |ops| == 0 then items else Replay(Apply(items, ops[0]), ops[1..])
  }

  /** Replaying one more operation applies it to the replayed map. */
  lemma {:induction false} ReplayAppend(items: Stock, ops: seq<Op>, op: Op)
    ensures Replay(items, ops + [op]) == Apply(Replay(items, ops), op)
    decreases |ops|
  {
    if |ops| == 0 {
      assert ops + [op] == [op];
      assert [op][1..] == [];
    } else {
      assert (ops + [op])[0] == ops[0];
      assert (ops + [op])[1..] == ops[1..] + [op];
      ReplayAppend(Apply(items, ops[0]), ops[1..], op);
    }
  }

  predicate AddsNonNegative(ops: seq<Op>)
  {
    forall k :: 0 <= k < |ops| && ops[k].AddOp? ==> ops[k].count >= 0.0
  }

  /** No quantity ever goes negative when only non-negative amounts are added, whatever
      is removed: the guard of `remove` blocks every overdraft. */
  lemma {:induction false} ReplayKeepsNonNegative(items: Stock, ops: seq<Op>)
    requires NonNegative(items) && AddsNonNegative(ops)
    ensures NonNegative(Replay(items, ops))
    decreases |ops|
  {
    if |ops| > 0 {
      var next := Apply(items, ops[0]);
      assert NonNegative(next);
      assert forall k :: 1 <= k < |ops| ==> ops[1..][k - 1] == ops[k];
      ReplayKeepsNonNegative(next, ops[1..]);
    }
  }

  class Inventory {
    var items: Stock

    /** The map is taken as given (see README on aliasing). */
    constructor(items: Stock)
      ensures this.items == items
    {
      this.items := items;
    }

    function Count(item: string): real
      reads this
    {
      CountOf(items, item)
    }

    predicate Has(item: string, count: real)
      reads this
    {
      HasIn(items, item, count)
    }

    method Add(item: string, count: real) returns (ok: bool)
      modifies this
      ensures ok
      ensures items == Added(old(items), item, count)
    {
      if item !in items {
        items := items[item := count];
      } else {
        items := items[item := items[item] + count];
      }
      ok := true;
    }

    method Remove(item: string, count: real) returns (ok: bool)
      modifies this
      ensures ok == HasIn(old(items), item, count)
      ensures ok ==> Removed(old(items), item, count) == Some(items)
      ensures !ok ==> items == old(items)
    {
      if item in items && items[item] >= count {
        items := items[item := items[item] - count];
        return true;
      }
      return false;
    }
  }
}
