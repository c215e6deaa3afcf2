/** The production ledger (ledger.py): an append-only list of tagged entries, the first
    and latest efficiency seen ("bookends"), a merge of two ledgers, and the summary
    fold over the entries. */
module Ledgers {
  import opened Wrappers
  import opened Markets
  import Clock

  /** The `state` values of a STATUS entry. */
  const ACTIVE := 1
  const INACTIVE := 0

  /** An entry's type tag together with the keyword fields the summary reads for it. */
  datatype Body =
    | Status(state: int)
    | Efficiency(value: real)
    | Output(product: string, count: real)
    | Input(product: string, count: real)
    | PurchaseInput(product: string, count: real, line: string, bnum: string, need: real, available: real)
    | PurchaseSupply(product: string, count: real, line: string, need: real, available: real)
    | MissingInput(ticker: string, count: real, line: string, bnum: string, need: real, available: real)
    | MissingSupply(ticker: string, count: real, line: string, need: real, available: real)
    // any entry type that none of the branches of `summarize_ledger` handles
    | Other(itemType: string)

  datatype Entry = Entry(clock: string, description: string, body: Body)

  // ---------------------------------------------------------------------------------
  // Efficiency bookends

  datatype Bookends = Bookends(start: Option<real>, end: Option<real>)

  /** The efficiency values of the entries, in entry order. */
  function EfficiencyValues(es: seq<Entry>): seq<real>
  {
    if |es| == 0 then []
    else
      var last := es[|es| - 1].body;
      EfficiencyValues(es[..|es| - 1]) + if last.Efficiency? then [last.value] else []
  }

  function First(s: seq<real>): Option<real>
  {
    if |s| == 0 then None else Some(s[0])
  }

  function Last(s: seq<real>): Option<real>
  {
    if |s| == 0 then None else Some(s[|s| - 1])
  }

  /** What `add` does to the bookends. */
  function Booked(b: Bookends, body: Body): Bookends
  {
    if body.Efficiency? then Bookends(if b.start.None? then Some(body.value) else b.start, Some(body.value))
    else b
  }

  function BookedAll(b: Bookends, es: seq<Entry>): Bookends
  {
    if |es| == 0 then b else Booked(BookedAll(b, es[..|es| - 1]), es[|es| - 1].body)
  }

  /** A ledger filled by `add` alone holds the first and the latest efficiency value. */
  lemma {:induction false} BookendsOfAdds(es: seq<Entry>)
    ensures BookedAll(Bookends(None, None), es) ==
            Bookends(First(EfficiencyValues(es)), Last(EfficiencyValues(es)))
  {
    if |es| > 0 {
      var pre := es[..|es| - 1];
      BookendsOfAdds(pre);
      var body := es[|es| - 1].body;
      if body.Efficiency? {
        assert EfficiencyValues(es) == EfficiencyValues(pre) + [body.value];
        if |EfficiencyValues(pre)| > 0 {
          assert EfficiencyValues(es)[0] == EfficiencyValues(pre)[0];
        }
      } else {
        assert EfficiencyValues(es) == EfficiencyValues(pre);
      }
    }
  }

  /** One bookend of `add_ledger`: take the other's value when this one has none, average
      when both are present. */
  function MergeBookend(mine: Option<real>, theirs: Option<real>): (r: Option<real>)
    ensures r.Some? <==> mine.Some? || theirs.Some?
    ensures mine.None? ==> r == theirs
    ensures theirs.None? ==> r == mine
    ensures mine.Some? && theirs.Some? ==> r.value == (mine.value + theirs.value) / 2.0
    ensures mine.Some? && theirs.Some? ==>
      (mine.value <= r.value <= theirs.value || theirs.value <= r.value <= mine.value)
  {
    if mine.None? then theirs
    else if theirs.Some? then Some((mine.value + theirs.value) / 2.0)
    else mine
  }

  /** The bookends are present exactly when the entries hold an efficiency value. */
  ghost predicate BookendsMatch(b: Bookends, es: seq<Entry>)
  {
    (b.start.Some? <==> |EfficiencyValues(es)| > 0) && (b.end.Some? <==> |EfficiencyValues(es)| > 0)
  }

  lemma {:induction false} EfficiencyValuesAppend(a: seq<Entry>, b: seq<Entry>)
    ensures EfficiencyValues(a + b) == EfficiencyValues(a) + EfficiencyValues(b)
    decreases |b|
  {
    if |b| == 0 {
      assert a + b == a;
    } else {
      var pre := b[..|b| - 1];
      assert (a + b)[..|a + b| - 1] == a + pre;
      assert (a + b)[|a + b| - 1] == b[|b| - 1];
      EfficiencyValuesAppend(a, pre);
    }
  }

  /** `add_ledger` keeps the bookends matched to the entries. */
  lemma MergeKeepsBookendsMatched(b: Bookends, es: seq<Entry>, c: Bookends, fs: seq<Entry>)
    requires BookendsMatch(b, es) && BookendsMatch(c, fs)
    ensures BookendsMatch(Bookends(MergeBookend(b.start, c.start), MergeBookend(b.end, c.end)), es + fs)
  {
    EfficiencyValuesAppend(es, fs);
  }

  // ---------------------------------------------------------------------------------
  // Summary

  datatype Tally = Tally(count: real, value: Price)
  type Table = map<string, Tally>

  /** One line of `missing_inputs` / `missing_supplies`, kept as its fields: the clock, the
      line (and building number for inputs), whether it was a purchase, the amount, the
      material, what was needed and what was on hand. */
  datatype Notice = Notice(clock: string, line: string, bnum: Option<string>, purchased: bool,
                           count: real, item: string, need: real, available: real)

  /** The local accumulators of `summarize_ledger`. */
  datatype Acc = Acc(
    totalCycles: nat, activeCycles: int, efficiencies: seq<real>,
    production: Table, consumption: Table, netProduction: Table, purchases: Table,
    totalValue: Price, totalCost: Price, totalPurchases: Price,
    missingInputs: seq<Notice>, missingSupplies: seq<Notice>)

  const Start := Acc(0, 0, [], map[], map[], map[], map[], Zero, Zero, Zero, [], [])

  /** `table[product]['count'] += count; table[product]['value'] = ….add(value)`, or a new row. */
  function Bump(t: Table, product: string, count: real, value: Price): Table
  {
    if product in t then t[product := Tally(t[product].count + count, Add(t[product].value, value))]
    else t[product := Tally(count, value)]
  }

  /** The loop body of `summarize_ledger` for one entry. */
  function Step(a: Acc, e: Entry, m: Market): Result<Acc>
  {
    match e.body
    case Status(state) =>
      Ok(a.(totalCycles := a.totalCycles + 1, activeCycles := a.activeCycles + state))
    case Efficiency(v) =>
      Ok(a.(efficiencies := a.efficiencies + [v]))
    case Output(p, n) =>
      var price :- Lookup(m, p);
      var value := Multiply(price, n);
      Ok(a.(totalValue := Add(a.totalValue, value),
            production := Bump(a.production, p, n, value),
            netProduction := Bump(a.netProduction, p, n, value)))
    case Input(p, n) =>
      var c := -n;
      var price :- Lookup(m, p);
      var value := Multiply(price, c);
      Ok(a.(totalCost := Add(a.totalCost, value),
            consumption := Bump(a.consumption, p, c, value),
            netProduction := if p in a.netProduction then Bump(a.netProduction, p, c, value)
                             else a.netProduction[p := Tally(-c, value)]))
    case PurchaseInput(p, n, line, bnum, need, available) =>
      var price :- Lookup(m, p);
      var value := Multiply(price, n);
      Ok(a.(totalPurchases := Add(a.totalPurchases, value),
            missingInputs := a.missingInputs + [Notice(e.clock, line, Some(bnum), true, n, p, need, available)],
            purchases := Bump(a.purchases, p, n, value)))
    case PurchaseSupply(p, n, line, need, available) =>
      var price :- Lookup(m, p);
      var value := Multiply(price, n);
      Ok(a.(totalPurchases := Add(a.totalPurchases, value),
            missingSupplies := a.missingSupplies + [Notice(e.clock, line, None, true, n, p, need, available)],
            purchases := Bump(a.purchases, p, n, value)))
    case MissingInput(t, n, line, bnum, need, available) =>
      Ok(a.(missingInputs := a.missingInputs + [Notice(e.clock, line, Some(bnum), false, n, t, need, available)]))
    case MissingSupply(t, n, line, need, available) =>
      Ok(a.(missingSupplies := a.missingSupplies + [Notice(e.clock, line, None, false, n, t, need, available)]))
    case Other(_) =>
      Ok(a)
  }

  /** The loop of `summarize_ledger`: the accumulators after the given entries, or the
      first price lookup that fails. */
  function Fold(es: seq<Entry>, m: Market): Result<Acc>
  {
    if |es| == 0 then Ok(Start)
    else
      var a :- Fold(es[..|es| - 1], m);
      Step(a, es[|es| - 1], m)
  }

  datatype EffStats = EffStats(mean: real, min: real, max: real, start: real, end: real, delta: real)

  datatype Summary = Summary(
    totalCycles: nat, activeCycles: int, uptime: real, efficiencies: Option<EffStats>,
    production: Table, consumption: Table, netProduction: Table, purchases: Table,
    totalValue: Price, totalCost: Price, totalGainLoss: Price, totalPurchases: Price,
    missingInputs: seq<Notice>, missingSupplies: seq<Notice>)

  function Sum(s: seq<real>): real
  {
    if |s| == 0 then 0.0 else Sum(s[..|s| - 1]) + s[|s| - 1]
  }

  function Min(s: seq<real>): (r: real)
    requires |s| > 0
    ensures forall k :: 0 <= k < |s| ==> r <= s[k]
    ensures exists k :: 0 <= k < |s| && r == s[k]
  {
    if |s| == 1 then s[0]
    else
      var m := Min(s[..|s| - 1]);
      assert forall k :: 0 <= k < |s| - 1 ==> s[..|s| - 1][k] == s[k];
      if s[|s| - 1] < m then s[|s| - 1] else m
  }

  function Max(s: seq<real>): (r: real)
    requires |s| > 0
    ensures forall k :: 0 <= k < |s| ==> s[k] <= r
    ensures exists k :: 0 <= k < |s| && r == s[k]
  {
    if |s| == 1 then s[0]
    else
      var m := Max(s[..|s| - 1]);
      assert forall k :: 0 <= k < |s| - 1 ==> s[..|s| - 1][k] == s[k];
      if s[|s| - 1] > m then s[|s| - 1] else m
  }

  /** A sum lies between `n * lo` and `n * hi` when every term does. */
  lemma {:induction false} SumBounds(s: seq<real>, lo: real, hi: real)
    requires forall k :: 0 <= k < |s| ==> lo <= s[k] <= hi
    ensures |s| as real * lo <= Sum(s) <= |s| as real * hi
  {
    if |s| > 0 {
      var pre := s[..|s| - 1];
      assert forall k :: 0 <= k < |pre| ==> pre[k] == s[k];
      SumBounds(pre, lo, hi);
    }
  }

  /** A total between `n * lo` and `n * hi` has its mean between `lo` and `hi`. */
  lemma MeanBounds(total: real, n: real, lo: real, hi: real)
    requires n > 0.0 && n * lo <= total <= n * hi
    ensures lo <= total / n <= hi
  {
    var q := total / n;
    assert q * n == total;
    assert (q - lo) * n >= 0.0;
    assert (hi - q) * n >= 0.0;
  }

  /** `_summarize_efficiencies`: nothing without values; otherwise mean, min, max, the
      bookends and their difference, which fails when a bookend is missing. */
  function SummarizeEfficiencies(effs: seq<real>, b: Bookends): (r: Result<Option<EffStats>>)
    ensures |effs| == 0 ==> r == Ok(None)
    ensures |effs| > 0 ==> (r.Ok? <==> b.start.Some? && b.end.Some?)
    ensures r.Err? ==> r.error == NoneArithmetic
    ensures r.Ok? && |effs| > 0 ==> r.value.Some?
    ensures r.Ok? && r.value.Some? ==>
      var s := r.value.value;
      && s.mean == Sum(effs) / |effs| as real
      && s.min <= s.mean <= s.max
      && (forall k :: 0 <= k < |effs| ==> s.min <= effs[k] <= s.max)
      && (exists k :: 0 <= k < |effs| && s.min == effs[k])
      && (exists k :: 0 <= k < |effs| && s.max == effs[k])
      && s.start == b.start.value && s.end == b.end.value && s.delta == s.end - s.start
  {
    if |effs| == 0 then Ok(None)
    else if b.start.None? || b.end.None? then Err(NoneArithmetic)
    else
      var n := |effs| as real;
      var lo := Min(effs);
      var hi := Max(effs);
      SumBounds(effs, lo, hi);
      MeanBounds(Sum(effs), n, lo, hi);
      var mean := Sum(effs) / n;
      Ok(Some(EffStats(mean, lo, hi, b.start.value, b.end.value, b.end.value - b.start.value)))
  }

  /** `summarize_ledger`: the fold, then the uptime ratio (a division by zero without
      STATUS entries) and the efficiency statistics. */
  function Summarize(es: seq<Entry>, m: Market, b: Bookends): Result<Summary>
  {
    var a :- Fold(es, m);
    if a.totalCycles == 0 then Err(ZeroDivision)
    else
      var effs :- SummarizeEfficiencies(a.efficiencies, b);
      Ok(Summary(a.totalCycles, a.activeCycles, a.activeCycles as real / a.totalCycles as real, effs,
                 a.production, a.consumption, a.netProduction, a.purchases,
                 a.totalValue, a.totalCost, Add(a.totalValue, a.totalCost), a.totalPurchases,
                 a.missingInputs, a.missingSupplies))
  }

  // ---------------------------------------------------------------------------------
  // What the fold computes, entry kind by entry kind

  function CountStatus(es: seq<Entry>): nat
  {
    if |es| == 0 then 0 else CountStatus(es[..|es| - 1]) + if es[|es| - 1].body.Status? then 1 else 0
  }

  function SumStates(es: seq<Entry>): int
  {
    if |es| == 0 then 0
    else SumStates(es[..|es| - 1]) + if es[|es| - 1].body.Status? then es[|es| - 1].body.state else 0
  }

  /** The entries whose product the summary prices. */
  predicate IsPriced(b: Body)
  {
    b.Output? || b.Input? || b.PurchaseInput? || b.PurchaseSupply?
  }

  predicate PricesKnown(es: seq<Entry>, m: Market)
  {
    forall k :: 0 <= k < |es| && IsPriced(es[k].body) ==> es[k].body.product in m.prices
  }

  datatype Kind = Produced | Consumed | Purchased

  predicate Counts(b: Body, kind: Kind, p: string)
  {
    match kind
    case Produced => b.Output? && b.product == p
    case Consumed => b.Input? && b.product == p
    case Purchased => (b.PurchaseInput? || b.PurchaseSupply?) && b.product == p
  }

  /** The summed count of the entries of one kind for one product. */
  function Total(es: seq<Entry>, kind: Kind, p: string): real
  {
    if |es| == 0 then 0.0
    else Total(es[..|es| - 1], kind, p) + if Counts(es[|es| - 1].body, kind, p) then es[|es| - 1].body.count else 0.0
  }

  /** Some entry of this kind names the product. */
  predicate Seen(es: seq<Entry>, kind: Kind, p: string)
  {
    exists k :: 0 <= k < |es| && Counts(es[k].body, kind, p)
  }

  /** A product no entry of the kind names has a zero total. */
  lemma {:induction false} TotalUnseen(es: seq<Entry>, kind: Kind, p: string)
    requires !Seen(es, kind, p)
    ensures Total(es, kind, p) == 0.0
  {
    if |es| > 0 {
      var pre := es[..|es| - 1];
      assert forall k :: 0 <= k < |pre| ==> pre[k] == es[k];
      TotalUnseen(pre, kind, p);
    }
  }

  /** The count of the first OUTPUT/INPUT entry of `p` when that entry is an INPUT, else 0:
      the amount by which the net count has the wrong sign. */
  function FlipBonus(es: seq<Entry>, p: string): real
  {
    if |es| == 0 then 0.0
    else
      var pre := es[..|es| - 1];
      var last := es[|es| - 1].body;
      if !Seen(pre, Produced, p) && !Seen(pre, Consumed, p) && Counts(last, Consumed, p) then last.count
      else FlipBonus(pre, p)
  }

  /** Without any OUTPUT or INPUT of `p` there is nothing to flip. */
  lemma {:induction false} FlipBonusUnseen(es: seq<Entry>, p: string)
    requires !Seen(es, Produced, p) && !Seen(es, Consumed, p)
    ensures FlipBonus(es, p) == 0.0
  {
    if |es| > 0 {
      var pre := es[..|es| - 1];
      assert forall k :: 0 <= k < |pre| ==> pre[k] == es[k];
      FlipBonusUnseen(pre, p);
    }
  }

  predicate IsInputNotice(b: Body) { b.PurchaseInput? || b.MissingInput? }
  predicate IsSupplyNotice(b: Body) { b.PurchaseSupply? || b.MissingSupply? }

  function NoticeOf(e: Entry): Notice
    requires IsInputNotice(e.body) || IsSupplyNotice(e.body)
  {
    match e.body
    case PurchaseInput(p, n, line, bnum, need, available) => Notice(e.clock, line, Some(bnum), true, n, p, need, available)
    case PurchaseSupply(p, n, line, need, available) => Notice(e.clock, line, None, true, n, p, need, available)
    case MissingInput(t, n, line, bnum, need, available) => Notice(e.clock, line, Some(bnum), false, n, t, need, available)
    case MissingSupply(t, n, line, need, available) => Notice(e.clock, line, None, false, n, t, need, available)
  }

  /** The notices of the entries selected by `inputs` (or else supplies), in entry order. */
  function Notices(es: seq<Entry>, inputs: bool): seq<Notice>
  {
    if |es| == 0 then []
    else
      var e := es[|es| - 1];
      Notices(es[..|es| - 1], inputs) +
        if (inputs && IsInputNotice(e.body)) || (!inputs && IsSupplyNotice(e.body)) then [NoticeOf(e)] else []
  }

  lemma SeenExtend(es: seq<Entry>, kind: Kind, p: string)
    requires |es| > 0
    ensures Seen(es, kind, p) <==> Seen(es[..|es| - 1], kind, p) || Counts(es[|es| - 1].body, kind, p)
  {
    var pre := es[..|es| - 1];
    if Seen(pre, kind, p) {
      var k :| 0 <= k < |pre| && Counts(pre[k].body, kind, p);
      assert es[k] == pre[k];
    }
    if Seen(es, kind, p) && !Counts(es[|es| - 1].body, kind, p) {
      var k :| 0 <= k < |es| && Counts(es[k].body, kind, p);
      assert k < |pre| && pre[k] == es[k];
    }
  }

  /** The fold fails exactly when a priced entry names a product the market lacks. */
  lemma {:induction false} FoldOkIff(es: seq<Entry>, m: Market)
    ensures Fold(es, m).Ok? <==> PricesKnown(es, m)
    ensures Fold(es, m).Err? ==> Fold(es, m).error.PriceNotFound?
  {
    if |es| > 0 {
      var pre := es[..|es| - 1];
      FoldOkIff(pre, m);
      assert forall k :: 0 <= k < |pre| ==> pre[k] == es[k];
      if Fold(pre, m).Ok? {
        var e := es[|es| - 1];
        assert Step(Fold(pre, m).value, e, m).Ok? <==> (IsPriced(e.body) ==> e.body.product in m.prices);
      }
    }
  }

  /** How one step moves the cycle counters and the efficiency values. */
  lemma StepCounters(a: Acc, e: Entry, m: Market)
    requires Step(a, e, m).Ok?
    ensures var b := Step(a, e, m).value;
      && b.totalCycles == a.totalCycles + (if e.body.Status? then 1 else 0)
      && b.activeCycles == a.activeCycles + (if e.body.Status? then e.body.state else 0)
      && b.efficiencies == a.efficiencies + (if e.body.Efficiency? then [e.body.value] else [])
  {
    match e.body {
      case Status(_) =>
      case Efficiency(_) =>
      case _ =>
    }
  }

  /** How one step extends the notice lists. */
  lemma StepNotices(a: Acc, e: Entry, m: Market)
    requires Step(a, e, m).Ok?
    ensures var b := Step(a, e, m).value;
      && b.missingInputs == a.missingInputs + (if IsInputNotice(e.body) then [NoticeOf(e)] else [])
      && b.missingSupplies == a.missingSupplies + (if IsSupplyNotice(e.body) then [NoticeOf(e)] else [])
  {
    match e.body {
      case PurchaseInput(_, _, _, _, _, _) =>
      case PurchaseSupply(_, _, _, _, _) =>
      case MissingInput(_, _, _, _, _, _) =>
      case MissingSupply(_, _, _, _, _) =>
      case _ =>
    }
  }

  /** Cycles, activity, efficiency values and notices as the fold leaves them. */
  lemma {:induction false} FoldCounts(es: seq<Entry>, m: Market)
    requires Fold(es, m).Ok?
    ensures var a := Fold(es, m).value;
      && a.totalCycles == CountStatus(es)
      && a.activeCycles == SumStates(es)
      && a.efficiencies == EfficiencyValues(es)
      && a.missingInputs == Notices(es, true)
      && a.missingSupplies == Notices(es, false)
  {
    if |es| > 0 {
      var pre := es[..|es| - 1];
      var e := es[|es| - 1];
      FoldCounts(pre, m);
      var a := Fold(pre, m).value;
      assert Fold(es, m) == Step(a, e, m);
      StepCounters(a, e, m);
      StepNotices(a, e, m);
    }
  }

  /** One row of a table that accumulates one product at one price. */
  predicate RowIs(t: Table, p: string, seen: bool, count: real, price: Price, amount: real)
  {
    (p in t <==> seen) && (seen ==> t[p] == Tally(count, Multiply(price, amount)))
  }

  /** The row of `p` is untouched by a step that does not concern it. */
  predicate SameRow(t: Table, u: Table, p: string)
  {
    (p in u <==> p in t) && (p in t ==> u[p] == t[p])
  }

  // ---------------------------------------------------------------------------------
  // One step, by the kind of its entry

  /** An OUTPUT entry adds its value to `total_value` and bumps its product's production
      and net production rows. */
  lemma StepOutput(a: Acc, e: Entry, m: Market)
    requires Step(a, e, m).Ok? && e.body.Output?
    ensures e.body.product in m.prices
    ensures var b := Step(a, e, m).value; var q := e.body.product; var n := e.body.count;
      b.totalValue == Add(a.totalValue, Multiply(m.prices[q], n))
    ensures var b := Step(a, e, m).value; var q := e.body.product; var n := e.body.count;
      b.production == Bump(a.production, q, n, Multiply(m.prices[q], n))
    ensures var b := Step(a, e, m).value; var q := e.body.product; var n := e.body.count;
      b.netProduction == Bump(a.netProduction, q, n, Multiply(m.prices[q], n))
    ensures var b := Step(a, e, m).value;
      b.totalCost == a.totalCost && b.totalPurchases == a.totalPurchases
    ensures var b := Step(a, e, m).value;
      b.consumption == a.consumption && b.purchases == a.purchases
  {
  }

  /** An INPUT entry adds its negated value to `total_cost`, bumps its consumption row by
      the negated count, and bumps its net row, or opens it with the count and the negated
      value. */
  lemma StepInput(a: Acc, e: Entry, m: Market)
    requires Step(a, e, m).Ok? && e.body.Input?
    ensures e.body.product in m.prices
    ensures var b := Step(a, e, m).value; var q := e.body.product; var n := e.body.count;
      b.totalCost == Add(a.totalCost, Multiply(m.prices[q], -n))
    ensures var b := Step(a, e, m).value; var q := e.body.product; var n := e.body.count;
      b.consumption == Bump(a.consumption, q, -n, Multiply(m.prices[q], -n))
    ensures var b := Step(a, e, m).value; var q := e.body.product; var n := e.body.count; var t := a.netProduction;
      b.netProduction ==
        (if q in t then Bump(t, q, -n, Multiply(m.prices[q], -n)) else t[q := Tally(n, Multiply(m.prices[q], -n))])
    ensures var b := Step(a, e, m).value;
      b.totalValue == a.totalValue && b.totalPurchases == a.totalPurchases
    ensures var b := Step(a, e, m).value;
      b.production == a.production && b.purchases == a.purchases
  {
  }

  /** A purchase entry adds its value to `total_purchases` and bumps its purchases row. */
  lemma StepPurchase(a: Acc, e: Entry, m: Market)
    requires Step(a, e, m).Ok? && (e.body.PurchaseInput? || e.body.PurchaseSupply?)
    ensures e.body.product in m.prices
    ensures var b := Step(a, e, m).value; var q := e.body.product; var n := e.body.count;
      b.totalPurchases == Add(a.totalPurchases, Multiply(m.prices[q], n))
    ensures var b := Step(a, e, m).value; var q := e.body.product; var n := e.body.count;
      b.purchases == Bump(a.purchases, q, n, Multiply(m.prices[q], n))
    ensures var b := Step(a, e, m).value;
      b.totalValue == a.totalValue && b.totalCost == a.totalCost
    ensures var b := Step(a, e, m).value;
      b.production == a.production && b.consumption == a.consumption && b.netProduction == a.netProduction
  {
  }

  /** Every other entry leaves the totals and the tables alone. */
  lemma StepUnpriced(a: Acc, e: Entry, m: Market)
    requires Step(a, e, m).Ok? && !e.body.Output? && !e.body.Input? && !e.body.PurchaseInput? && !e.body.PurchaseSupply?
    ensures var b := Step(a, e, m).value;
      b.totalValue == a.totalValue && b.totalCost == a.totalCost && b.totalPurchases == a.totalPurchases
    ensures var b := Step(a, e, m).value;
      b.production == a.production && b.consumption == a.consumption
    ensures var b := Step(a, e, m).value;
      b.netProduction == a.netProduction && b.purchases == a.purchases
  {
  }

  /** The row of `p` in the production table after one step. */
  lemma StepProduction(a: Acc, e: Entry, m: Market, p: string)
    requires Step(a, e, m).Ok? && p in m.prices
    ensures var u := Step(a, e, m).value.production;
      if Counts(e.body, Produced, p) then u == Bump(a.production, p, e.body.count, Multiply(m.prices[p], e.body.count))
      else SameRow(a.production, u, p)
  {
    if e.body.Output? {
      StepOutput(a, e, m);
    } else if e.body.Input? {
      StepInput(a, e, m);
    } else if e.body.PurchaseInput? || e.body.PurchaseSupply? {
      StepPurchase(a, e, m);
    } else {
      StepUnpriced(a, e, m);
    }
  }

  /** The row of `p` in the consumption table after one step. */
  lemma StepConsumption(a: Acc, e: Entry, m: Market, p: string)
    requires Step(a, e, m).Ok? && p in m.prices
    ensures var u := Step(a, e, m).value.consumption;
      if Counts(e.body, Consumed, p) then u == Bump(a.consumption, p, -e.body.count, Multiply(m.prices[p], -e.body.count))
      else SameRow(a.consumption, u, p)
  {
    if e.body.Output? {
      StepOutput(a, e, m);
    } else if e.body.Input? {
      StepInput(a, e, m);
    } else if e.body.PurchaseInput? || e.body.PurchaseSupply? {
      StepPurchase(a, e, m);
    } else {
      StepUnpriced(a, e, m);
    }
  }

  /** The row of `p` in the purchases table after one step. */
  lemma StepPurchases(a: Acc, e: Entry, m: Market, p: string)
    requires Step(a, e, m).Ok? && p in m.prices
    ensures var u := Step(a, e, m).value.purchases;
      if Counts(e.body, Purchased, p) then u == Bump(a.purchases, p, e.body.count, Multiply(m.prices[p], e.body.count))
      else SameRow(a.purchases, u, p)
  {
    if e.body.Output? {
      StepOutput(a, e, m);
    } else if e.body.Input? {
      StepInput(a, e, m);
    } else if e.body.PurchaseInput? || e.body.PurchaseSupply? {
      StepPurchase(a, e, m);
    } else {
      StepUnpriced(a, e, m);
    }
  }

  /** The row of `p` in the net production table after one step: an INPUT that opens the
      row stores the consumed amount with a positive count. */
  lemma StepNet(a: Acc, e: Entry, m: Market, p: string)
    requires Step(a, e, m).Ok? && p in m.prices
    ensures var t := a.netProduction;
      var u := Step(a, e, m).value.netProduction;
      if Counts(e.body, Produced, p) then u == Bump(t, p, e.body.count, Multiply(m.prices[p], e.body.count))
      else if Counts(e.body, Consumed, p) then
        u == (if p in t then Bump(t, p, -e.body.count, Multiply(m.prices[p], -e.body.count))
              else t[p := Tally(e.body.count, Multiply(m.prices[p], -e.body.count))])
      else SameRow(t, u, p)
  {
    if e.body.Output? {
      StepOutput(a, e, m);
    } else if e.body.Input? {
      StepInput(a, e, m);
    } else if e.body.PurchaseInput? || e.body.PurchaseSupply? {
      StepPurchase(a, e, m);
    } else {
      StepUnpriced(a, e, m);
    }
  }

  /** `production[p]` sums the OUTPUT counts of `p`, valued at its price times that sum,
      present exactly when some OUTPUT names `p`. */
  lemma {:induction false} FoldProduction(es: seq<Entry>, m: Market, p: string)
    requires Fold(es, m).Ok? && p in m.prices
    ensures RowIs(Fold(es, m).value.production, p, Seen(es, Produced, p),
                  Total(es, Produced, p), m.prices[p], Total(es, Produced, p))
  {
    if |es| > 0 {
      var pre := es[..|es| - 1];
      var e := es[|es| - 1];
      FoldProduction(pre, m, p);
      SeenExtend(es, Produced, p);
      var a := Fold(pre, m).value;
      assert Fold(es, m) == Step(a, e, m);
      StepProduction(a, e, m, p);
      var total := Total(pre, Produced, p);
      if Counts(e.body, Produced, p) {
        assert Total(es, Produced, p) == total + e.body.count;
        if Seen(pre, Produced, p) {
          MultiplyDistributes(m.prices[p], total, e.body.count);
        } else {
          TotalUnseen(pre, Produced, p);
        }
      } else {
        assert Total(es, Produced, p) == total;
      }
    }
  }

  /** `consumption[p]` holds the negated sum of the INPUT counts of `p`. */
  lemma {:induction false} FoldConsumption(es: seq<Entry>, m: Market, p: string)
    requires Fold(es, m).Ok? && p in m.prices
    ensures RowIs(Fold(es, m).value.consumption, p, Seen(es, Consumed, p),
                  -Total(es, Consumed, p), m.prices[p], -Total(es, Consumed, p))
  {
    if |es| > 0 {
      var pre := es[..|es| - 1];
      var e := es[|es| - 1];
      FoldConsumption(pre, m, p);
      SeenExtend(es, Consumed, p);
      var a := Fold(pre, m).value;
      assert Fold(es, m) == Step(a, e, m);
      StepConsumption(a, e, m, p);
      var total := Total(pre, Consumed, p);
      if Counts(e.body, Consumed, p) {
        assert Total(es, Consumed, p) == total + e.body.count;
        if Seen(pre, Consumed, p) {
          MultiplyDistributes(m.prices[p], -total, -e.body.count);
        } else {
          TotalUnseen(pre, Consumed, p);
        }
      } else {
        assert Total(es, Consumed, p) == total;
      }
    }
  }

  /** `purchases[p]` sums the counts of both kinds of purchase entries for `p`. */
  lemma {:induction false} FoldPurchases(es: seq<Entry>, m: Market, p: string)
    requires Fold(es, m).Ok? && p in m.prices
    ensures RowIs(Fold(es, m).value.purchases, p, Seen(es, Purchased, p),
                  Total(es, Purchased, p), m.prices[p], Total(es, Purchased, p))
  {
    if |es| > 0 {
      var pre := es[..|es| - 1];
      var e := es[|es| - 1];
      FoldPurchases(pre, m, p);
      SeenExtend(es, Purchased, p);
      var a := Fold(pre, m).value;
      assert Fold(es, m) == Step(a, e, m);
      StepPurchases(a, e, m, p);
      var total := Total(pre, Purchased, p);
      if Counts(e.body, Purchased, p) {
        assert Total(es, Purchased, p) == total + e.body.count;
        if Seen(pre, Purchased, p) {
          MultiplyDistributes(m.prices[p], total, e.body.count);
        } else {
          TotalUnseen(pre, Purchased, p);
        }
      } else {
        assert Total(es, Purchased, p) == total;
      }
    }
  }

  /** `net_production[p]`: its value is the price of outputs minus inputs, but its count is
      off by twice the first INPUT's count when an INPUT is the first entry for `p`. */
  lemma {:induction false} FoldNetProduction(es: seq<Entry>, m: Market, p: string)
    requires Fold(es, m).Ok? && p in m.prices
    ensures RowIs(Fold(es, m).value.netProduction, p, Seen(es, Produced, p) || Seen(es, Consumed, p),
                  Total(es, Produced, p) - Total(es, Consumed, p) + 2.0 * FlipBonus(es, p),
                  m.prices[p], Total(es, Produced, p) - Total(es, Consumed, p))
  {
    if |es| > 0 {
      var pre := es[..|es| - 1];
      var e := es[|es| - 1];
      FoldNetProduction(pre, m, p);
      SeenExtend(es, Produced, p);
      SeenExtend(es, Consumed, p);
      var a := Fold(pre, m).value;
      assert Fold(es, m) == Step(a, e, m);
      StepNet(a, e, m, p);
      var made := Total(pre, Produced, p);
      var used := Total(pre, Consumed, p);
      var bonus := FlipBonus(pre, p);
      var inPre := Seen(pre, Produced, p) || Seen(pre, Consumed, p);
      if !inPre {
        TotalUnseen(pre, Produced, p);
        TotalUnseen(pre, Consumed, p);
        FlipBonusUnseen(pre, p);
      }
      if Counts(e.body, Produced, p) {
        assert Total(es, Produced, p) == made + e.body.count;
        assert Total(es, Consumed, p) == used;
        assert FlipBonus(es, p) == bonus;
        if inPre {
          MultiplyDistributes(m.prices[p], made - used, e.body.count);
        }
      } else if Counts(e.body, Consumed, p) {
        assert Total(es, Produced, p) == made;
        assert Total(es, Consumed, p) == used + e.body.count;
        if inPre {
          assert FlipBonus(es, p) == bonus;
          MultiplyDistributes(m.prices[p], made - used, -e.body.count);
        } else {
          assert FlipBonus(es, p) == e.body.count;
        }
      } else {
        assert Total(es, Produced, p) == made;
        assert Total(es, Consumed, p) == used;
        assert FlipBonus(es, p) == bonus;
      }
    }
  }

  /** The entries the total of one kind adds up: OUTPUT, INPUT, or either purchase. */
  predicate OfKind(b: Body, kind: Kind)
  {
    match kind
    case Produced => b.Output?
    case Consumed => b.Input?
    case Purchased => b.PurchaseInput? || b.PurchaseSupply?
  }

  /** The running total of one kind: production value, production cost or purchases. */
  function TotalOf(a: Acc, kind: Kind): Price
  {
    match kind
    case Produced => a.totalValue
    case Consumed => a.totalCost
    case Purchased => a.totalPurchases
  }

  /** The count an entry of the kind is valued at: INPUT amounts count negatively. */
  function Signed(kind: Kind, n: real): real
  {
    if kind == Consumed then -n else n
  }

  /** The four fields of a price that `handle_none` reads. */
  datatype Field = LastPrice | Ask | Bid | Average

  /** A price's field, 0 when unset. */
  function FieldOf(p: Price, f: Field): real
  {
    match f
    case LastPrice => HandleNone(p.last)
    case Ask => HandleNone(p.ask)
    case Bid => HandleNone(p.bid)
    case Average => HandleNone(p.avg)
  }

  /** What an entry adds to the total of a kind: the price of its product and its signed
      count, when the entry is of the kind and its product is priced. */
  datatype Share = NoShare | Share(price: Price, count: real)

  function ShareOf(b: Body, m: Market, kind: Kind): Share
  {
    if OfKind(b, kind) && b.product in m.prices then Share(m.prices[b.product], Signed(kind, b.count)) else NoShare
  }

  /** Field `f` of each entry of the kind, times the entry's signed count, summed. */
  function Valued(es: seq<Entry>, m: Market, kind: Kind, f: Field): real
  {
    if |es| == 0 then 0.0
    else
      Valued(es[..|es| - 1], m, kind, f) + Worth(ShareOf(es[|es| - 1].body, m, kind), f)
  }

  /** Field `f` of a share's price times its count; nothing for no share. */
  function Worth(s: Share, f: Field): real
  {
    if s.Share? then FieldOf(s.price, f) * s.count else 0.0
  }

  /** One step adds its entry's price times signed count to the total of its kind and
      leaves the totals of the other kinds as they were. */
  lemma StepTotalPrices(a: Acc, e: Entry, m: Market, kind: Kind)
    requires Step(a, e, m).Ok?
    ensures OfKind(e.body, kind) ==> e.body.product in m.prices
    ensures var s := ShareOf(e.body, m, kind);
      TotalOf(Step(a, e, m).value, kind) == if s.Share? then Add(TotalOf(a, kind), Multiply(s.price, s.count)) else TotalOf(a, kind)
  {
    if e.body.Output? {
      StepOutput(a, e, m);
    } else if e.body.Input? {
      StepInput(a, e, m);
    } else if e.body.PurchaseInput? || e.body.PurchaseSupply? {
      StepPurchase(a, e, m);
    } else {
      StepUnpriced(a, e, m);
    }
  }

  /** The same sum kept as a price, `Zero.add(price.multiply(count))…` over the entries of
      the kind. */
  function ValuedPrice(es: seq<Entry>, m: Market, kind: Kind): Price
  {
    if |es| == 0 then Zero
    else
      var s := ShareOf(es[|es| - 1].body, m, kind);
      if s.Share? then Add(ValuedPrice(es[..|es| - 1], m, kind), Multiply(s.price, s.count))
      else ValuedPrice(es[..|es| - 1], m, kind)
  }

  /** Adding `price.multiply(n)` to a total moves its field `f` by the price's field times `n`. */
  lemma TotalMoves(total: Price, s: Share, f: Field)
    requires s.Share?
    ensures FieldOf(Add(total, Multiply(s.price, s.count)), f) == FieldOf(total, f) + Worth(s, f)
  {
  }

  /** Field `f` of the price sum is the sum of the entries' fields. */
  lemma {:induction false} ValuedPriceValues(es: seq<Entry>, m: Market, kind: Kind, f: Field)
    ensures FieldOf(ValuedPrice(es, m, kind), f) == Valued(es, m, kind, f)
  {
    if |es| > 0 {
      var n := |es| - 1;
      ValuedPriceValues(es[..n], m, kind, f);
      var s := ShareOf(es[n].body, m, kind);
      if s.Share? {
        TotalMoves(ValuedPrice(es[..n], m, kind), s, f);
      }
    } else {
      assert FieldOf(Zero, f) == 0.0;
    }
  }

  /** The total of each kind after the loop is the price sum of the entries of that kind. */
  lemma {:induction false} FoldTotalPrice(es: seq<Entry>, m: Market, kind: Kind)
    requires Fold(es, m).Ok?
    ensures TotalOf(Fold(es, m).value, kind) == ValuedPrice(es, m, kind)
  {
    if |es| > 0 {
      var n := |es| - 1;
      FoldOkIff(es, m);
      FoldOkIff(es[..n], m);
      FoldTotalPrice(es[..n], m, kind);
      assert Fold(es, m) == Step(Fold(es[..n], m).value, es[n], m);
      StepTotalPrices(Fold(es[..n], m).value, es[n], m, kind);
    }
  }

  /** Field `f` of the total production value sums the OUTPUT entries' prices times
      counts, that of the total production cost sums the INPUT entries' prices times minus
      their counts, and that of the total purchases sums both kinds of purchase. */
  lemma FoldTotal(es: seq<Entry>, m: Market, kind: Kind, f: Field)
    requires Fold(es, m).Ok?
    ensures FieldOf(TotalOf(Fold(es, m).value, kind), f) == Valued(es, m, kind, f)
  {
    FoldTotalPrice(es, m, kind);
    ValuedPriceValues(es, m, kind, f);
  }

  /** The total gain or loss is the production value plus the (negative) production cost,
      field by field. */
  lemma SummarizeGainLoss(es: seq<Entry>, m: Market, b: Bookends, f: Field)
    requires Summarize(es, m, b).Ok?
    ensures var s := Summarize(es, m, b).value;
      && Complete(s.totalGainLoss)
      && s.totalGainLoss.supply == s.totalValue.supply && s.totalGainLoss.demand == s.totalValue.demand
      && FieldOf(s.totalGainLoss, f) == Valued(es, m, Produced, f) + Valued(es, m, Consumed, f)
  {
    var a := Fold(es, m).value;
    FoldTotal(es, m, Produced, f);
    FoldTotal(es, m, Consumed, f);
    AddValues(a.totalValue, a.totalCost);
  }

  /** The summary exists exactly when every priced product is known and there is a STATUS
      entry, provided the bookends match the entries as `add` and `add_ledger` keep them;
      its uptime is active over total cycles. */
  lemma SummarizeOkIff(es: seq<Entry>, m: Market, b: Bookends)
    requires BookendsMatch(b, es)
    ensures Summarize(es, m, b).Ok? <==> PricesKnown(es, m) && CountStatus(es) > 0
    ensures Summarize(es, m, b).Ok? ==>
      Summarize(es, m, b).value.uptime == SumStates(es) as real / CountStatus(es) as real
    ensures Summarize(es, m, b).Err? ==>
      Summarize(es, m, b).error.PriceNotFound? || Summarize(es, m, b).error == ZeroDivision
  {
    FoldOkIff(es, m);
    if Fold(es, m).Ok? {
      FoldCounts(es, m);
    }
  }

  // ---------------------------------------------------------------------------------
  // The ledger object

  class Ledger {
    const streamId: string
    const lineId: string
    const lineType: Option<string>
    const buildingCount: Option<nat>
    const market: Market
    var entries: seq<Entry>
    var startEfficiency: Option<real>
    var endEfficiency: Option<real>

    ghost predicate Valid()
      reads this
    {
      BookendsMatch(Bookends(startEfficiency, endEfficiency), entries)
    }

    constructor(streamId: string, lineId: string, lineType: Option<string>, buildingCount: Option<nat>, market: Market)
      ensures Valid()
      ensures this.streamId == streamId && this.lineId == lineId && this.lineType == lineType
      ensures this.buildingCount == buildingCount && this.market == market
      ensures entries == [] && startEfficiency.None? && endEfficiency.None?
    {
      this.streamId := streamId;
      this.lineId := lineId;
      this.lineType := lineType;
      this.buildingCount := buildingCount;
      this.market := market;
      entries := [];
      startEfficiency := None;
      endEfficiency := None;
    }

    /** `add(clock, type, description, **fields)`. */
    method Add(clock: seq<int>, description: string, body: Body)
      requires |clock| == 4
      modifies this
      ensures entries == old(entries) + [Entry(Clock.Show(clock), description, body)]
      ensures Bookends(startEfficiency, endEfficiency) == Booked(Bookends(old(startEfficiency), old(endEfficiency)), body)
      ensures old(Valid()) ==> Valid()
    {
      var entry := Entry(Clock.Show(clock), description, body);
      entries := entries + [entry];
      if entry.body.Efficiency? && startEfficiency.None? {
        startEfficiency := Some(entry.body.value);
      }
      if entry.body.Efficiency? {
        endEfficiency := Some(entry.body.value);
      }
      assert entries[..|entries| - 1] == old(entries);
    }

    /** `add_ledger(other)`: merge the bookends, then append the other's entries. */
    method AddLedger(other: Ledger)
      modifies this
      ensures entries == old(entries) + old(other.entries)
      ensures startEfficiency == MergeBookend(old(startEfficiency), old(other.startEfficiency))
      ensures endEfficiency == MergeBookend(old(endEfficiency), old(other.endEfficiency))
      ensures old(Valid()) && old(other.Valid()) ==> Valid()
    {
      if old(Valid()) && old(other.Valid()) {
        MergeKeepsBookendsMatched(Bookends(startEfficiency, endEfficiency), entries,
                                  Bookends(other.startEfficiency, other.endEfficiency), other.entries);
      }
      var theirStart, theirEnd, theirEntries := other.startEfficiency, other.endEfficiency, other.entries;
      if startEfficiency.None? {
        startEfficiency := theirStart;
      } else if theirStart.Some? {
        startEfficiency := Some((startEfficiency.value + theirStart.value) / 2.0);
      }
      if endEfficiency.None? {
        endEfficiency := theirEnd;
      } else if theirEnd.Some? {
        endEfficiency := Some((endEfficiency.value + theirEnd.value) / 2.0);
      }
      entries := entries + theirEntries;
    }

    /** `summarize_ledger`: read-only, so two calls agree. */
    method SummarizeLedger() returns (r: Result<Summary>)
      ensures r == Summarize(entries, market, Bookends(startEfficiency, endEfficiency))
    {
      var acc := Start;
      var i := 0;
      while i < |entries|
        invariant 0 <= i <= |entries|
        invariant Fold(entries[..i], market) == Ok(acc)
      {
        assert entries[..i + 1][..i] == entries[..i];
        var next := Step(acc, entries[i], market);
        if next.Err? {
          FoldErrorSticks(entries, i + 1, market);
          return Err(next.error);
        }
        acc := next.value;
        i := i + 1;
      }
      assert entries[..i] == entries;
      if acc.totalCycles == 0 {
        return Err(ZeroDivision);
      }
      var effs := SummarizeEfficiencies(acc.efficiencies, Bookends(startEfficiency, endEfficiency));
      if effs.Err? {
        return Err(effs.error);
      }
      return Ok(Summary(acc.totalCycles, acc.activeCycles, acc.activeCycles as real / acc.totalCycles as real,
                        effs.value, acc.production, acc.consumption, acc.netProduction, acc.purchases,
                        acc.totalValue, acc.totalCost, Markets.Add(acc.totalValue, acc.totalCost), acc.totalPurchases,
                        acc.missingInputs, acc.missingSupplies));
    }
  }

  /** Once a prefix fails, the whole fold fails with the same error. */
  lemma {:induction false} FoldErrorSticks(es: seq<Entry>, i: nat, m: Market)
    requires i <= |es| && Fold(es[..i], m).Err?
    ensures Fold(es, m) == Fold(es[..i], m)
    decreases |es| - i
  {
    if i < |es| {
      assert es[..i + 1][..i] == es[..i];
      FoldErrorSticks(es, i + 1, m);
    } else {
      assert es[..i] == es;
    }
  }

  /** `summarize_run`'s stream ledger: a fresh ledger merged with every line ledger in
      order. */
  method MergeLedgers(streamId: string, market: Market, ledgers: seq<Ledger>) returns (total: Ledger)
    ensures fresh(total) && total.lineId == "RUN.TOTALS" && total.market == market
    ensures total.entries == AllEntries(ledgers)
    ensures (forall k :: 0 <= k < |ledgers| ==> ledgers[k].Valid()) ==> total.Valid()
  {
    total := new Ledger(streamId, "RUN.TOTALS", None, None, market);
    var i := 0;
    while i < |ledgers|
      invariant 0 <= i <= |ledgers|
      invariant total.entries == AllEntries(ledgers[..i])
      invariant (forall k :: 0 <= k < |ledgers| ==> ledgers[k].Valid()) ==> total.Valid()
      invariant total.lineId == "RUN.TOTALS" && total.market == market
    {
      assert ledgers[..i + 1][..i] == ledgers[..i];
      total.AddLedger(ledgers[i]);
      i := i + 1;
    }
    assert ledgers[..i] == ledgers;
  }

  /** The entries of the ledgers, one ledger after the other. */
  ghost function AllEntries(ledgers: seq<Ledger>): seq<Entry>
    reads set k | 0 <= k < |ledgers| :: ledgers[k]
  {
    if |ledgers| == 0 then [] else AllEntries(ledgers[..|ledgers| - 1]) + ledgers[|ledgers| - 1].entries
  }
}
