/** The value stream (valuestream.py): the minute loop that steps every production line
    against one shared inventory, and the two summaries of a run, the net output of each
    product and the market value of what was produced. The merge of the line ledgers into
    the run totals is `Ledgers.MergeLedgers`. */
module ValueStreams {
  import opened Wrappers
  import opened Inventories
  import opened Markets
  import opened Clock
  import opened Dicts
  import opened ProductionLines

  // ---------------------------------------------------------------------------------
  // Rounds of line steps, on values. `step` is the step of one line at its efficiency;
  // the run uses `LineStep`.

  /** `step` is the line step: it agrees with `LineStep` on every line and efficiency. The
      trigger lets the agreement be used only where `LineStep` itself is applied. */
  ghost predicate IsLineStep(step: (Line, real) -> Result<Line>)
  {
    forall l: Line, x: real {:trigger LineStep(l, x)} :: step(l, x) == LineStep(l, x)
  }


  /** Every line looking at the same inventory. */
  function Restock(ls: seq<Line>, stock: Stock): (r: seq<Line>)
    ensures |r| == |ls| && forall j :: 0 <= j < |ls| ==> r[j] == ls[j].(stock := stock)
  {
    seq(|ls|, j requires 0 <= j < |ls| => ls[j].(stock := stock))
  }

  /** The first `i` lines stepped once each, in list order, each seeing the inventory the
      one before it left; the first failing step ends the round. */
  function RoundPrefix(ls: seq<Line>, e: seq<real>, i: nat, step: (Line, real) -> Result<Line>): (r: Result<seq<Line>>)
    requires |e| == |ls| && i <= |ls|
    ensures r.Ok? ==> |r.value| == |ls|
  {
    if i == 0 then Ok(ls)
    else
      var st :- RoundPrefix(ls, e, i - 1, step);
      var t :- step(st[i - 1], e[i - 1]);
      Ok(Restock(st[i - 1 := t], t.stock))
  }

  /** One minute of the run: the body of the `while` loop, or the pass after it. */
  function Round(ls: seq<Line>, e: seq<real>, step: (Line, real) -> Result<Line>): (r: Result<seq<Line>>)
    requires |e| == |ls|
    ensures r.Ok? ==> |r.value| == |ls|
  {
    RoundPrefix(ls, e, |ls|, step)
  }

  function Rounds(ls: seq<Line>, e: seq<real>, n: nat, step: (Line, real) -> Result<Line>): (r: Result<seq<Line>>)
    requires |e| == |ls|
    ensures r.Ok? ==> |r.value| == |ls|
  {
    if n == 0 then Ok(ls)
    else
      var st :- Rounds(ls, e, n - 1, step);
      Round(st, e, step)
  }

  /** One more round continues a run that has not failed. */
  lemma RoundsNext(ls: seq<Line>, e: seq<real>, n: nat, step: (Line, real) -> Result<Line>)
    requires |e| == |ls| && Rounds(ls, e, n, step).Ok?
    ensures Rounds(ls, e, n + 1, step) == Round(Rounds(ls, e, n, step).value, e, step)
  {
  }

  /** How many times `run` steps every line: the clock ticks from `start` while below the
      target, and one more pass follows the loop. */
  function RunLength(target: int, start: int): (n: nat)
    ensures n >= 1
    ensures n == 1 <==> target <= start + 1
    ensures n > 1 ==> start + n == target
  {
    if target - start > 1 then target - start else 1
  }

  /** A run from a fresh clock steps each line once per minute of the duration, and once
      even for a zero duration. */
  lemma FreshRunLength(target: int)
    ensures RunLength(target, 0) == if target > 1 then target else 1
  {
  }

  /** A failing round ends the run: later rounds cannot undo the failure. */
  lemma {:induction false} RoundsErrorSticks(ls: seq<Line>, e: seq<real>, k: nat, n: nat, step: (Line, real) -> Result<Line>)
    requires |e| == |ls| && k <= n && Rounds(ls, e, k, step).Err?
    ensures Rounds(ls, e, n, step) == Rounds(ls, e, k, step)
    decreases n
  {
    if n > k {
      RoundsErrorSticks(ls, e, k, n - 1, step);
    }
  }

  /** A failing line step ends its round. */
  lemma {:induction false} RoundPrefixErrorSticks(ls: seq<Line>, e: seq<real>, k: nat, n: nat, step: (Line, real) -> Result<Line>)
    requires |e| == |ls| && k <= n <= |ls| && RoundPrefix(ls, e, k, step).Err?
    ensures RoundPrefix(ls, e, n, step) == RoundPrefix(ls, e, k, step)
    decreases n
  {
    if n > k {
      RoundPrefixErrorSticks(ls, e, k, n - 1, step);
    }
  }

  /** Running `a` rounds and then `b` more is running `a + b` rounds. */
  lemma {:induction false} RoundsCompose(ls: seq<Line>, e: seq<real>, a: nat, b: nat, step: (Line, real) -> Result<Line>)
    requires |e| == |ls|
    ensures Rounds(ls, e, a, step).Ok? ==> Rounds(ls, e, a + b, step) == Rounds(Rounds(ls, e, a, step).value, e, b, step)
    ensures Rounds(ls, e, a, step).Err? ==> Rounds(ls, e, a + b, step) == Rounds(ls, e, a, step)
    decreases b
  {
    if b > 0 {
      RoundsCompose(ls, e, a, b - 1, step);
      if Rounds(ls, e, a, step).Err? {
        RoundsErrorSticks(ls, e, a, a + b, step);
      }
    }
  }

  /** Two steps that agree on every line take the same round. */
  lemma {:induction false} RoundPrefixAgrees(ls: seq<Line>, e: seq<real>, i: nat, s1: (Line, real) -> Result<Line>, s2: (Line, real) -> Result<Line>)
    requires |e| == |ls| && i <= |ls|
    requires forall l: Line, x: real {:trigger s1(l, x)} :: s1(l, x) == s2(l, x)
    ensures RoundPrefix(ls, e, i, s1) == RoundPrefix(ls, e, i, s2)
  {
    if i > 0 {
      RoundPrefixAgrees(ls, e, i - 1, s1, s2);
      var p := RoundPrefix(ls, e, i - 1, s1);
      if p.Ok? {
        assert s1(p.value[i - 1], e[i - 1]) == s2(p.value[i - 1], e[i - 1]);
      }
    }
  }

  /** A round taken with a step that agrees with `LineStep` is the round of `LineStep`. */
  lemma RoundPrefixOfLineStep(ls: seq<Line>, e: seq<real>, i: nat, step: (Line, real) -> Result<Line>)
    requires |e| == |ls| && i <= |ls| && IsLineStep(step)
    ensures RoundPrefix(ls, e, i, step) == RoundPrefix(ls, e, i, LineStep)
  {
    RoundPrefixAgrees(ls, e, i, step, LineStep);
  }

  /** Two steps that agree on every line take the same run. */
  lemma {:induction false} RoundsAgree(ls: seq<Line>, e: seq<real>, n: nat, s1: (Line, real) -> Result<Line>, s2: (Line, real) -> Result<Line>)
    requires |e| == |ls|
    requires forall l: Line, x: real {:trigger s1(l, x)} :: s1(l, x) == s2(l, x)
    ensures Rounds(ls, e, n, s1) == Rounds(ls, e, n, s2)
  {
    if n > 0 {
      RoundsAgree(ls, e, n - 1, s1, s2);
      var p := Rounds(ls, e, n - 1, s1);
      if p.Ok? {
        RoundPrefixAgrees(p.value, e, |p.value|, s1, s2);
      }
    }
  }

  /** So a run with such a step is the run of `LineStep`. */
  lemma RoundsOfLineStep(ls: seq<Line>, e: seq<real>, n: nat, step: (Line, real) -> Result<Line>)
    requires |e| == |ls| && IsLineStep(step)
    ensures Rounds(ls, e, n, step) == Rounds(ls, e, n, LineStep)
  {
    RoundsAgree(ls, e, n, step, LineStep);
  }

  /** A step from `l` neither loses nor gains a queue item. */
  ghost predicate KeepsQueueAt(step: (Line, real) -> Result<Line>, l: Line, x: real)
  {
    step(l, x).Ok? ==> multiset(step(l, x).value.queue) == multiset(l.queue)
  }

  /** No line step loses or gains a queue item. */
  ghost predicate KeepsQueue(step: (Line, real) -> Result<Line>)
  {
    forall l: Line, x: real :: KeepsQueueAt(step, l, x)
  }

  /** A round keeps every line's queue items when each step does. */
  lemma {:induction false} RoundPrefixKeepsQueues(ls: seq<Line>, e: seq<real>, i: nat, step: (Line, real) -> Result<Line>)
    requires |e| == |ls| && i <= |ls| && KeepsQueue(step)
    ensures RoundPrefix(ls, e, i, step).Ok? ==>
      forall j :: 0 <= j < |ls| ==> multiset(RoundPrefix(ls, e, i, step).value[j].queue) == multiset(ls[j].queue)
  {
    if i > 0 && RoundPrefix(ls, e, i, step).Ok? {
      RoundPrefixKeepsQueues(ls, e, i - 1, step);
      var st := RoundPrefix(ls, e, i - 1, step).value;
      assert KeepsQueueAt(step, st[i - 1], e[i - 1]);
    }
  }

  lemma {:induction false} RoundsKeepQueues(ls: seq<Line>, e: seq<real>, n: nat, step: (Line, real) -> Result<Line>)
    requires |e| == |ls| && KeepsQueue(step)
    ensures Rounds(ls, e, n, step).Ok? ==>
      forall j :: 0 <= j < |ls| ==> multiset(Rounds(ls, e, n, step).value[j].queue) == multiset(ls[j].queue)
  {
    if n > 0 && Rounds(ls, e, n, step).Ok? {
      RoundsKeepQueues(ls, e, n - 1, step);
      RoundPrefixKeepsQueues(Rounds(ls, e, n - 1, step).value, e, |ls|, step);
    }
  }

  /** The line step keeps queue items, so a whole run does: every line ends with the very
      recipes it was built with. */
  lemma RunKeepsQueues(ls: seq<Line>, e: seq<real>, n: nat)
    requires |e| == |ls|
    ensures Rounds(ls, e, n, LineStep).Ok? ==>
      forall j :: 0 <= j < |ls| ==> multiset(Rounds(ls, e, n, LineStep).value[j].queue) == multiset(ls[j].queue)
  {
    forall l: Line, x: real ensures KeepsQueueAt(LineStep, l, x) {
      StepTurnsQueue(l, x);
    }
    RoundsKeepQueues(ls, e, n, LineStep);
  }

  /** One more successful line step extends a round. */
  lemma RoundPrefixSteps(ls: seq<Line>, e: seq<real>, i: nat, step: (Line, real) -> Result<Line>, pre: seq<Line>)
    requires |e| == |ls| && i < |ls| && RoundPrefix(ls, e, i, step) == Ok(pre) && step(pre[i], e[i]).Ok?
    ensures RoundPrefix(ls, e, i + 1, step) == Ok(Restock(pre[i := step(pre[i], e[i]).value], step(pre[i], e[i]).value.stock))
  {
  }

  /** A failing line step fails its whole round with its own error. */
  lemma RoundPrefixFails(ls: seq<Line>, e: seq<real>, i: nat, step: (Line, real) -> Result<Line>, pre: seq<Line>)
    requires |e| == |ls| && i < |ls| && RoundPrefix(ls, e, i, step) == Ok(pre) && step(pre[i], e[i]).Err?
    ensures Round(ls, e, step) == Err(step(pre[i], e[i]).error)
  {
    RoundPrefixErrorSticks(ls, e, i + 1, |ls|, step);
  }


  // ---------------------------------------------------------------------------------
  // The lines as objects

  /** Every line draws on the stream's one inventory. */
  predicate Shares(lines: seq<ProductionLine>, inventory: Inventory)
  {
    forall j :: 0 <= j < |lines| ==> lines[j].inventory == inventory
  }

  function Efficiencies(lines: seq<ProductionLine>): (e: seq<real>)
    ensures |e| == |lines| && forall j :: 0 <= j < |lines| ==> e[j] == lines[j].efficiency
  {
    seq(|lines|, j requires 0 <= j < |lines| => lines[j].efficiency)
  }

  /** What each line holds, in list order, the shared inventory included. */
  ghost function States(lines: seq<ProductionLine>, inventory: Inventory): (r: seq<Line>)
    requires Shares(lines, inventory)
    reads lines, inventory
    ensures |r| == |lines| && forall j :: 0 <= j < |lines| ==> r[j] == lines[j].State()
  {
    seq(|lines|, j reads lines, inventory requires 0 <= j < |lines| => lines[j].State())
  }

  class ValueStream {
    const inventory: Inventory
    const market: Market
    const duration: Duration
    const clock: IncrClock
    /** The step every line takes each minute. */
    ghost const step: (Line, real) -> Result<Line>

    /** The run clock counts up to the stream's own duration. */
    ghost predicate Valid()
      reads this, clock, clock.vals, clock.duration
    {
      clock.Valid() && clock.duration == duration && IsLineStep(step)
    }

    constructor(inventory: Inventory, market: Market, duration: Duration)
      requires duration.vals.Length == 4
      ensures Valid() && fresh(clock) && fresh(clock.vals)
      ensures this.inventory == inventory && this.market == market && this.duration == duration
      ensures clock.ToMinutes() == 0
    {
      this.inventory := inventory;
      this.market := market;
      this.duration := duration;
      clock := new IncrClock(duration);
      step := LineStep;
    }

    /** `line.step(...)` for the line at `i`, all lines drawing on one inventory: the line
        takes its step and every other line keeps its own state and sees the new inventory,
        which extends the round by one line. */
    method StepOne(lines: seq<ProductionLine>, i: nat, ghost before: seq<Line>, ghost e: seq<real>) returns (r: Result<()>)
      requires IsLineStep(step) && i < |lines| && Distinct(lines) && Shares(lines, inventory)
      requires e == Efficiencies(lines)
      requires |before| == |lines| && RoundPrefix(before, e, i, step) == Ok(States(lines, inventory))
      modifies lines[i], inventory
      ensures Shares(lines, inventory) && Efficiencies(lines) == e
      ensures r.Ok? ==> RoundPrefix(before, e, i + 1, step) == Ok(States(lines, inventory))
      ensures r.Err? ==> Round(before, e, step) == Err(r.error)
    {
      ghost var pre := States(lines, inventory);
      r := lines[i].Step();
      if r.Ok? {
        ghost var t := step(pre[i], e[i]).value;
        forall j | 0 <= j < |lines|
          ensures lines[j].State() == Restock(pre[i := t], t.stock)[j]
        {
          if j != i {
            assert lines[j] != lines[i];
            assert pre[j] == old(lines[j].Own()).(stock := old(inventory.items));
          }
        }
        assert States(lines, inventory) == Restock(pre[i := t], t.stock);
        RoundPrefixSteps(before, e, i, step, pre);
      } else {
        RoundPrefixFails(before, e, i, step, pre);
      }
    }

    /** One pass of `for line in lines: line.step(...)`. */
    method StepLines(lines: seq<ProductionLine>, ghost before: seq<Line>) returns (r: Result<()>)
      requires IsLineStep(step) && Distinct(lines) && Shares(lines, inventory)
      requires States(lines, inventory) == before
      modifies lines, inventory
      ensures r.Ok? ==> Round(before, Efficiencies(lines), step) == Ok(States(lines, inventory))
      ensures r.Err? ==> Round(before, Efficiencies(lines), step) == Err(r.error)
    {
      ghost var e := Efficiencies(lines);
      var i := 0;
      while i < |lines|
        invariant 0 <= i <= |lines| && |before| == |lines|
        invariant Shares(lines, inventory) && e == Efficiencies(lines)
        invariant RoundPrefix(before, e, i, step) == Ok(States(lines, inventory))
      {
        r := StepOne(lines, i, before, e);
        if r.Err? {
          return;
        }
        i := i + 1;
      }
      assert RoundPrefix(before, e, |before|, step) == Round(before, e, step);
      r := Ok(());
    }

    /** One minute of `run`: every line steps once, which extends the run by one round. */
    method StepRound(lines: seq<ProductionLine>, ghost start: seq<Line>, ghost k: nat) returns (r: Result<()>)
      requires Valid() && Distinct(lines) && Shares(lines, inventory)
      requires |start| == |lines| && Rounds(start, Efficiencies(lines), k, step) == Ok(States(lines, inventory))
      modifies lines, inventory
      ensures Valid()
      ensures r.Ok? ==> Rounds(start, Efficiencies(lines), k + 1, step) == Ok(States(lines, inventory))
      ensures r.Err? ==> Rounds(start, Efficiencies(lines), k + 1, step) == Err(r.error)
    {
      RoundsNext(start, Efficiencies(lines), k, step);
      r := StepLines(lines, States(lines, inventory));
    }

    /** `clock.step()` inside `run`: the run clock advances a minute; no line notices. */
    method Tick(ghost lines: seq<ProductionLine>) returns (more: bool)
      requires Valid() && Shares(lines, inventory)
      modifies clock.vals
      ensures Valid() && duration.ToMinutes() == old(duration.ToMinutes())
      ensures clock.ToMinutes() == old(clock.ToMinutes()) + 1
      ensures more == (clock.ToMinutes() < duration.ToMinutes())
      ensures States(lines, inventory) == old(States(lines, inventory))
    {
      more := clock.Step();
    }

    /** The `while self.clock.step()` loop of `run`: tick the clock and, while it is short
        of the duration, step every line. A failing step ends the run with the failure of
        the whole run; otherwise all but the last of the run's rounds are done. */
    method StepWhileShort(lines: seq<ProductionLine>, ghost start: seq<Line>) returns (r: Result<()>, ghost done: nat)
      requires Valid() && Distinct(lines) && Shares(lines, inventory)
      requires States(lines, inventory) == start
      modifies lines, inventory, clock.vals
      ensures Valid() && duration.ToMinutes() == old(duration.ToMinutes())
      ensures var n := RunLength(duration.ToMinutes(), old(clock.ToMinutes()));
        && (r.Err? ==> Rounds(start, Efficiencies(lines), n, step) == Err(r.error))
        && (r.Ok? ==> done + 1 == n && clock.ToMinutes() == old(clock.ToMinutes()) + n)
        && (r.Ok? ==> Rounds(start, Efficiencies(lines), done, step) == Ok(States(lines, inventory)))
    {
      ghost var e := Efficiencies(lines);
      ghost var target := duration.ToMinutes();
      ghost var c0 := clock.ToMinutes();
      ghost var n := RunLength(target, c0);
      done := 0;
      r := Ok(());
      var more := Tick(lines);
      while more
        invariant Valid() && duration.ToMinutes() == target && r.Ok?
        invariant done < n && clock.ToMinutes() == c0 + done + 1 && more == (c0 + done + 1 < target)
        invariant Rounds(start, e, done, step) == Ok(States(lines, inventory))
        decreases n - done
      {
        r, more := Turn(lines, start, done, n);
        if r.Err? {
          break;
        }
        done := done + 1;
      }
    }

    /** One turn of that loop: every line steps, then the clock ticks. A failing step is
        the failure of any longer run, up to `n` rounds. */
    method Turn(lines: seq<ProductionLine>, ghost start: seq<Line>, ghost k: nat, ghost n: nat) returns (r: Result<()>, more: bool)
      requires Valid() && Distinct(lines) && Shares(lines, inventory) && k < n
      requires |start| == |lines| && Rounds(start, Efficiencies(lines), k, step) == Ok(States(lines, inventory))
      modifies lines, inventory, clock.vals
      ensures Valid() && duration.ToMinutes() == old(duration.ToMinutes())
      ensures r.Err? ==> Rounds(start, Efficiencies(lines), n, step) == Err(r.error)
      ensures r.Ok? ==> Rounds(start, Efficiencies(lines), k + 1, step) == Ok(States(lines, inventory))
      ensures r.Ok? ==> clock.ToMinutes() == old(clock.ToMinutes()) + 1 && more == (clock.ToMinutes() < duration.ToMinutes())
    {
      more := false;
      r := StepRound(lines, start, k);
      if r.Ok? {
        more := Tick(lines);
      } else {
        RoundsErrorSticks(start, Efficiencies(lines), k + 1, n, step);
      }
    }

    /** `run`, the stepping: the loop above, then every line stepped once more. */
    method Run(lines: seq<ProductionLine>, ghost start: seq<Line>) returns (r: Result<()>)
      requires Valid() && Distinct(lines) && Shares(lines, inventory)
      requires States(lines, inventory) == start
      modifies lines, inventory, clock.vals
      ensures Valid()
      ensures var n := RunLength(duration.ToMinutes(), old(clock.ToMinutes()));
        var out := Rounds(start, Efficiencies(lines), n, step);
        && (r.Ok? ==> out == Ok(States(lines, inventory)) && clock.ToMinutes() == old(clock.ToMinutes()) + n)
        && (r.Err? ==> out == Err(r.error))
    {
      ghost var done;
      r, done := StepWhileShort(lines, start);
      if r.Ok? {
        r := StepRound(lines, start, done);
      }
    }
  }

  // ---------------------------------------------------------------------------------
  // Net output

  /** The loop of `calc_output` over `keys`. */
  function NetOver(starting: Stock, ending: map<string, real>, keys: seq<string>): Dict<string, real>
    requires forall i :: 0 <= i < |keys| ==> keys[i] in ending
  {
    if |keys| == 0 then Empty()
    else
      var key := keys[|keys| - 1];
      Put(NetOver(starting, ending, keys[..|keys| - 1]), key, ending[key] - CountOf(starting, key))
  }

  /** Each key the loop writes is a key of `ending`, with its ending count minus its
      starting count. */
  lemma {:induction false} NetOverValues(starting: Stock, ending: map<string, real>, keys: seq<string>)
    requires forall i :: 0 <= i < |keys| ==> keys[i] in ending
    ensures var r := NetOver(starting, ending, keys);
      forall k | k in r.m :: k in ending && r.m[k] == ending[k] - CountOf(starting, k)
  {
    if |keys| > 0 {
      var n := |keys| - 1;
      var pre := keys[..n];
      assert forall i :: 0 <= i < n ==> pre[i] == keys[i];
      NetOverValues(starting, ending, pre);
      var acc := NetOver(starting, ending, pre);
      var r := NetOver(starting, ending, keys);
      assert r.m == acc.m[keys[n] := ending[keys[n]] - CountOf(starting, keys[n])];
      forall k | k in r.m
        ensures k in ending && r.m[k] == ending[k] - CountOf(starting, k)
      {
        if k != keys[n] {
          assert k in acc.m;
        }
      }
    }
  }

  /** Over a duplicate-free list of keys, the loop keeps those keys in their order. */
  lemma {:induction false} NetOverOrder(starting: Stock, ending: map<string, real>, keys: seq<string>)
    requires Distinct(keys) && forall i :: 0 <= i < |keys| ==> keys[i] in ending
    ensures var r := NetOver(starting, ending, keys); Wf(r) && r.order == keys
  {
    if |keys| > 0 {
      var n := |keys| - 1;
      var pre := keys[..n];
      assert Distinct(pre) && forall i :: 0 <= i < n ==> pre[i] == keys[i];
      NetOverOrder(starting, ending, pre);
      NotBefore(keys, |keys|);
      NotInOrder(NetOver(starting, ending, pre), keys[n]);
      PrefixAndLast(keys);
    }
  }

  /** `calc_output`: the keys of `ending`, in its order, each with its change since
      `starting`; a key missing from `starting` started at 0, and keys only in `starting`
      are dropped. */
  function CalcOutput(starting: Stock, ending: Dict<string, real>): (net: Dict<string, real>)
    requires Wf(ending)
    ensures Wf(net) && net.order == ending.order && net.m.Keys == ending.m.Keys
    ensures forall k | k in net.m :: net.m[k] == ending.m[k] - CountOf(starting, k)
  {
    NetOverValues(starting, ending.m, ending.order);
    NetOverOrder(starting, ending.m, ending.order);
    NetOver(starting, ending.m, ending.order)
  }

  /** Nothing changed, nothing produced. */
  lemma CalcOutputUnchanged(ending: Dict<string, real>)
    requires Wf(ending)
    ensures forall k | k in CalcOutput(ending.m, ending).m :: CalcOutput(ending.m, ending).m[k] == 0.0
  {
  }

  /** After one `add` to the inventory, the net output is that amount for its ticker and 0
      for every other ticker already held. */
  lemma CalcOutputOfAdd(starting: Stock, ending: Dict<string, real>, item: string, count: real)
    requires Wf(ending) && ending.m == Added(starting, item, count)
    ensures CalcOutput(starting, ending).m[item] == count
    ensures forall k | k in starting && k != item :: CalcOutput(starting, ending).m[k] == 0.0
    ensures CalcOutput(starting, ending).m.Keys == starting.Keys + {item}
  {
  }

  // ---------------------------------------------------------------------------------
  // Market value of the output

  datatype MarketValues = MarketValues(totals: Price, subtotals: map<string, Price>)

  predicate Produced(net: Dict<string, real>, k: string)
  {
    k in net.m && net.m[k] > 0.0
  }

  /** `calc_mkt_values` over the first `n` keys of `net`. */
  function ValuesOver(m: Market, net: Dict<string, real>, n: nat): (r: Result<MarketValues>)
    requires Wf(net) && n <= |net.order|
  {
    if n == 0 then Ok(MarketValues(Zero, map[]))
    else
      var acc :- ValuesOver(m, net, n - 1);
      var product := net.order[n - 1];
      var count := net.m[product];
      if count > 0.0 then
        var price :- Lookup(m, product);
        var subtotal := Multiply(price, count);
        Ok(MarketValues(Add(acc.totals, subtotal), acc.subtotals[product := subtotal]))
      else Ok(acc)
  }

  function CalcMktValues(m: Market, net: Dict<string, real>): Result<MarketValues>
    requires Wf(net)
  {
    ValuesOver(m, net, |net.order|)
  }

  /** The key at `i` is the first produced key without a price. */
  predicate FirstUnpriced(m: Market, net: Dict<string, real>, i: int)
  {
    && 0 <= i < |net.order|
    && Produced(net, net.order[i]) && net.order[i] !in m.prices
    && forall j :: 0 <= j < i ==> !Produced(net, net.order[j]) || net.order[j] in m.prices
  }

  /** The four price fields of `r` are those of `p` added to those of `q`, and `r` keeps
      `p`'s supply and demand. */
  predicate SumsOn(r: Price, p: Price, q: Price)
  {
    && Values(r) == [Values(p)[0] + Values(q)[0], Values(p)[1] + Values(q)[1],
                     Values(p)[2] + Values(q)[2], Values(p)[3] + Values(q)[3]]
    && r.supply == p.supply && r.demand == p.demand
  }

  /** Over the first `n` keys, the computation succeeds exactly when every produced key
      has a price. */
  lemma {:induction false} ValuesOverOk(m: Market, net: Dict<string, real>, n: nat)
    requires Wf(net) && n <= |net.order|
    ensures ValuesOver(m, net, n).Ok? <==>
      forall j :: 0 <= j < n ==> !Produced(net, net.order[j]) || net.order[j] in m.prices
  {
    if n > 0 {
      ValuesOverOk(m, net, n - 1);
    }
  }

  /** A failure names the first produced key without a price. */
  lemma {:induction false} ValuesOverFirstError(m: Market, net: Dict<string, real>, n: nat)
    requires Wf(net) && n <= |net.order| && ValuesOver(m, net, n).Err?
    ensures exists i :: i < n && FirstUnpriced(m, net, i) && ValuesOver(m, net, n).error == PriceNotFound(net.order[i])
  {
    var prev := ValuesOver(m, net, n - 1);
    if prev.Err? {
      ValuesOverFirstError(m, net, n - 1);
      var i :| i < n - 1 && FirstUnpriced(m, net, i) && prev.error == PriceNotFound(net.order[i]);
      assert i < n;
    } else {
      ValuesOverOk(m, net, n - 1);
      assert FirstUnpriced(m, net, n - 1);
    }
  }

  /** One subtotal per produced key among the first `n`. */
  lemma {:induction false} ValuesOverSubtotalKeys(m: Market, net: Dict<string, real>, n: nat)
    requires Wf(net) && n <= |net.order| && ValuesOver(m, net, n).Ok?
    ensures var r := ValuesOver(m, net, n).value;
      forall k :: k in r.subtotals <==> k in net.order[..n] && Produced(net, k)
  {
    if n > 0 {
      ValuesOverSubtotalKeys(m, net, n - 1);
      PrefixStep(net.order, n);
    }
  }

  /** Each subtotal is its product's price times its count. */
  lemma {:induction false} ValuesOverSubtotalValues(m: Market, net: Dict<string, real>, n: nat)
    requires Wf(net) && n <= |net.order| && ValuesOver(m, net, n).Ok?
    ensures var r := ValuesOver(m, net, n).value;
      forall k | k in r.subtotals :: k in net.m && k in m.prices && r.subtotals[k] == Multiply(m.prices[k], net.m[k])
  {
    if n > 0 {
      ValuesOverSubtotalValues(m, net, n - 1);
    }
  }

  /** The totals never miss a price field and keep the supply and demand of `Price()`. */
  lemma {:induction false} ValuesOverTotals(m: Market, net: Dict<string, real>, n: nat)
    requires Wf(net) && n <= |net.order| && ValuesOver(m, net, n).Ok?
    ensures var t := ValuesOver(m, net, n).value.totals;
      Complete(t) && t.supply == Some(0.0) && t.demand == Some(0.0)
  {
    if n > 0 {
      ValuesOverTotals(m, net, n - 1);
    }
  }

  /** What key `k` adds to price field `i` of the market value: that field of
      `price.multiply(count)` when it was produced, and nothing otherwise. */
  function KeyWorth(m: Market, net: Dict<string, real>, k: string, i: nat): (r: real)
    requires i < 4
    ensures Produced(net, k) && k in m.prices ==> r == Values(m.prices[k])[i] * net.m[k]
    ensures !(Produced(net, k) && k in m.prices) ==> r == 0.0
  {
    if Produced(net, k) && k in m.prices then
      MultiplyValues(m.prices[k], net.m[k]);
      Values(Multiply(m.prices[k], net.m[k]))[i]
    else 0.0
  }

  /** Reference sum: price field `i` summed over the produced keys among the first `n`. */
  function MarketWorth(m: Market, net: Dict<string, real>, n: nat, i: nat): real
    requires Wf(net) && n <= |net.order| && i < 4
  {
    if n == 0 then 0.0 else MarketWorth(m, net, n - 1, i) + KeyWorth(m, net, net.order[n - 1], i)
  }

  /** Adding `q` to a total moves its price field `i` by that field of `q`. */
  lemma FieldGrows(total: Price, q: Price, i: nat)
    requires i < 4
    ensures Values(Add(total, q))[i] == Values(total)[i] + Values(q)[i]
  {
    AddValues(total, q);
  }

  /** Each price field of the totals is the sum of that field of `price.multiply(count)`
      over the produced keys among the first `n`. */
  lemma {:induction false} ValuesOverWorth(m: Market, net: Dict<string, real>, n: nat, i: nat)
    requires Wf(net) && n <= |net.order| && i < 4 && ValuesOver(m, net, n).Ok?
    ensures Values(ValuesOver(m, net, n).value.totals)[i] == MarketWorth(m, net, n, i)
  {
    if n > 0 {
      ValuesOverWorth(m, net, n - 1, i);
      var k := net.order[n - 1];
      if Produced(net, k) {
        var prev := ValuesOver(m, net, n - 1).value;
        assert ValuesOver(m, net, n).value.totals == Add(prev.totals, Multiply(m.prices[k], net.m[k]));
        FieldGrows(prev.totals, Multiply(m.prices[k], net.m[k]), i);
      }
    } else {
      assert Values(Zero) == [0.0, 0.0, 0.0, 0.0];
    }
  }

  /** A product that was not produced is never priced: markets that agree on the produced
      keys give the same market values. */
  lemma {:induction false} ValuesOverIgnoresUnproduced(m1: Market, m2: Market, net: Dict<string, real>, n: nat)
    requires Wf(net) && n <= |net.order|
    requires forall k | Produced(net, k) :: (k in m1.prices <==> k in m2.prices)
    requires forall k | Produced(net, k) && k in m1.prices :: m1.prices[k] == m2.prices[k]
    ensures ValuesOver(m1, net, n) == ValuesOver(m2, net, n)
  {
    if n > 0 {
      ValuesOverIgnoresUnproduced(m1, m2, net, n - 1);
    }
  }

  /** Each produced key adds its subtotal to the running totals. */
  lemma ValuesOverAdds(m: Market, net: Dict<string, real>, n: nat)
    requires Wf(net) && 0 < n <= |net.order| && ValuesOver(m, net, n).Ok?
    ensures var product := net.order[n - 1];
      var prev := ValuesOver(m, net, n - 1).value;
      var r := ValuesOver(m, net, n).value;
      if Produced(net, product) then SumsOn(r.totals, prev.totals, Multiply(m.prices[product], net.m[product]))
      else r == prev
  {
  }

  /** `calc_mkt_values`: it fails exactly when a produced product has no price, and then at
      the first such product in the order of `net`; otherwise there is one subtotal per
      produced product, its price times its count, and complete totals that keep the
      supply and demand of `Price()` and whose every price field is that field summed over
      the produced products, price times count. */
  lemma CalcMktValuesSpec(m: Market, net: Dict<string, real>)
    requires Wf(net)
    ensures var r := CalcMktValues(m, net);
      && (r.Ok? <==> forall k | Produced(net, k) :: k in m.prices)
      && (r.Err? ==> exists i :: FirstUnpriced(m, net, i) && r.error == PriceNotFound(net.order[i]))
      && (r.Ok? ==> r.value.subtotals.Keys == set k | k in net.m && Produced(net, k))
      && (r.Ok? ==> forall k | k in r.value.subtotals :: r.value.subtotals[k] == Multiply(m.prices[k], net.m[k]))
      && (r.Ok? ==> Complete(r.value.totals) && r.value.totals.supply == Some(0.0) && r.value.totals.demand == Some(0.0))
      && (r.Ok? ==> forall i | 0 <= i < 4 :: Values(r.value.totals)[i] == MarketWorth(m, net, |net.order|, i))
  {
    var n := |net.order|;
    assert net.order[..n] == net.order;
    ValuesOverOk(m, net, n);
    var r := CalcMktValues(m, net);
    if r.Ok? {
      ValuesOverSubtotalKeys(m, net, n);
      ValuesOverSubtotalValues(m, net, n);
      ValuesOverTotals(m, net, n);
      forall i | 0 <= i < 4 ensures Values(r.value.totals)[i] == MarketWorth(m, net, n, i) {
        ValuesOverWorth(m, net, n, i);
      }
    } else {
      ValuesOverFirstError(m, net, n);
    }
    if forall j :: 0 <= j < n ==> !Produced(net, net.order[j]) || net.order[j] in m.prices {
      forall k | Produced(net, k) ensures k in m.prices {
        var j :| 0 <= j < n && net.order[j] == k;
      }
    }
  }
}
