/** One production line (productionline.py): a circular queue of recipes, a `producing`
    flag, a countdown for the recipe that is running and the shared inventory it draws
    its inputs from and delivers its output to. The value-level functions say what each
    operation does to the line as a whole (`Line`); the `ProductionLine` class performs
    the operations on its fields and is proved equal to them. */
module ProductionLines {
  import opened Wrappers
  import opened Inventories
  import opened Clock

  /** One `{id, count}` pair of a recipe's inputs. */
  datatype Factor = Factor(id: string, count: real)

  /** A recipe of the catalog: its duration string, inputs, output ticker and output count. */
  datatype Recipe = Recipe(time: string, inputs: seq<Factor>, output: string, count: real)

  /** One item of the queue a line is configured with: a recipe id and a number of runs. */
  datatype QueueItem = QueueItem(recipe: string, count: nat)

  /** One entry of `self.queue`: the id, the number of runs and the catalog recipe. */
  datatype Queued = Queued(id: string, count: nat, recipe: Recipe)

  /** Everything a step reads and writes: the queue, the flag, the countdown's four slots
      and the inventory's map. */
  datatype Line = Line(queue: seq<Queued>, producing: bool, clock: Slots, stock: Stock)

  /** The four slots of a countdown. */
  type Slots = v: seq<int> | |v| == 4 witness [0, 0, 0, 0]

  // ---------------------------------------------------------------------------------
  // The queue

  /** Item `k` is the first one whose recipe the catalog lacks. */
  predicate FirstUnknown(items: seq<QueueItem>, recipes: map<string, Recipe>, k: int)
  {
    0 <= k < |items| && items[k].recipe !in recipes && forall j :: 0 <= j < k ==> items[j].recipe in recipes
  }

  /** The queue loop of `__init__`: every item looked up in the catalog, in order; the
      first item naming an unknown recipe raises. */
  function BuildQueue(items: seq<QueueItem>, recipes: map<string, Recipe>): (r: Result<seq<Queued>>)
    ensures r.Ok? <==> forall k :: 0 <= k < |items| ==> items[k].recipe in recipes
    ensures r.Ok? ==> |r.value| == |items|
    ensures r.Ok? ==> forall k :: 0 <= k < |items| ==>
      r.value[k] == Queued(items[k].recipe, items[k].count, recipes[items[k].recipe])
    ensures r.Err? ==> exists k :: FirstUnknown(items, recipes, k) && r.error == RecipeNotFound(items[k].recipe)
  {
    if |items| == 0 then Ok([])
    else
      var pre := items[..|items| - 1];
      var item := items[|items| - 1];
      assert forall k :: 0 <= k < |pre| ==> pre[k] == items[k];
      var q :- BuildQueue(pre, recipes);
      if item.recipe !in recipes then Err(RecipeNotFound(item.recipe))
      else Ok(q + [Queued(item.recipe, item.count, recipes[item.recipe])])
  }

  /** Once a prefix of the items fails, the whole queue fails with the same error. */
  lemma {:induction false} BuildQueueErrorSticks(items: seq<QueueItem>, recipes: map<string, Recipe>, k: nat)
    requires k <= |items| && BuildQueue(items[..k], recipes).Err?
    ensures BuildQueue(items, recipes) == BuildQueue(items[..k], recipes)
  {
    if k < |items| {
      var pre := items[..|items| - 1];
      assert pre[..k] == items[..k];
      BuildQueueErrorSticks(pre, recipes, k);
    } else {
      assert items[..k] == items;
    }
  }

  /** The head moved to the back. */
  function Turn<T>(q: seq<T>): (r: seq<T>)
    requires |q| > 0
    ensures |r| == |q| && r[..|q| - 1] == q[1..] && r[|q| - 1] == q[0]
  {
    q[1..] + [q[0]]
  }

  /** Turning keeps the queue's items. */
  lemma TurnKeepsItems<T>(q: seq<T>)
    requires |q| > 0
    ensures multiset(Turn(q)) == multiset(q)
  {
    assert q == [q[0]] + q[1..];
  }

  /** `_set_next_recipe_active`: `pop(0)` raises on an empty queue. */
  function RotateQueue(q: seq<Queued>): (r: Result<seq<Queued>>)
    ensures r.Ok? <==> |q| > 0
    ensures r.Ok? ==> r.value == Turn(q)
  {
    if |q| == 0 then Err(EmptyQueue) else Ok(Turn(q))
  }

  /** The queue after `k` rotations. */
  function Rotations<T>(q: seq<T>, k: nat): (r: seq<T>)
    requires |q| > 0
    ensures |r| == |q|
  {
    if k == 0 then q else Turn(Rotations(q, k - 1))
  }

  /** Turning the queue that starts at its `(k-1)`-th item gives the one starting at its
      `k`-th. */
  lemma TurnShifts<T>(q: seq<T>, k: nat)
    requires 0 < k <= |q|
    ensures Turn(q[k - 1..] + q[..k - 1]) == q[k..] + q[..k]
  {
    var p := q[k - 1..] + q[..k - 1];
    assert p[0] == q[k - 1];
    assert p[1..] == q[k..] + q[..k - 1];
    assert q[..k - 1] + [q[k - 1]] == q[..k];
  }

  /** After `k` rotations the queue starts at its `k`-th item; so after as many rotations
      as it has items every recipe has had its turn and the queue is back where it began. */
  lemma {:induction false} RotationsBringBack<T>(q: seq<T>, k: nat)
    requires 0 < |q| && k <= |q|
    ensures Rotations(q, k) == q[k..] + q[..k]
    ensures k == |q| ==> Rotations(q, k) == q
  {
    if k == 0 {
      assert q[0..] + q[..0] == q;
    } else {
      RotationsBringBack(q, k - 1);
      TurnShifts(q, k);
    }
    if k == |q| {
      assert q[k..] + q[..k] == q;
    }
  }

  // ---------------------------------------------------------------------------------
  // Inputs

  /** The value `_inputs_available` returns: the flag it starts from and sets on a
      shortage, or the on-hand count it stores for an input that is not short. */
  datatype Avail = Flag(b: bool) | OnHand(amount: real)

  /** Python truthiness of that value: an on-hand count of 0 is falsy. */
  predicate Truthy(a: Avail)
  {
    match a
    case Flag(b) => b
    case OnHand(x) => x != 0.0
  }

  /** The amount one input needs for `runs` runs. */
  function Need(f: Factor, runs: nat): real
  {
    f.count * runs as real
  }

  predicate Enough(stock: Stock, f: Factor, runs: nat)
  {
    CountOf(stock, f.id) - Need(f, runs) >= 0.0
  }

  /** What one pass of the loop stores in `available`. */
  function Check(stock: Stock, f: Factor, runs: nat): (r: Avail)
    ensures r.Flag? <==> !Enough(stock, f, runs)
    ensures r.OnHand? ==> r.amount == CountOf(stock, f.id)
  {
    var have := CountOf(stock, f.id);
    if have - Need(f, runs) < 0.0 then Flag(false) else OnHand(have)
  }

  /** The value left in `available` after the loop over the inputs. */
  function Availability(stock: Stock, inputs: seq<Factor>, runs: nat): Avail
  {
    if |inputs| == 0 then Flag(true) else Check(stock, inputs[|inputs| - 1], runs)
  }

  /** What the check evidently means: every input is on hand in the needed amount. */
  predicate AllEnough(stock: Stock, inputs: seq<Factor>, runs: nat)
  {
    forall k :: 0 <= k < |inputs| ==> Enough(stock, inputs[k], runs)
  }

  /** The check as written: a recipe without inputs passes; otherwise only the last input
      decides, and it passes when that input is on hand in a non-zero amount that covers
      the need. Every shortage of an earlier input goes unnoticed. */
  lemma AvailabilityDecidedByLast(stock: Stock, inputs: seq<Factor>, runs: nat)
    ensures |inputs| == 0 ==> Truthy(Availability(stock, inputs, runs))
    ensures |inputs| > 0 ==>
      (Truthy(Availability(stock, inputs, runs)) <==>
         Enough(stock, inputs[|inputs| - 1], runs) && CountOf(stock, inputs[|inputs| - 1].id) != 0.0)
    ensures AllEnough(stock, inputs, runs) && (|inputs| > 0 ==> CountOf(stock, inputs[|inputs| - 1].id) != 0.0)
      ==> Truthy(Availability(stock, inputs, runs))
  {
  }

  // ---------------------------------------------------------------------------------
  // Consumption

  /** The inventory after `_consume_inputs`, and the ticker whose `remove` failed (the
      exception). The removals made before the failure stay made. */
  datatype Consumption = Consumption(stock: Stock, failed: Option<string>)

  function Consume(stock: Stock, inputs: seq<Factor>, runs: nat): (r: Consumption)
    ensures r.stock.Keys == stock.Keys
  {
    if |inputs| == 0 then Consumption(stock, None)
    else
      var c := Consume(stock, inputs[..|inputs| - 1], runs);
      var f := inputs[|inputs| - 1];
      if c.failed.Some? then c
      else match Removed(c.stock, f.id, Need(f, runs))
        case None => Consumption(c.stock, Some(f.id))
        case Some(s) => Consumption(s, None)
  }

  /** The removals `_consume_inputs` issues, as inventory operations. */
  function Removals(inputs: seq<Factor>, runs: nat): (ops: seq<Op>)
    ensures |ops| == |inputs|
    ensures forall k :: 0 <= k < |inputs| ==> ops[k] == RemoveOp(inputs[k].id, Need(inputs[k], runs))
  {
    if |inputs| == 0 then [] else [RemoveOp(inputs[0].id, Need(inputs[0], runs))] + Removals(inputs[1..], runs)
  }

  /** When every removal succeeds, the inventory is the one the removals replay to. */
  lemma {:induction false} ConsumeIsReplay(stock: Stock, inputs: seq<Factor>, runs: nat)
    requires Consume(stock, inputs, runs).failed.None?
    ensures Consume(stock, inputs, runs).stock == Replay(stock, Removals(inputs, runs))
  {
    if |inputs| > 0 {
      var pre := inputs[..|inputs| - 1];
      var f := inputs[|inputs| - 1];
      var op := RemoveOp(f.id, Need(f, runs));
      ConsumeLast(stock, inputs, runs);
      ConsumeIsReplay(stock, pre, runs);
      RemovalsLast(inputs, runs);
      ReplayAppend(stock, Removals(pre, runs), op);
    }
  }

  /** A successful consumption is the consumption of all but the last input followed by
      the removal of the last. */
  lemma ConsumeLast(stock: Stock, inputs: seq<Factor>, runs: nat)
    requires |inputs| > 0 && Consume(stock, inputs, runs).failed.None?
    ensures var pre := inputs[..|inputs| - 1];
      var f := inputs[|inputs| - 1];
      && Consume(stock, pre, runs).failed.None?
      && Consume(stock, inputs, runs).stock == Apply(Consume(stock, pre, runs).stock, RemoveOp(f.id, Need(f, runs)))
  {
  }

  lemma RemovalsLast(inputs: seq<Factor>, runs: nat)
    requires |inputs| > 0
    ensures var f := inputs[|inputs| - 1];
      Removals(inputs, runs) == Removals(inputs[..|inputs| - 1], runs) + [RemoveOp(f.id, Need(f, runs))]
  {
    var f := inputs[|inputs| - 1];
    var want := Removals(inputs[..|inputs| - 1], runs) + [RemoveOp(f.id, Need(f, runs))];
    assert |want| == |inputs|;
    assert forall k :: 0 <= k < |inputs| ==> Removals(inputs, runs)[k] == want[k];
  }

  /** One more input continues the consumption of the shorter prefix. */
  lemma ConsumeNext(stock: Stock, inputs: seq<Factor>, runs: nat, i: nat)
    requires i < |inputs|
    ensures var c := Consume(stock, inputs[..i], runs);
      var f := inputs[i];
      Consume(stock, inputs[..i + 1], runs) ==
        if c.failed.Some? then c
        else match Removed(c.stock, f.id, Need(f, runs))
          case None => Consumption(c.stock, Some(f.id))
          case Some(s) => Consumption(s, None)
  {
    assert inputs[..i + 1][..i] == inputs[..i];
  }

  /** Once the removals of a prefix of the inputs fail, the whole consumption ends there. */
  lemma {:induction false} ConsumeFailureSticks(stock: Stock, inputs: seq<Factor>, runs: nat, k: nat)
    requires k <= |inputs| && Consume(stock, inputs[..k], runs).failed.Some?
    ensures Consume(stock, inputs, runs) == Consume(stock, inputs[..k], runs)
  {
    if k < |inputs| {
      var pre := inputs[..|inputs| - 1];
      assert pre[..k] == inputs[..k];
      ConsumeFailureSticks(stock, pre, runs, k);
    } else {
      assert inputs[..k] == inputs;
    }
  }

  /** Input `k` is where consumption stops: the inputs before it were all removed, its own
      removal fails, and the result is what the earlier removals left. */
  predicate FailsAt(stock: Stock, inputs: seq<Factor>, runs: nat, k: nat)
    requires k < |inputs|
  {
    var before := Consume(stock, inputs[..k], runs);
    && before.failed.None?
    && !HasIn(before.stock, inputs[k].id, Need(inputs[k], runs))
    && Consume(stock, inputs, runs) == Consumption(before.stock, Some(inputs[k].id))
  }

  /** The failure is the first input whose removal fails, after every earlier input was
      removed: there is no rollback. */
  lemma {:induction false} ConsumeStopsAtFirstFailure(stock: Stock, inputs: seq<Factor>, runs: nat)
    requires Consume(stock, inputs, runs).failed.Some?
    ensures exists k :: 0 <= k < |inputs| && FailsAt(stock, inputs, runs, k)
  {
    var pre := inputs[..|inputs| - 1];
    var c := Consume(stock, pre, runs);
    if c.failed.Some? {
      ConsumeStopsAtFirstFailure(stock, pre, runs);
      var k :| 0 <= k < |pre| && FailsAt(stock, pre, runs, k);
      assert pre[..k] == inputs[..k];
      assert FailsAt(stock, inputs, runs, k);
    } else {
      assert inputs[..|inputs| - 1] == pre;
      assert FailsAt(stock, inputs, runs, |inputs| - 1);
    }
  }

  /** No quantity ever goes negative through consumption: a failed removal changes nothing
      and a successful one never overdraws. */
  lemma {:induction false} ConsumeKeepsNonNegative(stock: Stock, inputs: seq<Factor>, runs: nat)
    requires Inventories.NonNegative(stock)
    ensures Inventories.NonNegative(Consume(stock, inputs, runs).stock)
  {
    if |inputs| > 0 {
      ConsumeKeepsNonNegative(stock, inputs[..|inputs| - 1], runs);
    }
  }

  function Ids(inputs: seq<Factor>): set<string>
  {
    set k | 0 <= k < |inputs| :: inputs[k].id
  }

  predicate DistinctIds(inputs: seq<Factor>)
  {
    forall i, j :: 0 <= i < j < |inputs| ==> inputs[i].id != inputs[j].id
  }

  lemma IdsLast(inputs: seq<Factor>)
    requires |inputs| > 0
    ensures Ids(inputs) == Ids(inputs[..|inputs| - 1]) + {inputs[|inputs| - 1].id}
  {
    var pre := inputs[..|inputs| - 1];
    forall t | t in Ids(pre) ensures t in Ids(inputs) {
      var k :| 0 <= k < |pre| && pre[k].id == t;
      assert inputs[k].id == t;
    }
    assert inputs[|inputs| - 1].id in Ids(inputs);
  }

  /** A removal that the stock covers extends a successful consumption. */
  lemma ConsumeLastSucceeds(stock: Stock, inputs: seq<Factor>, runs: nat)
    requires |inputs| > 0
    requires var f := inputs[|inputs| - 1];
      var c := Consume(stock, inputs[..|inputs| - 1], runs);
      c.failed.None? && HasIn(c.stock, f.id, Need(f, runs))
    ensures var f := inputs[|inputs| - 1];
      var c := Consume(stock, inputs[..|inputs| - 1], runs);
      Consume(stock, inputs, runs) == Consumption(Removed(c.stock, f.id, Need(f, runs)).value, None)
  {
  }

  /** With distinct input tickers that are all on hand, consumption succeeds and takes
      exactly the need of each input, leaving every other ticker alone. */
  lemma {:induction false} ConsumeTakesEachNeed(stock: Stock, inputs: seq<Factor>, runs: nat)
    requires DistinctIds(inputs) && AllEnough(stock, inputs, runs) && Ids(inputs) <= stock.Keys
    ensures Consume(stock, inputs, runs).failed.None?
    ensures forall k :: 0 <= k < |inputs| ==>
      CountOf(Consume(stock, inputs, runs).stock, inputs[k].id) == CountOf(stock, inputs[k].id) - Need(inputs[k], runs)
    ensures forall t :: t !in Ids(inputs) ==> CountOf(Consume(stock, inputs, runs).stock, t) == CountOf(stock, t)
  {
    if |inputs| > 0 {
      var pre := inputs[..|inputs| - 1];
      var f := inputs[|inputs| - 1];
      assert forall k :: 0 <= k < |pre| ==> pre[k] == inputs[k];
      IdsLast(inputs);
      ConsumeTakesEachNeed(stock, pre, runs);
      var c := Consume(stock, pre, runs);
      assert forall k :: 0 <= k < |pre| ==> pre[k].id != f.id;
      assert f.id !in Ids(pre);
      assert Enough(stock, inputs[|inputs| - 1], runs);
      ConsumeLastSucceeds(stock, inputs, runs);
      var s := Removed(c.stock, f.id, Need(f, runs)).value;
      forall k | 0 <= k < |inputs|
        ensures CountOf(s, inputs[k].id) == CountOf(stock, inputs[k].id) - Need(inputs[k], runs)
      {
        if k < |pre| {
          assert pre[k].id != f.id;
        }
      }
    }
  }

  // ---------------------------------------------------------------------------------
  // The recipe clock

  /** `_set_recipe_clock`: the recipe's duration, scaled by the number of runs, then by the
      line's efficiency. A malformed duration raises, and so does an efficiency of 0. */
  function RecipeClock(active: Queued, e: real): (r: Result<seq<int>>)
    ensures r.Ok? <==> Parsed(active.recipe.time).Ok? && e != 0.0
    ensures r.Err? && Parsed(active.recipe.time).Ok? ==> r.error == ZeroDivision
    ensures r.Err? && Parsed(active.recipe.time).Err? ==> r.error == Parsed(active.recipe.time).error
    ensures r.Ok? ==> |r.value| == 4
  {
    var v :- Parsed(active.recipe.time);
    var w := WithMultiplier(v, active.count);
    if e == 0.0 then Err(ZeroDivision) else Ok(WithEfficiency(w, e))
  }

  /** For a positive efficiency the countdown is in normal form and holds the whole days
      of the scaled total plus the scaled total divided by the efficiency: the days are
      counted twice once the runs add up to a day. */
  lemma RecipeClockMinutes(active: Queued, e: real)
    requires RecipeClock(active, e).Ok? && e > 0.0
    ensures InNormalForm(RecipeClock(active, e).value)
    ensures var total := Minutes(Parsed(active.recipe.time).value) * active.count;
      Minutes(RecipeClock(active, e).value) == (total / (24 * 60)) * (24 * 60) + (total as real / e).Floor
  {
    var v := Parsed(active.recipe.time).value;
    var w := WithMultiplier(v, active.count);
    MultipliedDays(v, active.count);
    assert RecipeClock(active, e).value == WithEfficiency(w, e);
  }

  /** The days slot of a scaled duration holds its whole days. */
  lemma MultipliedDays(v: seq<int>, n: nat)
    requires InNormalForm(v)
    ensures WithMultiplier(v, n)[DAYS] == (Minutes(v) * n) / (24 * 60)
    ensures WithMultiplier(v, n)[SECONDS] == 0
  {
    var t := Minutes(v) * n;
    assert t >= 0;
    assert (t / 60) / 24 == t / (24 * 60);
  }

  // ---------------------------------------------------------------------------------
  // The line, operation by operation

  /** `_start_next_recipe`. */
  function StartNext(s: Line, e: real): Result<Line>
  {
    if |s.queue| == 0 then Err(EmptyQueue)
    else
      var active := s.queue[0];
      if !Truthy(Availability(s.stock, active.recipe.inputs, active.count)) then Ok(s)
      else
        var c := Consume(s.stock, active.recipe.inputs, active.count);
        if c.failed.Some? then Err(RemoveFailed(c.failed.value))
        else
          var clock :- RecipeClock(active, e);
          Ok(Line(s.queue, true, clock, c.stock))
  }

  /** When the check passes, the start raises the flag, consumes the inputs and installs
      the new countdown, in that order, each able to raise; otherwise nothing changes. An
      empty queue raises. The queue is never changed. */
  lemma StartNextCases(s: Line, e: real)
    ensures StartNext(s, e).Ok? ==> StartNext(s, e).value.queue == s.queue
    ensures |s.queue| == 0 ==> StartNext(s, e) == Err(EmptyQueue)
    ensures |s.queue| > 0 && !Truthy(Availability(s.stock, s.queue[0].recipe.inputs, s.queue[0].count)) ==>
      StartNext(s, e) == Ok(s)
    ensures |s.queue| > 0 && Truthy(Availability(s.stock, s.queue[0].recipe.inputs, s.queue[0].count)) ==>
      var active := s.queue[0];
      var c := Consume(s.stock, active.recipe.inputs, active.count);
      && (c.failed.Some? ==> StartNext(s, e) == Err(RemoveFailed(c.failed.value)))
      && (c.failed.None? ==> StartNext(s, e).Ok? == RecipeClock(active, e).Ok?)
      && (StartNext(s, e).Ok? ==> StartNext(s, e).value == Line(s.queue, true, RecipeClock(active, e).value, c.stock))
  {
  }

  /** What one queue entry produces: its runs times the recipe's output count. */
  function Yield(q: Queued): real
  {
    q.count as real * q.recipe.count
  }

  /** `_produce`: the runs times the recipe's count of its output go into the inventory,
      and the flag drops. */
  function Produce(s: Line): (r: Result<Line>)
    ensures r.Ok? <==> |s.queue| > 0
    ensures r.Ok? ==>
      var active := s.queue[0];
      var out := active.recipe.output;
      && r.value == s.(producing := false, stock := r.value.stock)
      && CountOf(r.value.stock, out) == CountOf(s.stock, out) + Yield(active)
      && r.value.stock.Keys == s.stock.Keys + {out}
      && forall t | t in s.stock && t != out :: r.value.stock[t] == s.stock[t]
  {
    if |s.queue| == 0 then Err(EmptyQueue)
    else
      var active := s.queue[0];
      Ok(s.(producing := false, stock := Added(s.stock, active.recipe.output, Yield(active))))
  }

  function Rotate(s: Line): Result<Line>
  {
    var q :- RotateQueue(s.queue);
    Ok(s.(queue := q))
  }

  /** The last branch of `step`: produce, rotate, try to start the next recipe. */
  function Finish(s: Line, e: real): Result<Line>
  {
    var p :- Produce(s);
    var q :- Rotate(p);
    StartNext(q, e)
  }

  /** `step`: the countdown always moves first; an idle line tries to start, a busy line
      with time left waits, and a busy line at zero finishes. */
  function LineStep(s: Line, e: real): Result<Line>
  {
    var t := s.(clock := TickDown(s.clock));
    if !s.producing then StartNext(t, e)
    else if Minutes(t.clock) > 0 then Ok(t)
    else Finish(t, e)
  }

  /** The queue only ever turns: a step keeps its items and their number, and either
      leaves it as it was or moves its head to the back. */
  lemma StepTurnsQueue(s: Line, e: real)
    ensures LineStep(s, e).Ok? ==>
      var q := LineStep(s, e).value.queue;
      && multiset(q) == multiset(s.queue)
      && (q == s.queue || (|s.queue| > 0 && q == s.queue[1..] + [s.queue[0]]))
  {
    var t := s.(clock := TickDown(s.clock));
    if !s.producing {
      StartNextKeepsQueue(t, e);
    } else if Minutes(t.clock) <= 0 && |s.queue| > 0 {
      FinishTurnsQueue(t, e);
      TurnKeepsItems(s.queue);
    }
  }

  lemma StartNextKeepsQueue(s: Line, e: real)
    ensures StartNext(s, e).Ok? ==> StartNext(s, e).value.queue == s.queue
  {
  }

  lemma FinishTurnsQueue(s: Line, e: real)
    requires |s.queue| > 0
    ensures Finish(s, e).Ok? ==> Finish(s, e).value.queue == Turn(s.queue)
  {
    StartNextKeepsQueue(Rotate(Produce(s).value).value, e);
  }

  /** The line after its countdown moved `k` times and nothing else happened. */
  function Waited(s: Line, k: nat): Line
  {
    if k == 0 then s else var t := Waited(s, k - 1); t.(clock := TickDown(t.clock))
  }

  /** Waiting `k <= n` times on a countdown of `n` minutes leaves `n - k` minutes. */
  lemma {:induction false} WaitedClock(s: Line, k: nat)
    requires InNormalForm(s.clock) && k <= Minutes(s.clock)
    ensures InNormalForm(Waited(s, k).clock) && Minutes(Waited(s, k).clock) == Minutes(s.clock) - k
    ensures Waited(s, k) == s.(clock := Waited(s, k).clock)
  {
    if k > 0 {
      WaitedClock(s, k - 1);
      var t := Waited(s, k - 1);
      assert t.clock[..3] == [t.clock[0], t.clock[1], t.clock[2]];
      assert Clock.NonNegative(t.clock[..3]);
    }
  }

  /** A busy line with more than a minute left only counts down. */
  lemma CountingStep(s: Line, e: real)
    requires s.producing && InNormalForm(s.clock) && Minutes(s.clock) > 1
    ensures LineStep(s, e) == Ok(s.(clock := TickDown(s.clock)))
    ensures InNormalForm(TickDown(s.clock)) && Minutes(TickDown(s.clock)) == Minutes(s.clock) - 1
  {
    assert s.clock[..3] == [s.clock[0], s.clock[1], s.clock[2]];
    assert Clock.NonNegative(s.clock[..3]);
  }

  /** A busy line with at most a minute left finishes. */
  lemma FinishingStep(s: Line, e: real)
    requires s.producing && InNormalForm(s.clock) && Minutes(s.clock) <= 1
    ensures LineStep(s, e) == Finish(s.(clock := TickDown(s.clock)), e)
    ensures Minutes(TickDown(s.clock)) == 0
  {
    assert s.clock[..3] == [s.clock[0], s.clock[1], s.clock[2]];
    assert Clock.NonNegative(s.clock[..3]);
  }

  /** A recipe running with a countdown of `n` minutes: each of the first max(n, 1) - 1
      steps only moves the countdown, and step max(n, 1) finishes the recipe. So a recipe
      with n >= 1 minutes completes on the n-th step after it started, one with 0 minutes
      on the very next step. */
  lemma CompletesOnStep(s: Line, e: real, j: nat)
    requires s.producing && InNormalForm(s.clock)
    requires j < if Minutes(s.clock) > 1 then Minutes(s.clock) else 1
    ensures var n := if Minutes(s.clock) > 1 then Minutes(s.clock) else 1;
      && (j < n - 1 ==> LineStep(Waited(s, j), e) == Ok(Waited(s, j + 1)))
      && (j == n - 1 ==> LineStep(Waited(s, j), e) == Finish(Waited(s, j + 1), e)
                         && Minutes(Waited(s, j + 1).clock) == 0)
  {
    WaitedClock(s, j);
    var t := Waited(s, j);
    if Minutes(t.clock) > 1 {
      CountingStep(t, e);
    } else {
      FinishingStep(t, e);
    }
  }

  /** A shortage the check does not see makes the start raise: with 1 of 2 needed A on
      hand but plenty of B, the line does not starve, it fails removing A. */
  lemma MaskedShortageRaises(r: Recipe)
    requires r.inputs == [Factor("A", 2.0), Factor("B", 1.0)]
    ensures var s := Line([Queued("R", 1, r)], false, [0, 0, 0, 0], map["A" := 1.0, "B" := 5.0]);
      Truthy(Availability(s.stock, r.inputs, 1)) && !AllEnough(s.stock, r.inputs, 1)
      && StartNext(s, 1.0) == Err(RemoveFailed("A"))
  {
    var stock := map["A" := 1.0, "B" := 5.0];
    assert r.inputs[..1] == [Factor("A", 2.0)];
    assert r.inputs[..1][..0] == [];
    assert Consume(stock, r.inputs[..1], 1) == Consumption(stock, Some("A"));
  }

  /** A last input that needs nothing and of which nothing is on hand makes the check
      falsy, so the line starves although nothing is short. */
  lemma ZeroOnHandStarves(r: Recipe)
    requires r.inputs == [Factor("A", 0.0)]
    ensures var s := Line([Queued("R", 1, r)], false, [0, 0, 0, 0], map[]);
      AllEnough(s.stock, r.inputs, 1) && StartNext(s, 1.0) == Ok(s)
  {
  }

  // ---------------------------------------------------------------------------------
  // The line object

  class ProductionLine {
    const lineId: string
    /** `line_spec['efficiency']`. */
    const efficiency: real
    var queue: seq<Queued>
    const inventory: Inventory
    var producing: bool
    /** The digits of the line's recipe countdown. No other object holds the line's
        `DecrClock`, so the line keeps its value; `Clock.DecrClock.Step` is proved to
        compute the same `TickDown`. */
    var recipeClock: Slots

    /** The line's own part of its state: everything but the shared inventory. */
    function Own(): Line
      reads this
    {
      Line(queue, producing, recipeClock, map[])
    }

    function State(): Line
      reads this, inventory
    {
      Own().(stock := inventory.items)
    }

    /** The part of `__init__` before the first start: an idle line on a zero countdown. */
    constructor(lineId: string, efficiency: real, queue: seq<Queued>, inventory: Inventory)
      ensures this.lineId == lineId && this.efficiency == efficiency && this.inventory == inventory
      ensures State() == Line(queue, false, [0, 0, 0, 0], inventory.items)
    {
      this.lineId := lineId;
      this.efficiency := efficiency;
      this.queue := queue;
      this.inventory := inventory;
      producing := false;
      var zero := new Duration.FromFields([0]);
      assert Pad([0]) == [0, 0, 0, 0];
      var clock := new DecrClock(zero);
      recipeClock := clock.vals[..];
    }

    /** `_inputs_available`. */
    method InputsAvailable(inputs: seq<Factor>, runs: nat) returns (available: Avail)
      ensures available == Availability(inventory.items, inputs, runs)
    {
      available := Flag(true);
      var i := 0;
      while i < |inputs|
        invariant 0 <= i <= |inputs|
        invariant available == Availability(inventory.items, inputs[..i], runs)
      {
        var f := inputs[i];
        var count := f.count * runs as real;
        available := OnHand(inventory.Count(f.id));
        if inventory.Count(f.id) - count < 0.0 {
          available := Flag(false);
        }
        i := i + 1;
      }
      assert inputs[..i] == inputs;
    }

    /** `_consume_inputs`: the first failed removal raises; earlier removals stay made. */
    method ConsumeInputs(inputs: seq<Factor>, runs: nat) returns (r: Result<()>)
      modifies inventory
      ensures var c := Consume(old(inventory.items), inputs, runs);
        && inventory.items == c.stock
        && (r.Ok? <==> c.failed.None?)
        && (r.Err? ==> r.error == RemoveFailed(c.failed.value))
    {
      var i := 0;
      while i < |inputs|
        invariant 0 <= i <= |inputs|
        invariant Consume(old(inventory.items), inputs[..i], runs) == Consumption(inventory.items, None)
      {
        var f := inputs[i];
        var ok := inventory.Remove(f.id, Need(f, runs));
        ConsumeNext(old(inventory.items), inputs, runs, i);
        if !ok {
          ConsumeFailureSticks(old(inventory.items), inputs, runs, i + 1);
          return Err(RemoveFailed(f.id));
        }
        i := i + 1;
      }
      assert inputs[..i] == inputs;
      return Ok(());
    }

    /** `_set_recipe_clock`: a fresh countdown over a fresh duration. */
    method SetRecipeClock(active: Queued, e: real) returns (r: Result<DecrClock>)
      ensures r.Ok? <==> RecipeClock(active, e).Ok?
      ensures r.Err? ==> r.error == RecipeClock(active, e).error
      ensures r.Ok? ==> fresh(r.value) && fresh(r.value.vals) && r.value.vals.Length == 4
                        && r.value.vals[..] == RecipeClock(active, e).value
    {
      var duration :- NewDuration(active.recipe.time);
      duration.ApplyMultiplier(active.count);
      if e == 0.0 {
        return Err(ZeroDivision);
      }
      duration.ApplyEfficiency(e);
      var clock := new DecrClock(duration);
      return Ok(clock);
    }

    /** `_produce`. */
    method ProduceOutput() returns (r: Result<()>)
      modifies this, inventory
      ensures recipeClock == old(recipeClock)
      ensures r.Ok? <==> Produce(old(State())).Ok?
      ensures r.Ok? ==> State() == Produce(old(State())).value
      ensures r.Err? ==> r.error == EmptyQueue
    {
      if |queue| == 0 {
        return Err(EmptyQueue);
      }
      var active := queue[0];
      var product := active.recipe.output;
      var count := Yield(active);
      var _ := inventory.Add(product, count);
      producing := false;
      return Ok(());
    }

    /** `_set_next_recipe_active`. */
    method SetNextRecipeActive() returns (r: Result<()>)
      modifies this
      ensures recipeClock == old(recipeClock)
      ensures r.Ok? <==> Rotate(old(State())).Ok?
      ensures r.Ok? ==> State() == Rotate(old(State())).value
      ensures r.Err? ==> r.error == EmptyQueue
    {
      if |queue| == 0 {
        return Err(EmptyQueue);
      }
      var last := queue[0];
      queue := queue[1..];
      queue := queue + [last];
      return Ok(());
    }

    /** `_start_next_recipe`. */
    method StartNextRecipe() returns (r: Result<()>)
      modifies this, inventory
      ensures r.Ok? <==> StartNext(old(State()), efficiency).Ok?
      ensures r.Ok? ==> State() == StartNext(old(State()), efficiency).value
      ensures r.Err? ==> r.error == StartNext(old(State()), efficiency).error
    {
      if |queue| == 0 {
        return Err(EmptyQueue);
      }
      var active := queue[0];
      var available := InputsAvailable(active.recipe.inputs, active.count);
      if Truthy(available) {
        producing := true;
        var consumed := ConsumeInputs(active.recipe.inputs, active.count);
        if consumed.Err? {
          return Err(consumed.error);
        }
        var clock := SetRecipeClock(active, efficiency);
        if clock.Err? {
          return Err(clock.error);
        }
        recipeClock := clock.value.vals[..];
      }
      return Ok(());
    }

    /** `step`. */
    method Step() returns (r: Result<()>)
      modifies this, inventory
      ensures r.Ok? <==> LineStep(old(State()), efficiency).Ok?
      ensures r.Ok? ==> State() == LineStep(old(State()), efficiency).value
      ensures r.Err? ==> r.error == LineStep(old(State()), efficiency).error
    {
      recipeClock := TickDown(recipeClock);
      if !producing {
        r := StartNextRecipe();
      } else if Minutes(recipeClock) > 0 {
        r := Ok(());
      } else {
        r := ProduceOutput();
        if r.Err? {
          return;
        }
        r := SetNextRecipeActive();
        if r.Err? {
          return;
        }
        r := StartNextRecipe();
      }
    }
  }

  /** `ProductionLine(line_id, queue, inventory)`: build the queue from the catalog, then
      start the first recipe. */
  method NewLine(lineId: string, efficiency: real, items: seq<QueueItem>, recipes: map<string, Recipe>,
                 inventory: Inventory) returns (r: Result<ProductionLine>)
    modifies inventory
    ensures BuildQueue(items, recipes).Err? ==>
      r == Err(BuildQueue(items, recipes).error) && inventory.items == old(inventory.items)
    ensures BuildQueue(items, recipes).Ok? ==>
      var start := StartNext(Line(BuildQueue(items, recipes).value, false, [0, 0, 0, 0], old(inventory.items)), efficiency);
      && (r.Ok? <==> start.Ok?)
      && (r.Err? ==> r.error == start.error)
      && (r.Ok? ==> fresh(r.value) && r.value.inventory == inventory
                    && r.value.lineId == lineId && r.value.efficiency == efficiency
                    && r.value.State() == start.value)
  {
    var queue: seq<Queued> := [];
    var i := 0;
    while i < |items|
      invariant 0 <= i <= |items|
      invariant BuildQueue(items[..i], recipes) == Ok(queue)
    {
      var item := items[i];
      assert items[..i + 1][..i] == items[..i];
      if item.recipe !in recipes {
        BuildQueueErrorSticks(items, recipes, i + 1);
        return Err(RecipeNotFound(item.recipe));
      }
      queue := queue + [Queued(item.recipe, item.count, recipes[item.recipe])];
      i := i + 1;
    }
    assert items[..i] == items;
    var line := new ProductionLine(lineId, efficiency, queue, inventory);
    var started := line.StartNextRecipe();
    if started.Err? {
      return Err(started.error);
    }
    return Ok(line);
  }
}
