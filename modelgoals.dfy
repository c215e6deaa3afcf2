/** model-goals.py: the site-planning helpers. A building's workforce as a vector over the
    five worker types, a site's worker capacity, demand and surplus, the daily consumption of
    the demanded workers, the site's area accounting, the one-line building summary, and
    building one more building on a site. */
module ModelGoals {
  import opened Wrappers
  import opened Text
  import opened Dicts
  import opened Catalogs
  import opened Inventories

  /** `WORKFORCE`: the worker types, in the order of every workforce vector. */
  const Workforce: seq<string> := ["PIONEER", "SETTLER", "TECHNICIAN", "ENGINEER", "SCIENTIST"]

  /** The all-zero workforce vector. */
  const NoWorkers: seq<int> := [0, 0, 0, 0, 0]

  /** `WORKFORCE.index(kind)`. */
  function IndexOf(kind: string): (r: Result<nat>)
    ensures r.Ok? <==> kind in Workforce
    ensures r.Ok? ==> r.value < |Workforce| && Workforce[r.value] == kind
    ensures r.Err? ==> r.error == UnknownWorkerType(kind)
  {
    if kind == Workforce[0] then Ok(0)
    else if kind == Workforce[1] then Ok(1)
    else if kind == Workforce[2] then Ok(2)
    else if kind == Workforce[3] then Ok(3)
    else if kind == Workforce[4] then Ok(4)
    else Err(UnknownWorkerType(kind))
  }

  // ---------------------------------------------------------------------------------
  // format_building_workers

  /** The workforce vector of the slots, slot by slot. */
  function WorkforceOf(workers: seq<WorkerSlot>): (r: Result<seq<int>>)
    ensures r.Ok? ==> |r.value| == |Workforce|
  {
    if |workers| == 0 then Ok(NoWorkers)
    else
      var v :- WorkforceOf(workers[..|workers| - 1]);
      var w := workers[|workers| - 1];
      var i :- IndexOf(w.kind);
      Ok(v[i := v[i] + w.count])
  }

  /** The total count of the slots of type `kind`. */
  function CountOfKind(workers: seq<WorkerSlot>, kind: string): int
  {
    if |workers| == 0 then 0
    else
      var w := workers[|workers| - 1];
      CountOfKind(workers[..|workers| - 1], kind) + (if w.kind == kind then w.count else 0)
  }

  /** Slot `i` of the vector sums the counts of worker type `i`; the vector exists exactly
      when every slot names a known type, and otherwise the first unknown type is reported. */
  lemma {:induction false} WorkforceMeaning(workers: seq<WorkerSlot>)
    ensures var r := WorkforceOf(workers);
      && (r.Ok? <==> forall k :: 0 <= k < |workers| ==> workers[k].kind in Workforce)
      && (r.Ok? ==> forall i :: 0 <= i < |Workforce| ==> r.value[i] == CountOfKind(workers, Workforce[i]))
      && (r.Err? ==> exists k :: 0 <= k < |workers| && workers[k].kind !in Workforce
                      && r.error == UnknownWorkerType(workers[k].kind)
                      && forall j :: 0 <= j < k ==> workers[j].kind in Workforce)
  {
    if |workers| > 0 {
      var pre := workers[..|workers| - 1];
      WorkforceMeaning(pre);
      assert forall k :: 0 <= k < |pre| ==> pre[k] == workers[k];
      var v := WorkforceOf(pre);
      if v.Err? {
        var k :| 0 <= k < |pre| && pre[k].kind !in Workforce && v.error == UnknownWorkerType(pre[k].kind)
                 && forall j :: 0 <= j < k ==> pre[j].kind in Workforce;
        assert workers[k] == pre[k];
      }
    }
  }

  lemma {:induction false} WorkforceErrorSticks(workers: seq<WorkerSlot>, k: nat)
    requires k <= |workers| && WorkforceOf(workers[..k]).Err?
    ensures WorkforceOf(workers) == WorkforceOf(workers[..k])
  {
    if k < |workers| {
      var pre := workers[..|workers| - 1];
      assert workers[..k] == pre[..k];
      WorkforceErrorSticks(pre, k);
    } else {
      assert workers[..k] == workers;
    }
  }

  /** format_building_workers. */
  method FormatBuildingWorkers(workers: seq<WorkerSlot>) returns (r: Result<seq<int>>)
    ensures r == WorkforceOf(workers)
  {
    var workforce := NoWorkers;
    var k := 0;
    while k < |workers|
      invariant 0 <= k <= |workers|
      invariant WorkforceOf(workers[..k]) == Ok(workforce)
    {
      assert workers[..k + 1][..k] == workers[..k];
      var i := IndexOf(workers[k].kind);
      if i.Err? {
        WorkforceErrorSticks(workers, k + 1);
        return Err(i.error);
      }
      workforce := workforce[i.value := workforce[i.value] + workers[k].count];
      k := k + 1;
    }
    assert workers[..k] == workers;
    return Ok(workforce);
  }

  // ---------------------------------------------------------------------------------
  // identify_worker_state

  /** One building of a site: the catalog ticker, type and name, its area and condition,
      the materials it gives back, and (for an extracted platform) its book value. */
  datatype SiteBuilding = SiteBuilding(
    ticker: string, kind: string, name: string, area: real, condition: real,
    materials: map<string, real>, bookValue: Option<real>)

  /** Worker places offered (capacity) and needed (demand). */
  datatype Crew = Crew(capacity: seq<int>, demand: seq<int>)

  datatype WorkerState = WorkerState(capacity: seq<int>, demand: seq<int>, surplus: seq<int>, consumption: Stock)

  /** `list(map(lambda x, y: x + y, a, b))` on vectors of one length. */
  function Plus(a: seq<int>, b: seq<int>): (r: seq<int>)
    requires |a| == |b|
    ensures |r| == |a| && forall i :: 0 <= i < |a| ==> r[i] == a[i] + b[i]
  {
    seq(|a|, i requires 0 <= i < |a| => a[i] + b[i])
  }

  /** `list(map(lambda x, y: x - y, a, b))` on vectors of one length. */
  function Minus(a: seq<int>, b: seq<int>): (r: seq<int>)
    requires |a| == |b|
    ensures |r| == |a| && forall i :: 0 <= i < |a| ==> r[i] == a[i] - b[i]
  {
    seq(|a|, i requires 0 <= i < |a| => a[i] - b[i])
  }

  /** The capacity and demand of the buildings: habitations add to capacity, all other
      buildings to demand, and a ticker missing from the catalog adds nothing. */
  function CrewOf(buildings: seq<SiteBuilding>, catalog: map<string, BuildingSpec>): (r: Result<Crew>)
    ensures r.Ok? ==> |r.value.capacity| == |r.value.demand| == |Workforce|
  {
    if |buildings| == 0 then Ok(Crew(NoWorkers, NoWorkers))
    else
      var c :- CrewOf(buildings[..|buildings| - 1], catalog);
      var t := buildings[|buildings| - 1].ticker;
      if t !in catalog then Ok(c)
      else
        var w :- WorkforceOf(catalog[t].workers);
        if catalog[t].kind == "HABITATION" then Ok(Crew(Plus(c.capacity, w), c.demand))
        else Ok(Crew(c.capacity, Plus(c.demand, w)))
  }

  /** `count / basis * rate`: the amount of one need at `count` workers (0 at a zero basis,
      which the Python code reports as a division by zero instead). */
  function Amount(n: Need, count: int): real
  {
    if n.basis == 0.0 then 0.0 else count as real / n.basis * n.rate
  }

  /** One worker type's needs at `count` workers: `count / basis * rate` of each need. */
  function NeedsAdded(s: Stock, needs: seq<Need>, count: int): Result<Stock>
  {
    if |needs| == 0 then Ok(s)
    else
      var a :- NeedsAdded(s, needs[..|needs| - 1], count);
      var n := needs[|needs| - 1];
      if n.basis == 0.0 then Err(ZeroDivision)
      else Ok(Added(a, n.id, Amount(n, count)))
  }

  /** The needs of worker type `i` at `count` workers, looked up in the planet's worker catalog. */
  function TypeConsumption(s: Stock, workers: WorkerCatalog, planet: string, i: nat, count: int): Result<Stock>
  {
    if count <= 0 then Ok(s)
    else if i >= |Workforce| then Err(IndexOutOfRange)
    else if planet !in workers.m then Err(KeyNotFound(planet))
    else if Workforce[i] !in workers.m[planet].m then Err(KeyNotFound(Workforce[i]))
    else
      var spec := workers.m[planet].m[Workforce[i]];
      if spec.needs.None? then Err(KeyNotFound("needs"))
      else NeedsAdded(s, spec.needs.value, count)
  }

  /** get_worker_consumption over the demand entries `demand`, the `i`-th for worker type `i`. */
  function ConsumptionOf(workers: WorkerCatalog, planet: string, demand: seq<int>): Result<Stock>
  {
    if |demand| == 0 then Ok(map[])
    else
      var a :- ConsumptionOf(workers, planet, demand[..|demand| - 1]);
      TypeConsumption(a, workers, planet, |demand| - 1, demand[|demand| - 1])
  }

  /** identify_worker_state for a site on `planet`. */
  function WorkerStateOf(buildings: seq<SiteBuilding>, catalog: map<string, BuildingSpec>, workers: WorkerCatalog, planet: string): Result<WorkerState>
  {
    var c :- CrewOf(buildings, catalog);
    var consumption :- ConsumptionOf(workers, planet, c.demand);
    Ok(WorkerState(c.capacity, c.demand, Minus(c.capacity, c.demand), consumption))
  }

  /** The sum of the workforce vectors of the catalog buildings among `buildings` whose
      habitation status is `habitation`. */
  function CrewSum(buildings: seq<SiteBuilding>, catalog: map<string, BuildingSpec>, habitation: bool, i: nat): int
  {
    if |buildings| == 0 then 0
    else
      var t := buildings[|buildings| - 1].ticker;
      CrewSum(buildings[..|buildings| - 1], catalog, habitation, i)
        + (if t in catalog && (catalog[t].kind == "HABITATION") == habitation && i < |Workforce|
           then CountOfKind(catalog[t].workers, Workforce[i]) else 0)
  }

  /** Capacity slot `i` sums worker type `i` over the site's habitations, demand slot `i`
      over its other catalog buildings. */
  lemma {:induction false} CrewMeaning(buildings: seq<SiteBuilding>, catalog: map<string, BuildingSpec>)
    requires CrewOf(buildings, catalog).Ok?
    ensures var c := CrewOf(buildings, catalog).value;
      forall i :: 0 <= i < |Workforce| ==>
        c.capacity[i] == CrewSum(buildings, catalog, true, i) && c.demand[i] == CrewSum(buildings, catalog, false, i)
  {
    if |buildings| > 0 {
      var pre := buildings[..|buildings| - 1];
      CrewMeaning(pre, catalog);
      var t := buildings[|buildings| - 1].ticker;
      if t in catalog {
        WorkforceMeaning(catalog[t].workers);
      }
    }
  }

  /** A site's crew exists exactly when every catalog building's workforce does. */
  lemma {:induction false} CrewOk(buildings: seq<SiteBuilding>, catalog: map<string, BuildingSpec>)
    ensures CrewOf(buildings, catalog).Ok? <==>
      forall k :: 0 <= k < |buildings| && buildings[k].ticker in catalog ==> WorkforceOf(catalog[buildings[k].ticker].workers).Ok?
  {
    if |buildings| > 0 {
      var pre := buildings[..|buildings| - 1];
      CrewOk(pre, catalog);
      assert forall k :: 0 <= k < |pre| ==> pre[k] == buildings[k];
    }
  }

  /** The surplus is capacity minus demand, slot by slot. */
  lemma WorkerStateSurplus(buildings: seq<SiteBuilding>, catalog: map<string, BuildingSpec>, workers: WorkerCatalog, planet: string)
    requires WorkerStateOf(buildings, catalog, workers, planet).Ok?
    ensures var w := WorkerStateOf(buildings, catalog, workers, planet).value;
      && |w.surplus| == |w.capacity| == |w.demand| == |Workforce|
      && (forall i :: 0 <= i < |Workforce| ==> w.surplus[i] == w.capacity[i] - w.demand[i])
      && (forall i :: 0 <= i < |Workforce| ==> w.capacity[i] == CrewSum(buildings, catalog, true, i))
      && (forall i :: 0 <= i < |Workforce| ==> w.demand[i] == CrewSum(buildings, catalog, false, i))
  {
    CrewMeaning(buildings, catalog);
  }

  /** The amount of `t` a need list asks for at `count` workers. */
  function NeedTotal(needs: seq<Need>, count: int, t: string): real
  {
    if |needs| == 0 then 0.0
    else
      var n := needs[|needs| - 1];
      NeedTotal(needs[..|needs| - 1], count, t)
        + (if n.id == t then Amount(n, count) else 0.0)
  }

  /** The amount of `t` the demanded workers ask for: worker types with no demand add nothing. */
  function DemandTotal(workers: WorkerCatalog, planet: string, demand: seq<int>, t: string): real
  {
    if |demand| == 0 then 0.0
    else
      var i := |demand| - 1;
      var c := demand[i];
      DemandTotal(workers, planet, demand[..i], t)
        + (if c > 0 && i < |Workforce| && planet in workers.m && Workforce[i] in workers.m[planet].m
              && workers.m[planet].m[Workforce[i]].needs.Some?
           then NeedTotal(workers.m[planet].m[Workforce[i]].needs.value, c, t) else 0.0)
  }

  lemma {:induction false} NeedsAddedMeaning(s: Stock, needs: seq<Need>, count: int, t: string)
    requires NeedsAdded(s, needs, count).Ok?
    ensures CountOf(NeedsAdded(s, needs, count).value, t) == CountOf(s, t) + NeedTotal(needs, count, t)
  {
    if |needs| > 0 {
      var pre := needs[..|needs| - 1];
      NeedsAddedMeaning(s, pre, count, t);
      var a := NeedsAdded(s, pre, count).value;
      var n := needs[|needs| - 1];
      if n.id != t {
        var r := Added(a, n.id, Amount(n, count));
        assert CountOf(r, t) == CountOf(a, t);
      }
    }
  }

  /** Each ticker's daily consumption is the sum, over worker types with positive demand, of
      demand / basis * rate for each of that type's needs of the ticker. */
  lemma {:induction false} ConsumptionMeaning(workers: WorkerCatalog, planet: string, demand: seq<int>, t: string)
    requires ConsumptionOf(workers, planet, demand).Ok?
    ensures CountOf(ConsumptionOf(workers, planet, demand).value, t) == DemandTotal(workers, planet, demand, t)
  {
    if |demand| > 0 {
      var i := |demand| - 1;
      var pre := demand[..i];
      ConsumptionMeaning(workers, planet, pre, t);
      var a := ConsumptionOf(workers, planet, pre).value;
      if demand[i] > 0 {
        var spec := workers.m[planet].m[Workforce[i]];
        NeedsAddedMeaning(a, spec.needs.value, demand[i], t);
      }
    }
  }

  /** No demand, no consumption, and no catalog lookup that could fail. */
  lemma {:induction false} IdleConsumesNothing(workers: WorkerCatalog, planet: string, demand: seq<int>)
    requires forall i :: 0 <= i < |demand| ==> demand[i] <= 0
    ensures ConsumptionOf(workers, planet, demand) == Ok(map[])
  {
    if |demand| > 0 {
      IdleConsumesNothing(workers, planet, demand[..|demand| - 1]);
    }
  }

  lemma {:induction false} NeedsErrorSticks(s: Stock, needs: seq<Need>, count: int, k: nat)
    requires k <= |needs| && NeedsAdded(s, needs[..k], count).Err?
    ensures NeedsAdded(s, needs, count) == NeedsAdded(s, needs[..k], count)
  {
    if k < |needs| {
      var pre := needs[..|needs| - 1];
      assert needs[..k] == pre[..k];
      NeedsErrorSticks(s, pre, count, k);
    } else {
      assert needs[..k] == needs;
    }
  }

  lemma {:induction false} ConsumptionErrorSticks(workers: WorkerCatalog, planet: string, demand: seq<int>, k: nat)
    requires k <= |demand| && ConsumptionOf(workers, planet, demand[..k]).Err?
    ensures ConsumptionOf(workers, planet, demand) == ConsumptionOf(workers, planet, demand[..k])
  {
    if k < |demand| {
      var pre := demand[..|demand| - 1];
      assert demand[..k] == pre[..k];
      ConsumptionErrorSticks(workers, planet, pre, k);
    } else {
      assert demand[..k] == demand;
    }
  }

  /** The needs' loop of get_worker_consumption for one worker type. */
  method AddNeeds(s: Stock, needs: seq<Need>, count: int) returns (r: Result<Stock>)
    ensures r == NeedsAdded(s, needs, count)
  {
    var inventory := s;
    var k := 0;
    while k < |needs|
      invariant 0 <= k <= |needs|
      invariant NeedsAdded(s, needs[..k], count) == Ok(inventory)
    {
      assert needs[..k + 1][..k] == needs[..k];
      var n := needs[k];
      if n.basis == 0.0 {
        NeedsErrorSticks(s, needs, count, k + 1);
        return Err(ZeroDivision);
      }
      inventory := Added(inventory, n.id, Amount(n, count));
      k := k + 1;
    }
    assert needs[..k] == needs;
    return Ok(inventory);
  }

  /** get_worker_consumption: the daily needs of the demanded workers of a site on `planet`. */
  method GetWorkerConsumption(workers: WorkerCatalog, planet: string, demand: seq<int>) returns (r: Result<Stock>)
    ensures r == ConsumptionOf(workers, planet, demand)
  {
    var inventory: Stock := map[];
    var i := 0;
    while i < |demand|
      invariant 0 <= i <= |demand|
      invariant ConsumptionOf(workers, planet, demand[..i]) == Ok(inventory)
    {
      assert demand[..i + 1][..i] == demand[..i];
      if demand[i] > 0 {
        if i >= |Workforce| {
          ConsumptionErrorSticks(workers, planet, demand, i + 1);
          return Err(IndexOutOfRange);
        }
        var workerType := Workforce[i];
        if planet !in workers.m {
          ConsumptionErrorSticks(workers, planet, demand, i + 1);
          return Err(KeyNotFound(planet));
        }
        if workerType !in workers.m[planet].m {
          ConsumptionErrorSticks(workers, planet, demand, i + 1);
          return Err(KeyNotFound(workerType));
        }
        var spec := workers.m[planet].m[workerType];
        if spec.needs.None? {
          ConsumptionErrorSticks(workers, planet, demand, i + 1);
          return Err(KeyNotFound("needs"));
        }
        var x := AddNeeds(inventory, spec.needs.value, demand[i]);
        if x.Err? {
          ConsumptionErrorSticks(workers, planet, demand, i + 1);
          return x;
        }
        inventory := x.value;
      }
      i := i + 1;
    }
    assert demand[..i] == demand;
    return Ok(inventory);
  }

  lemma {:induction false} CrewErrorSticks(buildings: seq<SiteBuilding>, catalog: map<string, BuildingSpec>, k: nat)
    requires k <= |buildings| && CrewOf(buildings[..k], catalog).Err?
    ensures CrewOf(buildings, catalog) == CrewOf(buildings[..k], catalog)
  {
    if k < |buildings| {
      var pre := buildings[..|buildings| - 1];
      assert buildings[..k] == pre[..k];
      CrewErrorSticks(pre, catalog, k);
    } else {
      assert buildings[..k] == buildings;
    }
  }

  /** identify_worker_state: capacity and demand over the site's buildings, then the
      surplus and the consumption of the demand. */
  method IdentifyWorkerState(buildings: seq<SiteBuilding>, catalog: map<string, BuildingSpec>, workers: WorkerCatalog, planet: string)
    returns (r: Result<WorkerState>)
    ensures r == WorkerStateOf(buildings, catalog, workers, planet)
  {
    var capacity := NoWorkers;
    var demand := NoWorkers;
    var k := 0;
    while k < |buildings|
      invariant 0 <= k <= |buildings|
      invariant CrewOf(buildings[..k], catalog) == Ok(Crew(capacity, demand))
    {
      assert buildings[..k + 1][..k] == buildings[..k];
      var ticker := buildings[k].ticker;
      if ticker in catalog {
        var data := catalog[ticker];
        var w := FormatBuildingWorkers(data.workers);
        if w.Err? {
          CrewErrorSticks(buildings, catalog, k + 1);
          return Err(w.error);
        }
        if data.kind == "HABITATION" {
          capacity := Plus(capacity, w.value);
        } else {
          demand := Plus(demand, w.value);
        }
      }
      k := k + 1;
    }
    assert buildings[..k] == buildings;
    var surplus := Minus(capacity, demand);
    var consumption := GetWorkerConsumption(workers, planet, demand);
    if consumption.Err? {
      return Err(consumption.error);
    }
    return Ok(WorkerState(capacity, demand, surplus, consumption.value));
  }

  // ---------------------------------------------------------------------------------
  // calc_area

  datatype Area = Area(available: real, consumed: real, total: real)

  /** The summed area of the buildings. */
  function Consumed(buildings: seq<SiteBuilding>): real
  {
    if |buildings| == 0 then 0.0 else Consumed(buildings[..|buildings| - 1]) + buildings[|buildings| - 1].area
  }

  /** calc_area's result for a site of area `total`. */
  function AreaOf(total: real, buildings: seq<SiteBuilding>): (r: Area)
    ensures r.available + r.consumed == r.total == total
  {
    Area(total - Consumed(buildings), Consumed(buildings), total)
  }

  /** The consumed area of two building lists together is the sum of theirs. */
  lemma {:induction false} ConsumedAppend(a: seq<SiteBuilding>, b: seq<SiteBuilding>)
    ensures Consumed(a + b) == Consumed(a) + Consumed(b)
  {
    if |b| > 0 {
      var pre := b[..|b| - 1];
      assert (a + b)[..|a + b| - 1] == a + pre;
      ConsumedAppend(a, pre);
    } else {
      assert a + b == a;
    }
  }

  /** calc_area. */
  method CalcArea(total: real, buildings: seq<SiteBuilding>) returns (r: Area)
    ensures r == AreaOf(total, buildings)
  {
    var consumed := 0.0;
    var k := 0;
    while k < |buildings|
      invariant 0 <= k <= |buildings|
      invariant consumed == Consumed(buildings[..k])
    {
      assert buildings[..k + 1][..k] == buildings[..k];
      consumed := consumed + buildings[k].area;
      k := k + 1;
    }
    assert buildings[..k] == buildings;
    return Area(total - consumed, consumed, total);
  }

  // ---------------------------------------------------------------------------------
  // create_building_summary

  /** The number of buildings with each ticker, in first-seen order. */
  function TickerCounts(buildings: seq<SiteBuilding>): (r: Dict<string, nat>)
    ensures Wf(r)
  {
    if |buildings| == 0 then Empty()
    else
      var d := TickerCounts(buildings[..|buildings| - 1]);
      var t := buildings[|buildings| - 1].ticker;
      if t in d.m then Put(d, t, d.m[t] + 1) else Put(d, t, 1)
  }

  /** How many of the buildings carry `t`. */
  function Occurrences(buildings: seq<SiteBuilding>, t: string): nat
  {
    if |buildings| == 0 then 0
    else Occurrences(buildings[..|buildings| - 1], t) + (if buildings[|buildings| - 1].ticker == t then 1 else 0)
  }

  /** A ticker no building carries occurs nowhere. */
  lemma {:induction false} OccurrencesAbsent(buildings: seq<SiteBuilding>, t: string)
    requires !Carries(buildings, t)
    ensures Occurrences(buildings, t) == 0
  {
    if |buildings| > 0 {
      OccurrencesAbsent(buildings[..|buildings| - 1], t);
    }
  }

  /** The position of the first building carrying `t`, or the number of buildings when
      none does. */
  function FirstIndex(buildings: seq<SiteBuilding>, t: string): nat
  {
    if |buildings| == 0 then 0
    else
      var n := |buildings| - 1;
      var f := FirstIndex(buildings[..n], t);
      if f < n then f else if buildings[n].ticker == t then n else n + 1
  }

  /** FirstIndex finds the first building carrying `t`, and runs off the end exactly when
      none does. */
  lemma {:induction false} FirstIndexMeaning(buildings: seq<SiteBuilding>, t: string)
    ensures var k := FirstIndex(buildings, t);
      && k <= |buildings|
      && (k < |buildings| <==> Carries(buildings, t))
      && (k < |buildings| ==> buildings[k].ticker == t)
      && (forall j :: 0 <= j < k && j < |buildings| ==> buildings[j].ticker != t)
  {
    if |buildings| > 0 {
      var n := |buildings| - 1;
      var pre := buildings[..n];
      FirstIndexMeaning(pre, t);
      CarriesStep(buildings);
      assert forall j :: 0 <= j < n ==> pre[j] == buildings[j];
    }
  }

  /** Some building carries `t`. */
  predicate Carries(buildings: seq<SiteBuilding>, t: string)
  {
    exists k :: 0 <= k < |buildings| && buildings[k].ticker == t
  }

  /** The tickers carried by a non-empty list are those of the list without its last
      building, and the last building's. */
  lemma CarriesStep(buildings: seq<SiteBuilding>)
    requires |buildings| > 0
    ensures forall x :: Carries(buildings, x) <==>
      Carries(buildings[..|buildings| - 1], x) || x == buildings[|buildings| - 1].ticker
  {
    var n := |buildings| - 1;
    var pre := buildings[..n];
    forall x
      ensures Carries(buildings, x) <==> Carries(pre, x) || x == buildings[n].ticker
    {
      if Carries(buildings, x) {
        var k :| 0 <= k < |buildings| && buildings[k].ticker == x;
        if k < n {
          assert pre[k] == buildings[k];
        }
      }
      if Carries(pre, x) {
        var k :| 0 <= k < |pre| && pre[k].ticker == x;
        assert buildings[k] == pre[k];
      }
    }
  }

  /** The tally holds exactly the site's tickers, each with the number of its buildings. */
  lemma {:induction false} TickerCountsKeys(buildings: seq<SiteBuilding>)
    ensures var d := TickerCounts(buildings);
      && (forall t :: t in d.m <==> Carries(buildings, t))
      && (forall t :: t in d.m ==> d.m[t] == Occurrences(buildings, t))
  {
    if |buildings| > 0 {
      var pre := buildings[..|buildings| - 1];
      TickerCountsKeys(pre);
      CarriesStep(buildings);
      var d0 := TickerCounts(pre);
      var d := TickerCounts(buildings);
      forall x | x in d.m
        ensures d.m[x] == Occurrences(buildings, x)
      {
        assert Occurrences(buildings, x) == Occurrences(pre, x) + (if buildings[|buildings| - 1].ticker == x then 1 else 0);
        if x !in d0.m {
          assert !Carries(pre, x);
          OccurrencesAbsent(pre, x);
        }
      }
    }
  }

  /** `order` lists tickers of `buildings` by where each first appears. */
  predicate InFirstSeenOrder(buildings: seq<SiteBuilding>, order: seq<string>)
  {
    && (forall k :: 0 <= k < |order| ==> FirstIndex(buildings, order[k]) < |buildings|)
    && (forall i, j :: 0 <= i < j < |order| ==> FirstIndex(buildings, order[i]) < FirstIndex(buildings, order[j]))
  }

  /** One more building keeps a first-seen order, and a ticker new with it goes at the end. */
  lemma OrderStep(buildings: seq<SiteBuilding>, order: seq<string>)
    requires |buildings| > 0
    requires InFirstSeenOrder(buildings[..|buildings| - 1], order)
    ensures InFirstSeenOrder(buildings, order)
    ensures var n := |buildings| - 1;
      FirstIndex(buildings[..n], buildings[n].ticker) == n ==> InFirstSeenOrder(buildings, order + [buildings[n].ticker])
  {
    var n := |buildings| - 1;
    var t := buildings[n].ticker;
    if FirstIndex(buildings[..n], t) == n {
      var o := order + [t];
      assert forall k :: 0 <= k < |order| ==> o[k] == order[k];
    }
  }

  /** A building's ticker joins the tally order exactly when no earlier building carries it. */
  lemma TickerCountsOrderStep(buildings: seq<SiteBuilding>)
    requires |buildings| > 0
    ensures var n := |buildings| - 1; var t := buildings[n].ticker; var pre := buildings[..n];
      && FirstIndex(pre, t) <= n
      && TickerCounts(buildings).order ==
        if FirstIndex(pre, t) < n then TickerCounts(pre).order else TickerCounts(pre).order + [t]
  {
    var n := |buildings| - 1;
    TickerCountsKeys(buildings[..n]);
    FirstIndexMeaning(buildings[..n], buildings[n].ticker);
  }

  /** The tally orders the tickers by where each first appears. */
  lemma {:induction false} TickerCountsOrder(buildings: seq<SiteBuilding>)
    ensures InFirstSeenOrder(buildings, TickerCounts(buildings).order)
  {
    if |buildings| > 0 {
      var n := |buildings| - 1;
      var pre := buildings[..n];
      TickerCountsOrder(pre);
      TickerCountsOrderStep(buildings);
      OrderStep(buildings, TickerCounts(pre).order);
    }
  }

  /** The tally lists each ticker of the site once, counts its buildings, and orders the
      tickers by where each first appears. */
  lemma TickerCountsMeaning(buildings: seq<SiteBuilding>)
    ensures var d := TickerCounts(buildings);
      && (forall t :: t in d.m <==> Carries(buildings, t))
      && (forall t :: t in d.m ==> d.m[t] == Occurrences(buildings, t))
      && InFirstSeenOrder(buildings, d.order)
  {
    TickerCountsKeys(buildings);
    TickerCountsOrder(buildings);
  }

  /** `'T: n'` for each tallied ticker, in tally order. */
  function SummaryParts(d: Dict<string, nat>, keys: seq<string>): (r: seq<string>)
    requires forall k :: k in keys ==> k in d.m
    ensures |r| == |keys| && forall i :: 0 <= i < |keys| ==> r[i] == keys[i] + ": " + NatToString(d.m[keys[i]])
  {
    if |keys| == 0 then []
    else SummaryParts(d, keys[..|keys| - 1]) + [keys[|keys| - 1] + ": " + NatToString(d.m[keys[|keys| - 1]])]
  }

  /** create_building_summary's result. */
  function BuildingSummary(buildings: seq<SiteBuilding>): string
  {
    var d := TickerCounts(buildings);
    Join(SummaryParts(d, d.order), ", ")
  }

  /** The summary holds one `'T: n'` part per distinct ticker, in first-seen order, where
      `n` counts the ticker's buildings. */
  lemma BuildingSummaryParts(buildings: seq<SiteBuilding>)
    ensures var d := TickerCounts(buildings);
      var parts := SummaryParts(d, d.order);
      && BuildingSummary(buildings) == Join(parts, ", ")
      && |parts| == |d.order|
      && (forall t :: t in d.order <==> Carries(buildings, t))
      && (forall i :: 0 <= i < |parts| ==> parts[i] == d.order[i] + ": " + NatToString(Occurrences(buildings, d.order[i])))
  {
    TickerCountsMeaning(buildings);
  }

  /** create_building_summary: the counting loop, then the formatting loop. */
  method CreateBuildingSummary(buildings: seq<SiteBuilding>) returns (s: string)
    ensures s == BuildingSummary(buildings)
  {
    var counts: Dict<string, nat> := Empty();
    var k := 0;
    while k < |buildings|
      invariant 0 <= k <= |buildings|
      invariant counts == TickerCounts(buildings[..k])
    {
      assert buildings[..k + 1][..k] == buildings[..k];
      var ticker := buildings[k].ticker;
      if ticker in counts.m {
        counts := Put(counts, ticker, counts.m[ticker] + 1);
      } else {
        counts := Put(counts, ticker, 1);
      }
      k := k + 1;
    }
    assert buildings[..k] == buildings;
    var summary: seq<string> := [];
    var i := 0;
    while i < |counts.order|
      invariant 0 <= i <= |counts.order|
      invariant summary == SummaryParts(counts, counts.order[..i])
    {
      assert counts.order[..i + 1][..i] == counts.order[..i];
      var ticker := counts.order[i];
      summary := summary + [ticker + ": " + NatToString(counts.m[ticker])];
      i := i + 1;
    }
    assert counts.order[..i] == counts.order;
    return Join(summary, ", ");
  }

  // ---------------------------------------------------------------------------------
  // build

  /** The building `build` adds: the catalog entry's area, name, materials and type, at
      full condition. */
  function Erected(ticker: string, spec: BuildingSpec): (b: SiteBuilding)
    ensures b.ticker == ticker && b.condition == 100.0 && b.area == spec.area
  {
    SiteBuilding(ticker, spec.kind, spec.name, spec.area, 100.0, spec.materials, None)
  }

  /** Building one more takes its area from what is available and adds one to its ticker's
      tally. */
  lemma BuildConsumesArea(total: real, buildings: seq<SiteBuilding>, ticker: string, spec: BuildingSpec)
    ensures var after := buildings + [Erected(ticker, spec)];
      && AreaOf(total, after).consumed == AreaOf(total, buildings).consumed + spec.area
      && AreaOf(total, after).available == AreaOf(total, buildings).available - spec.area
      && Occurrences(after, ticker) == Occurrences(buildings, ticker) + 1
  {
    var after := buildings + [Erected(ticker, spec)];
    assert after[..|after| - 1] == buildings;
  }

  /** A site's list of buildings, which `build` extends in place. */
  class Site {
    var buildings: seq<SiteBuilding>

    constructor (buildings: seq<SiteBuilding>)
      ensures this.buildings == buildings
    {
      this.buildings := buildings;
    }

    /** build: append the catalog building for `ticker`; the consumption is the catalog's
        materials. An unknown ticker fails before anything changes. */
    method Build(ticker: string, catalog: map<string, BuildingSpec>) returns (r: Result<map<string, real>>)
      modifies this
      ensures ticker !in catalog ==> r == Err(KeyNotFound(ticker)) && buildings == old(buildings)
      ensures ticker in catalog ==> r == Ok(catalog[ticker].materials)
      ensures ticker in catalog ==> buildings == old(buildings) + [Erected(ticker, catalog[ticker])]
    {
      if ticker !in catalog {
        return Err(KeyNotFound(ticker));
      }
      var spec := catalog[ticker];
      buildings := buildings + [Erected(ticker, spec)];
      return Ok(spec.materials);
    }
  }
}
