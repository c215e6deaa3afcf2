/** extract-building-data.py: the building catalog. Every build option offered at any
    site becomes a catalog entry keyed by its ticker; habitation modules get a fixed list
    of worker places instead of the capacities the option reports. */
module BuildingExtract {
  import opened Wrappers
  import opened StateRecords
  import opened Catalogs
  import ModelGoals

  /** One `{level, capacity}` workforce capacity of an option. */
  datatype Capacity = Capacity(level: string, capacity: int)

  /** One build option. */
  datatype BuildOption = BuildOption(
    ticker: string, kind: string, name: string, area: real, expertise: string,
    capacities: seq<Capacity>, materials: seq<MaterialAmount>)

  // ---------------------------------------------------------------------------------
  // HAB_CAPACITIES and load_workers

  /** The worker places each habitation module houses. */
  const HabCapacities: map<string, seq<WorkerSlot>> := map[
    "HB1" := [WorkerSlot("PIONEER", 100)],
    "HB2" := [WorkerSlot("SETTLER", 100)],
    "HB3" := [WorkerSlot("TECHNICIAN", 100)],
    "HB4" := [WorkerSlot("ENGINEER", 100)],
    "HB5" := [WorkerSlot("SCIENTIST", 100)],
    "HBB" := [WorkerSlot("PIONEER", 75), WorkerSlot("SETTLER", 75)],
    "HBC" := [WorkerSlot("SETTLER", 75), WorkerSlot("TECHNICIAN", 75)],
    "HBM" := [WorkerSlot("TECHNICIAN", 75), WorkerSlot("ENGINEER", 75)],
    "HBL" := [WorkerSlot("ENGINEER", 75), WorkerSlot("SCIENTIST", 75)]]

  /** `load_workers`: the fixed entry for a habitation ticker, whatever the capacities say;
      otherwise one `{type: level, count: capacity}` slot per capacity, in order. */
  function Workers(capacities: seq<Capacity>, ticker: string): (r: seq<WorkerSlot>)
    ensures ticker in HabCapacities ==> r == HabCapacities[ticker]
    ensures ticker !in HabCapacities ==> (|r| == |capacities| &&
      forall i :: 0 <= i < |r| ==> r[i].kind == capacities[i].level && r[i].count == capacities[i].capacity)
  {
    if ticker in HabCapacities then HabCapacities[ticker]
    else seq(|capacities|, i requires 0 <= i < |capacities| => WorkerSlot(capacities[i].level, capacities[i].capacity))
  }

  /** Every habitation entry names only known worker types. */
  lemma HabitationTypesKnown()
    ensures forall t, k | t in HabCapacities && 0 <= k < |HabCapacities[t]| :: HabCapacities[t][k].kind in ModelGoals.Workforce
  {
  }

  /** So the site planner's workforce vector accepts every habitation entry. */
  lemma HabitationWorkforce(t: string)
    requires t in HabCapacities
    ensures ModelGoals.WorkforceOf(HabCapacities[t]).Ok?
  {
    HabitationTypesKnown();
    ModelGoals.WorkforceMeaning(HabCapacities[t]);
  }

  /** A single-type module houses 100 of its type, a two-type module 75 of each. */
  lemma HabitationVectors()
    ensures ModelGoals.WorkforceOf(HabCapacities["HB1"]) == Ok([100, 0, 0, 0, 0])
    ensures ModelGoals.WorkforceOf(HabCapacities["HBB"]) == Ok([75, 75, 0, 0, 0])
  {
    var hb1 := HabCapacities["HB1"];
    assert hb1[..0] == [];
    assert ModelGoals.IndexOf("PIONEER") == Ok(0);
    assert ModelGoals.WorkforceOf(hb1) == Ok(ModelGoals.NoWorkers[0 := 100]);
    var hbb := HabCapacities["HBB"];
    assert hbb[..1] == hb1[..1][0 := WorkerSlot("PIONEER", 75)];
    assert ModelGoals.WorkforceOf(hbb[..1]) == Ok(ModelGoals.NoWorkers[0 := 75]);
    assert ModelGoals.IndexOf("SETTLER") == Ok(1);
    assert hbb[..|hbb| - 1] == hbb[..1];
    assert ModelGoals.WorkforceOf(hbb) == Ok(ModelGoals.NoWorkers[0 := 75][1 := 75]);
    assert ModelGoals.NoWorkers[0 := 100] == [100, 0, 0, 0, 0];
    assert ModelGoals.NoWorkers[0 := 75][1 := 75] == [75, 75, 0, 0, 0];
  }

  /** The worker loop. */
  method LoadWorkers(capacities: seq<Capacity>, ticker: string) returns (workers: seq<WorkerSlot>)
    ensures workers == Workers(capacities, ticker)
  {
    if ticker in HabCapacities {
      return HabCapacities[ticker];
    }
    workers := [];
    var k := 0;
    while k < |capacities|
      invariant 0 <= k <= |capacities| && |workers| == k
      invariant forall i :: 0 <= i < k ==> workers[i] == WorkerSlot(capacities[i].level, capacities[i].capacity)
    {
      workers := workers + [WorkerSlot(capacities[k].level, capacities[k].capacity)];
      k := k + 1;
    }
  }

  // ---------------------------------------------------------------------------------
  // create_building and the keying in main

  /** `create_building`: the catalog entry of an option. */
  function CreateBuilding(o: BuildOption): BuildingSpec
  {
    BuildingSpec(o.ticker, o.kind, o.name, o.area, o.expertise, Workers(o.capacities, o.ticker), Materials(o.materials))
  }

  function OptionTicker(o: BuildOption): string { o.ticker }

  /** Every site's build options, site after site. */
  function Options(sites: seq<seq<BuildOption>>): seq<BuildOption>
  {
    if |sites| == 0 then [] else Options(sites[..|sites| - 1]) + sites[|sites| - 1]
  }

  /** The catalog main writes. */
  function Buildings(sites: seq<seq<BuildOption>>): map<string, BuildingSpec>
  {
    Keyed(Options(sites), OptionTicker, CreateBuilding)
  }

  /** Options(sites) lists exactly the options of the sites. */
  lemma {:induction false} OptionsMeaning(sites: seq<seq<BuildOption>>)
    ensures forall o :: o in Options(sites) <==> exists s :: 0 <= s < |sites| && o in sites[s]
  {
    if |sites| > 0 {
      var n := |sites| - 1;
      OptionsMeaning(sites[..n]);
      assert forall s :: 0 <= s < n ==> sites[..n][s] == sites[s];
    }
  }

  /** The catalog holds exactly the tickers offered at some site. */
  lemma BuildingsKeys(sites: seq<seq<BuildOption>>)
    ensures forall t :: t in Buildings(sites) <==> exists s, o :: 0 <= s < |sites| && o in sites[s] && o.ticker == t
  {
    var os := Options(sites);
    KeyedMeaning(os, OptionTicker, CreateBuilding);
    OptionsMeaning(sites);
    forall t
      ensures t in Buildings(sites) <==> exists s, o :: 0 <= s < |sites| && o in sites[s] && o.ticker == t
    {
      if t in Buildings(sites) {
        var i :| 0 <= i < |os| && OptionTicker(os[i]) == t;
        assert os[i] in os;
        var s :| 0 <= s < |sites| && os[i] in sites[s];
      }
      if exists s, o :: 0 <= s < |sites| && o in sites[s] && o.ticker == t {
        var s, o :| 0 <= s < |sites| && o in sites[s] && o.ticker == t;
        assert o in os;
        var i :| 0 <= i < |os| && os[i] == o;
        assert OptionTicker(os[i]) == t;
      }
    }
  }

  /** Each entry is the one built from the last option with its ticker: a ticker offered
      at several sites keeps the last site's option. */
  lemma BuildingsLast(sites: seq<seq<BuildOption>>, t: string) returns (i: nat)
    requires t in Buildings(sites)
    ensures i < |Options(sites)| && Options(sites)[i].ticker == t
    ensures Buildings(sites)[t] == CreateBuilding(Options(sites)[i])
    ensures forall j :: i < j < |Options(sites)| ==> Options(sites)[j].ticker != t
  {
    var os := Options(sites);
    KeyedMeaning(os, OptionTicker, CreateBuilding);
    i :| 0 <= i < |os| && OptionTicker(os[i]) == t && Buildings(sites)[t] == CreateBuilding(os[i]) &&
      forall j :: i < j < |os| ==> OptionTicker(os[j]) != t;
    assert forall j :: i < j < |os| ==> os[j].ticker != t;
  }

  /** Each entry carries its own ticker, and the fixed worker list when the ticker is a
      habitation module. */
  lemma BuildingsEntries(sites: seq<seq<BuildOption>>)
    ensures forall t | t in Buildings(sites) :: Buildings(sites)[t].ticker == t
    ensures forall t | t in Buildings(sites) && t in HabCapacities :: Buildings(sites)[t].workers == HabCapacities[t]
  {
    forall t | t in Buildings(sites)
      ensures Buildings(sites)[t].ticker == t
      ensures t in HabCapacities ==> Buildings(sites)[t].workers == HabCapacities[t]
    {
      var i := BuildingsLast(sites, t);
    }
  }

  /** One more option overwrites its ticker's entry with the entry built from it. */
  lemma KeyedOptionsStep(done: seq<BuildOption>, options: seq<BuildOption>, j: nat)
    requires j < |options|
    ensures Keyed(done + options[..j + 1], OptionTicker, CreateBuilding) ==
      Keyed(done + options[..j], OptionTicker, CreateBuilding)[options[j].ticker := CreateBuilding(options[j])]
  {
    assert (done + options[..j + 1])[..|done| + j] == done + options[..j];
  }

  /** The option loop for one site, continuing the catalog built from `done`. */
  method AddOptions(buildings: map<string, BuildingSpec>, ghost done: seq<BuildOption>, options: seq<BuildOption>)
    returns (r: map<string, BuildingSpec>)
    requires buildings == Keyed(done, OptionTicker, CreateBuilding)
    ensures r == Keyed(done + options, OptionTicker, CreateBuilding)
  {
    r := buildings;
    assert done + options[..0] == done;
    var j := 0;
    while j < |options|
      invariant 0 <= j <= |options|
      invariant r == Keyed(done + options[..j], OptionTicker, CreateBuilding)
    {
      KeyedOptionsStep(done, options, j);
      var o := options[j];
      var workers := LoadWorkers(o.capacities, o.ticker);
      var materials := LoadMaterials(o.materials);
      r := r[o.ticker := BuildingSpec(o.ticker, o.kind, o.name, o.area, o.expertise, workers, materials)];
      j := j + 1;
    }
    assert options[..j] == options;
  }

  /** The site loop of main. */
  method ExtractBuildings(sites: seq<seq<BuildOption>>) returns (buildings: map<string, BuildingSpec>)
    ensures buildings == Buildings(sites)
  {
    buildings := map[];
    var k := 0;
    while k < |sites|
      invariant 0 <= k <= |sites|
      invariant buildings == Keyed(Options(sites[..k]), OptionTicker, CreateBuilding)
    {
      assert sites[..k + 1][..k] == sites[..k];
      buildings := AddOptions(buildings, Options(sites[..k]), sites[k]);
      k := k + 1;
    }
    assert sites[..k] == sites;
  }
}
