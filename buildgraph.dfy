/** build-graph.py: the production-tree builder. It combines the sourcing options of a
    template's inputs into every input combination, maps each material to its sources
    (the market and the templates producing it), prices the workers' supplies, builds
    one graph node per combination, and lowers each tracked supply cost to the cheapest
    production tree found. */
module BuildGraph {
  import opened Wrappers
  import opened Dicts
  import opened Markets
  import opened Catalogs
  import opened GraphNodes

  // ---------------------------------------------------------------------------------
  // combine_options

  /** `[x] + sub` for each subcombination, in order: the inner loop of combine_options. */
  function Prefixed<T>(x: T, subs: seq<seq<T>>): (r: seq<seq<T>>)
    ensures |r| == |subs|
    ensures forall j :: 0 <= j < |subs| ==> r[j] == [x] + subs[j]
  {
    if |subs| == 0 then [] else Prefixed(x, subs[..|subs| - 1]) + [[x] + subs[|subs| - 1]]
  }

  /** The two nested loops: for each option of the head, every subcombination. */
  function Cross<T>(head: seq<T>, subs: seq<seq<T>>): (r: seq<seq<T>>)
    ensures |r| == |head| * |subs|
  {
    if |head| == 0 then []
    else
      var r := Cross(head[..|head| - 1], subs) + Prefixed(head[|head| - 1], subs);
      assert |r| == (|head| - 1) * |subs| + |subs|;
      r
  }

  /** combine_options: `[]` for no options; one singleton per option for one position;
      otherwise the head's options crossed with the combinations of the rest. */
  function CombineOptions<T>(options: seq<seq<T>>): seq<seq<T>>
  {
    if |options| == 0 then []
    else if |options| == 1 then seq(|options[0]|, i requires 0 <= i < |options[0]| => [options[0][i]])
    else Cross(options[0], CombineOptions(options[1..]))
  }

  /** The product of the option-list lengths. */
  function Product<T>(options: seq<seq<T>>): nat
  {
    if |options| == 0 then 1 else |options[0]| * Product(options[1..])
  }

  /** There are as many combinations as the product of the list lengths. */
  lemma {:induction false} CombineCount<T>(options: seq<seq<T>>)
    requires |options| > 0
    ensures |CombineOptions(options)| == Product(options)
  {
    if |options| > 1 {
      CombineCount(options[1..]);
    } else {
      assert Product(options[1..]) == 1;
    }
  }

  lemma {:induction false} ProductZero<T>(options: seq<seq<T>>, j: nat)
    requires j < |options| && options[j] == []
    ensures Product(options) == 0
  {
    if j > 0 {
      ProductZero(options[1..], j - 1);
    }
  }

  /** No options, or an empty option list anywhere, gives no combination at all. */
  lemma AnyEmptyGivesNone<T>(options: seq<seq<T>>)
    requires |options| == 0 || exists j :: 0 <= j < |options| && options[j] == []
    ensures CombineOptions(options) == []
  {
    if |options| > 0 {
      var j :| 0 <= j < |options| && options[j] == [];
      ProductZero(options, j);
      CombineCount(options);
    }
  }

  lemma PrefixedMembers<T>(x: T, subs: seq<seq<T>>, c: seq<T>)
    ensures c in Prefixed(x, subs) <==> |c| > 0 && c[0] == x && c[1..] in subs
  {
    var r := Prefixed(x, subs);
    if c in r {
      var j :| 0 <= j < |r| && r[j] == c;
      assert c[1..] == subs[j];
    }
    if |c| > 0 && c[0] == x && c[1..] in subs {
      var j :| 0 <= j < |subs| && subs[j] == c[1..];
      assert r[j] == c;
    }
  }

  lemma {:induction false} CrossMembers<T>(head: seq<T>, subs: seq<seq<T>>, c: seq<T>)
    ensures c in Cross(head, subs) <==> |c| > 0 && c[0] in head && c[1..] in subs
  {
    if |head| > 0 {
      var pre := head[..|head| - 1];
      CrossMembers(pre, subs, c);
      PrefixedMembers(head[|head| - 1], subs, c);
      assert head == pre + [head[|head| - 1]];
    }
  }

  /** A combination is a member exactly when it picks one element of each position's list. */
  lemma {:induction false} CombineMembers<T>(options: seq<seq<T>>, c: seq<T>)
    ensures c in CombineOptions(options) <==>
      |options| > 0 && |c| == |options| && forall j :: 0 <= j < |c| ==> c[j] in options[j]
  {
    if |options| == 1 {
      var r := CombineOptions(options);
      if c in r {
        var i :| 0 <= i < |r| && r[i] == c;
      }
      if |c| == 1 && c[0] in options[0] {
        var i :| 0 <= i < |options[0]| && options[0][i] == c[0];
        assert r[i] == c;
      }
    } else if |options| > 1 {
      CrossMembers(options[0], CombineOptions(options[1..]), c);
      if |c| > 0 {
        CombineMembers(options[1..], c[1..]);
        if |c| == |options| && forall j :: 0 <= j < |c| ==> c[j] in options[j] {
          forall j | 0 <= j < |c[1..]|
            ensures c[1..][j] in options[1..][j]
          {
            assert c[j + 1] in options[j + 1];
          }
        }
        if c[0] in options[0] && |c[1..]| == |options[1..]| && forall j :: 0 <= j < |c[1..]| ==> c[1..][j] in options[1..][j] {
          forall j | 0 <= j < |c|
            ensures c[j] in options[j]
          {
            if j > 0 {
              assert c[1..][j - 1] in options[1..][j - 1];
            }
          }
        }
      }
    }
  }

  /** Option `q` of the head together with subcombination `j` sits at position `q * k + j`,
      where `k` is the number of subcombinations. */
  lemma {:induction false} CrossAt<T>(head: seq<T>, subs: seq<seq<T>>, q: nat, j: nat)
    requires q < |head| && j < |subs|
    ensures q * |subs| + j < |Cross(head, subs)|
    ensures Cross(head, subs)[q * |subs| + j] == [head[q]] + subs[j]
  {
    var n := |head|;
    var pre := head[..n - 1];
    var c := Cross(pre, subs);
    var p := Prefixed(head[n - 1], subs);
    assert Cross(head, subs) == c + p;
    if q < n - 1 {
      CrossAt(pre, subs, q, j);
      assert head[q] == pre[q];
    } else {
      assert q * |subs| + j == |c| + j;
      assert (c + p)[|c| + j] == p[j];
    }
  }

  /** The order of the combinations: the first position varies slowest. With more than one
      position, option `q` of the first list followed by subcombination `j` is combination
      `q * k + j`, where `k` is the number of subcombinations. */
  lemma CombineOrder<T>(options: seq<seq<T>>, q: nat, j: nat)
    requires |options| > 1
    requires q < |options[0]| && j < |CombineOptions(options[1..])|
    ensures q * |CombineOptions(options[1..])| + j < |CombineOptions(options)|
    ensures CombineOptions(options)[q * |CombineOptions(options[1..])| + j] == [options[0][q]] + CombineOptions(options[1..])[j]
  {
    assert CombineOptions(options) == Cross(options[0], CombineOptions(options[1..]));
    CrossAt(options[0], CombineOptions(options[1..]), q, j);
  }

  /** A single position gives one singleton per option, in order. */
  lemma CombineOne<T>(head: seq<T>)
    ensures var r := CombineOptions([head]);
      |r| == |head| && forall i :: 0 <= i < |head| ==> r[i] == [head[i]]
  {
  }

  // ---------------------------------------------------------------------------------
  // create_source_map

  /** Material -> its sourcing options: the market key first, then producing templates. */
  type SourceMap = map<string, seq<string>>

  /** The inputs' loop: a ticker not yet mapped gets only its market key. */
  function AddInputs(acc: SourceMap, ins: seq<Factor>): SourceMap
  {
    if |ins| == 0 then acc
    else
      var a := AddInputs(acc, ins[..|ins| - 1]);
      var t := ins[|ins| - 1].id;
      if t in a then a else a[t := [t + MarketSuffix]]
  }

  /** The outputs' loop: `key` is appended to the ticker's options, which start with the
      market key when the ticker is new. */
  function AddOutputs(acc: SourceMap, key: string, outs: seq<Factor>): SourceMap
  {
    if |outs| == 0 then acc
    else
      var a := AddOutputs(acc, key, outs[..|outs| - 1]);
      var t := outs[|outs| - 1].id;
      if t in a then a[t := a[t] + [key]] else a[t := [t + MarketSuffix, key]]
  }

  /** The source map after the templates `keys`, in order. */
  function SourcesOver(templates: map<string, Template>, keys: seq<string>): SourceMap
    requires forall k :: k in keys ==> k in templates
  {
    if |keys| == 0 then map[]
    else
      var k := keys[|keys| - 1];
      AddOutputs(AddInputs(SourcesOver(templates, keys[..|keys| - 1]), templates[k].inputs), k, templates[k].outputs)
  }

  /** create_source_map over the template catalog in its order. */
  function SourceMapOf(templates: Dict<string, Template>): SourceMap
    requires Wf(templates)
  {
    SourcesOver(templates.m, templates.order)
  }

  /** The tickers of a factor list. */
  function Ids(fs: seq<Factor>): set<string>
  {
    set f | f in fs :: f.id
  }

  /** How many factors of the list carry `id`. */
  function Occurrences(fs: seq<Factor>, id: string): nat
  {
    if |fs| == 0 then 0
    else Occurrences(fs[..|fs| - 1], id) + (if fs[|fs| - 1].id == id then 1 else 0)
  }

  /** `n` copies of `key`. */
  function Repeat(key: string, n: nat): (r: seq<string>)
    ensures |r| == n && forall i :: 0 <= i < n ==> r[i] == key
  {
    seq(n, _ => key)
  }

  /** Every ticker any of the templates `keys` consumes or produces. */
  function Tickers(templates: map<string, Template>, keys: seq<string>): set<string>
    requires forall k :: k in keys ==> k in templates
  {
    if |keys| == 0 then {}
    else
      var k := keys[|keys| - 1];
      Tickers(templates, keys[..|keys| - 1]) + Ids(templates[k].inputs) + Ids(templates[k].outputs)
  }

  /** The keys of the templates producing `id`, in template order, once per matching output. */
  function Producers(templates: map<string, Template>, keys: seq<string>, id: string): seq<string>
    requires forall k :: k in keys ==> k in templates
  {
    if |keys| == 0 then []
    else
      var k := keys[|keys| - 1];
      Producers(templates, keys[..|keys| - 1], id) + Repeat(k, Occurrences(templates[k].outputs, id))
  }

  lemma {:induction false} IdsOfPrefix(fs: seq<Factor>)
    requires |fs| > 0
    ensures Ids(fs) == Ids(fs[..|fs| - 1]) + {fs[|fs| - 1].id}
  {
    var pre := fs[..|fs| - 1];
    assert fs == pre + [fs[|fs| - 1]];
    forall x | x in Ids(fs) ensures x in Ids(pre) + {fs[|fs| - 1].id} {
      var f :| f in fs && f.id == x;
      var i :| 0 <= i < |fs| && fs[i] == f;
      if i < |fs| - 1 {
        assert pre[i] == f;
      }
    }
  }

  lemma {:induction false} AbsentNoOccurrences(fs: seq<Factor>, id: string)
    requires id !in Ids(fs)
    ensures Occurrences(fs, id) == 0
  {
    if |fs| > 0 {
      IdsOfPrefix(fs);
      AbsentNoOccurrences(fs[..|fs| - 1], id);
    }
  }

  lemma {:induction false} AddInputsMeaning(acc: SourceMap, ins: seq<Factor>, x: string)
    ensures var r := AddInputs(acc, ins);
      && (x in r <==> x in acc || x in Ids(ins))
      && (x in acc ==> r[x] == acc[x])
      && (x !in acc && x in Ids(ins) ==> r[x] == [x + MarketSuffix])
  {
    if |ins| > 0 {
      IdsOfPrefix(ins);
      AddInputsMeaning(acc, ins[..|ins| - 1], x);
    }
  }

  lemma {:induction false} AddOutputsMeaning(acc: SourceMap, key: string, outs: seq<Factor>, x: string)
    ensures var r := AddOutputs(acc, key, outs);
      && (x in r <==> x in acc || x in Ids(outs))
      && (x in acc ==> r[x] == acc[x] + Repeat(key, Occurrences(outs, x)))
      && (x !in acc && x in Ids(outs) ==> r[x] == [x + MarketSuffix] + Repeat(key, Occurrences(outs, x)))
  {
    if |outs| > 0 {
      var pre := outs[..|outs| - 1];
      IdsOfPrefix(outs);
      AddOutputsMeaning(acc, key, pre, x);
      var a := AddOutputs(acc, key, pre);
      if x == outs[|outs| - 1].id {
        assert Repeat(key, Occurrences(outs, x)) == Repeat(key, Occurrences(pre, x)) + [key];
        if x !in a {
          AbsentNoOccurrences(pre, x);
        }
      }
    } else {
      assert Repeat(key, 0) == [];
    }
  }

  lemma {:induction false} UnmentionedHasNoProducers(templates: map<string, Template>, keys: seq<string>, x: string)
    requires forall k :: k in keys ==> k in templates
    requires x !in Tickers(templates, keys)
    ensures Producers(templates, keys, x) == []
  {
    if |keys| > 0 {
      var k := keys[|keys| - 1];
      UnmentionedHasNoProducers(templates, keys[..|keys| - 1], x);
      AbsentNoOccurrences(templates[k].outputs, x);
    }
  }

  /** The source map holds exactly the tickers the templates mention; each maps to its market
      key followed by the keys of the templates producing it, in template order. */
  lemma {:induction false} SourcesOverMeaning(templates: map<string, Template>, keys: seq<string>, x: string)
    requires forall k :: k in keys ==> k in templates
    ensures var r := SourcesOver(templates, keys);
      && (x in r <==> x in Tickers(templates, keys))
      && (x in r ==> r[x] == [x + MarketSuffix] + Producers(templates, keys, x))
  {
    if |keys| > 0 {
      var pre := keys[..|keys| - 1];
      var k := keys[|keys| - 1];
      var t := templates[k];
      var acc := SourcesOver(templates, pre);
      SourcesOverMeaning(templates, pre, x);
      AddInputsMeaning(acc, t.inputs, x);
      AddOutputsMeaning(AddInputs(acc, t.inputs), k, t.outputs, x);
      if x !in acc {
        UnmentionedHasNoProducers(templates, pre, x);
      }
    }
  }

  lemma SourceMapMeaning(templates: Dict<string, Template>, x: string)
    requires Wf(templates)
    ensures var r := SourceMapOf(templates);
      && (x in r <==> x in Tickers(templates.m, templates.order))
      && (x in r ==> r[x] == [x + MarketSuffix] + Producers(templates.m, templates.order, x))
  {
    SourcesOverMeaning(templates.m, templates.order, x);
  }

  /** create_source_map: for each template in order, its inputs' loop and then its outputs'. */
  method CreateSourceMap(templates: Dict<string, Template>) returns (sources: SourceMap)
    requires Wf(templates)
    ensures sources == SourceMapOf(templates)
  {
    sources := map[];
    var i := 0;
    while i < |templates.order|
      invariant 0 <= i <= |templates.order|
      invariant sources == SourcesOver(templates.m, templates.order[..i])
    {
      var key := templates.order[i];
      var template := templates.m[key];
      ghost var before := sources;
      var j := 0;
      while j < |template.inputs|
        invariant 0 <= j <= |template.inputs|
        invariant sources == AddInputs(before, template.inputs[..j])
      {
        var ticker := template.inputs[j].id;
        if ticker !in sources {
          sources := sources[ticker := [ticker + MarketSuffix]];
        }
        assert template.inputs[..j + 1][..j] == template.inputs[..j];
        j := j + 1;
      }
      assert template.inputs[..j] == template.inputs;
      ghost var middle := sources;
      j := 0;
      while j < |template.outputs|
        invariant 0 <= j <= |template.outputs|
        invariant sources == AddOutputs(middle, key, template.outputs[..j])
      {
        var ticker := template.outputs[j].id;
        if ticker in sources {
          sources := sources[ticker := sources[ticker] + [key]];
        } else {
          sources := sources[ticker := [ticker + MarketSuffix, key]];
        }
        assert template.outputs[..j + 1][..j] == template.outputs[..j];
        j := j + 1;
      }
      assert template.outputs[..j] == template.outputs;
      assert templates.order[..i + 1][..i] == templates.order[..i];
      i := i + 1;
    }
    assert templates.order[..i] == templates.order;
  }

  // ---------------------------------------------------------------------------------
  // create_supply_map

  /** Supplied material -> its cost; `None` while the market has no average for it. */
  type Supply = map<string, Option<real>>

  /** The tickers of a list of needs, in order. */
  function NeedIds(needs: seq<Need>): (r: seq<string>)
    ensures |r| == |needs| && forall i :: 0 <= i < |needs| ==> r[i] == needs[i].id
  {
    if |needs| == 0 then [] else NeedIds(needs[..|needs| - 1]) + [needs[|needs| - 1].id]
  }

  /** The need tickers of one planet's worker types `types`, in order; a worker type whose
      entry has no needs contributes none. */
  function SiteNeedIds(site: Dict<string, WorkerSpec>, types: seq<string>): seq<string>
    requires forall t :: t in types ==> t in site.m
  {
    if |types| == 0 then []
    else
      var w := site.m[types[|types| - 1]];
      SiteNeedIds(site, types[..|types| - 1]) + (if w.needs.Some? then NeedIds(w.needs.value) else [])
  }

  /** The need tickers of the planets `planets`, in the order the loops meet them. */
  function CatalogNeedIds(workers: WorkerCatalog, planets: seq<string>): seq<string>
    requires WfCatalog(workers) && forall p :: p in planets ==> p in workers.m
  {
    if |planets| == 0 then []
    else
      var site := workers.m[planets[|planets| - 1]];
      CatalogNeedIds(workers, planets[..|planets| - 1]) + SiteNeedIds(site, site.order)
  }

  /** The supply map after the tickers `ids`: each is looked up in the market first, and a
      ticker not yet present gets its average price. */
  function SupplyFrom(ids: seq<string>, m: Market): Result<Supply>
  {
    if |ids| == 0 then Ok(map[])
    else
      var a :- SupplyFrom(ids[..|ids| - 1], m);
      var t := ids[|ids| - 1];
      var price :- Lookup(m, t);
      Ok(if t in a then a else a[t := price.avg])
  }

  /** create_supply_map. */
  function SupplyMap(workers: WorkerCatalog, m: Market): Result<Supply>
    requires WfCatalog(workers)
  {
    SupplyFrom(CatalogNeedIds(workers, workers.order), m)
  }

  /** The supply map prices every need ticker with its market average and holds nothing
      else; it fails exactly when some need ticker has no price, naming the first one. */
  lemma {:induction false} SupplyFromMeaning(ids: seq<string>, m: Market)
    ensures var r := SupplyFrom(ids, m);
      && (r.Ok? <==> forall i :: 0 <= i < |ids| ==> ids[i] in m.prices)
      && (r.Ok? ==> forall t :: t in r.value <==> t in ids)
      && (r.Ok? ==> forall t :: t in r.value ==> r.value[t] == m.prices[t].avg)
      && (r.Err? ==> exists k :: 0 <= k < |ids| && ids[k] !in m.prices && r.error == PriceNotFound(ids[k])
                      && forall i :: 0 <= i < k ==> ids[i] in m.prices)
  {
    if |ids| > 0 {
      var pre := ids[..|ids| - 1];
      SupplyFromMeaning(pre, m);
      assert ids == pre + [ids[|ids| - 1]];
      var a := SupplyFrom(pre, m);
      if a.Err? {
        var k :| 0 <= k < |pre| && pre[k] !in m.prices && a.error == PriceNotFound(pre[k])
                 && forall i :: 0 <= i < k ==> pre[i] in m.prices;
        assert ids[k] == pre[k];
      } else if ids[|ids| - 1] !in m.prices {
        assert forall i :: 0 <= i < |ids| - 1 ==> ids[i] in m.prices by {
          forall i | 0 <= i < |ids| - 1 ensures ids[i] in m.prices {
            assert ids[i] == pre[i];
          }
        }
      }
    }
  }

  /** Once the supply map has failed, later tickers change nothing. */
  lemma {:induction false} SupplyErrorSticks(ids: seq<string>, more: seq<string>, m: Market)
    requires ids <= more && SupplyFrom(ids, m).Err?
    ensures SupplyFrom(more, m) == SupplyFrom(ids, m)
  {
    if |more| > |ids| {
      assert ids <= more[..|more| - 1];
      SupplyErrorSticks(ids, more[..|more| - 1], m);
    } else {
      assert ids == more;
    }
  }

  lemma {:induction false} NeedIdsPrefix(needs: seq<Need>, k: nat)
    requires k <= |needs|
    ensures NeedIds(needs[..k]) <= NeedIds(needs)
  {
  }

  lemma {:induction false} SiteNeedIdsPrefix(site: Dict<string, WorkerSpec>, types: seq<string>, j: nat)
    requires j <= |types| && forall t :: t in types ==> t in site.m
    ensures SiteNeedIds(site, types[..j]) <= SiteNeedIds(site, types)
  {
    if j < |types| {
      var pre := types[..|types| - 1];
      assert types[..j] == pre[..j];
      SiteNeedIdsPrefix(site, pre, j);
    } else {
      assert types[..j] == types;
    }
  }

  lemma {:induction false} CatalogNeedIdsPrefix(workers: WorkerCatalog, planets: seq<string>, i: nat)
    requires WfCatalog(workers) && i <= |planets| && forall p :: p in planets ==> p in workers.m
    ensures CatalogNeedIds(workers, planets[..i]) <= CatalogNeedIds(workers, planets)
  {
    if i < |planets| {
      var pre := planets[..|planets| - 1];
      assert planets[..i] == pre[..i];
      CatalogNeedIdsPrefix(workers, pre, i);
    } else {
      assert planets[..i] == planets;
    }
  }

  lemma PrefixAppend<T>(c: seq<T>, a: seq<T>, b: seq<T>)
    requires a <= b
    ensures c + a <= c + b
  {
    assert (c + b)[..|c + a|] == c + a;
  }

  /** A failure part-way through one need list is the failure of the whole walk. */
  lemma NeedsErrorSticks(needs: seq<Need>, k: nat, m: Market, visited: seq<string>)
    requires k <= |needs| && SupplyFrom(visited + NeedIds(needs[..k]), m).Err?
    ensures SupplyFrom(visited + NeedIds(needs), m) == SupplyFrom(visited + NeedIds(needs[..k]), m)
  {
    NeedIdsPrefix(needs, k);
    PrefixAppend(visited, NeedIds(needs[..k]), NeedIds(needs));
    SupplyErrorSticks(visited + NeedIds(needs[..k]), visited + NeedIds(needs), m);
  }

  /** A failure part-way through one planet's worker types is the failure of the whole walk. */
  lemma SiteErrorSticks(site: Dict<string, WorkerSpec>, j: nat, m: Market, visited: seq<string>)
    requires Wf(site) && j <= |site.order| && SupplyFrom(visited + SiteNeedIds(site, site.order[..j]), m).Err?
    ensures SupplyFrom(visited + SiteNeedIds(site, site.order), m) == SupplyFrom(visited + SiteNeedIds(site, site.order[..j]), m)
  {
    SiteNeedIdsPrefix(site, site.order, j);
    PrefixAppend(visited, SiteNeedIds(site, site.order[..j]), SiteNeedIds(site, site.order));
    SupplyErrorSticks(visited + SiteNeedIds(site, site.order[..j]), visited + SiteNeedIds(site, site.order), m);
  }

  /** One worker type more: its needs follow those of the earlier types. */
  lemma SiteStep(site: Dict<string, WorkerSpec>, j: nat, visited: seq<string>)
    requires Wf(site) && j < |site.order|
    ensures var w := site.m[site.order[j]];
      visited + SiteNeedIds(site, site.order[..j + 1]) ==
        (visited + SiteNeedIds(site, site.order[..j])) + (if w.needs.Some? then NeedIds(w.needs.value) else [])
  {
    assert site.order[..j + 1][..j] == site.order[..j];
  }

  /** One ticker more: it is looked up, and added when new. */
  lemma SupplyAppend(ids: seq<string>, t: string, m: Market)
    requires SupplyFrom(ids, m).Ok?
    ensures t !in m.prices ==> SupplyFrom(ids + [t], m) == Err(PriceNotFound(t))
    ensures t in m.prices ==> var a := SupplyFrom(ids, m).value;
      SupplyFrom(ids + [t], m) == Ok(if t in a then a else a[t := m.prices[t].avg])
  {
    assert (ids + [t])[..|ids|] == ids;
  }

  lemma NeedsStep(needs: seq<Need>, k: nat, visited: seq<string>)
    requires k < |needs|
    ensures visited + NeedIds(needs[..k + 1]) == (visited + NeedIds(needs[..k])) + [needs[k].id]
  {
    assert needs[..k + 1][..k] == needs[..k];
  }

  /** The needs' loop of create_supply_map, continuing from the tickers `visited`. */
  method SupplyNeeds(needs: seq<Need>, m: Market, supply: Supply, ghost visited: seq<string>) returns (r: Result<Supply>)
    requires SupplyFrom(visited, m) == Ok(supply)
    ensures r == SupplyFrom(visited + NeedIds(needs), m)
  {
    var s := supply;
    var k := 0;
    assert visited + NeedIds(needs[..0]) == visited;
    while k < |needs|
      invariant 0 <= k <= |needs|
      invariant SupplyFrom(visited + NeedIds(needs[..k]), m) == Ok(s)
    {
      var ticker := needs[k].id;
      NeedsStep(needs, k, visited);
      SupplyAppend(visited + NeedIds(needs[..k]), ticker, m);
      var price := Lookup(m, ticker);
      if price.Err? {
        NeedsErrorSticks(needs, k + 1, m, visited);
        return Err(price.error);
      }
      if ticker !in s {
        s := s[ticker := price.value.avg];
      }
      k := k + 1;
    }
    assert needs[..k] == needs;
    return Ok(s);
  }

  /** The worker types' loop of create_supply_map for one planet. */
  method SupplySite(site: Dict<string, WorkerSpec>, m: Market, supply: Supply, ghost visited: seq<string>) returns (r: Result<Supply>)
    requires Wf(site) && SupplyFrom(visited, m) == Ok(supply)
    ensures r == SupplyFrom(visited + SiteNeedIds(site, site.order), m)
  {
    var s := supply;
    var j := 0;
    assert visited + SiteNeedIds(site, site.order[..0]) == visited;
    while j < |site.order|
      invariant 0 <= j <= |site.order|
      invariant SupplyFrom(visited + SiteNeedIds(site, site.order[..j]), m) == Ok(s)
    {
      var worker := site.m[site.order[j]];
      SiteStep(site, j, visited);
      if worker.needs.Some? {
        var x := SupplyNeeds(worker.needs.value, m, s, visited + SiteNeedIds(site, site.order[..j]));
        if x.Err? {
          SiteErrorSticks(site, j + 1, m, visited);
          return x;
        }
        s := x.value;
      } else {
        assert (visited + SiteNeedIds(site, site.order[..j])) + [] == visited + SiteNeedIds(site, site.order[..j]);
      }
      j := j + 1;
    }
    assert site.order[..j] == site.order;
    return Ok(s);
  }

  /** One planet more: its worker types' needs follow those of the earlier planets. */
  lemma CatalogStep(workers: WorkerCatalog, i: nat)
    requires WfCatalog(workers) && i < |workers.order|
    ensures var site := workers.m[workers.order[i]];
      Wf(site) &&
      CatalogNeedIds(workers, workers.order[..i + 1]) == CatalogNeedIds(workers, workers.order[..i]) + SiteNeedIds(site, site.order)
  {
    assert workers.order[..i + 1][..i] == workers.order[..i];
  }

  /** A failure part-way through the planets is the failure of the whole walk. */
  lemma CatalogErrorSticks(workers: WorkerCatalog, i: nat, m: Market)
    requires WfCatalog(workers) && i <= |workers.order| && SupplyFrom(CatalogNeedIds(workers, workers.order[..i]), m).Err?
    ensures SupplyFrom(CatalogNeedIds(workers, workers.order), m) == SupplyFrom(CatalogNeedIds(workers, workers.order[..i]), m)
  {
    CatalogNeedIdsPrefix(workers, workers.order, i);
    SupplyErrorSticks(CatalogNeedIds(workers, workers.order[..i]), CatalogNeedIds(workers, workers.order), m);
  }

  /** create_supply_map: planets, worker types and needs in order; the first unpriced need
      ticker ends it with an error. */
  method CreateSupplyMap(workers: WorkerCatalog, m: Market) returns (r: Result<Supply>)
    requires WfCatalog(workers)
    ensures r == SupplyMap(workers, m)
  {
    var s: Supply := map[];
    var i := 0;
    while i < |workers.order|
      invariant 0 <= i <= |workers.order|
      invariant SupplyFrom(CatalogNeedIds(workers, workers.order[..i]), m) == Ok(s)
    {
      var site := workers.m[workers.order[i]];
      CatalogStep(workers, i);
      var x := SupplySite(site, m, s, CatalogNeedIds(workers, workers.order[..i]));
      if x.Err? {
        CatalogErrorSticks(workers, i + 1, m);
        return x;
      }
      s := x.value;
      i := i + 1;
    }
    assert workers.order[..i] == workers.order;
    return Ok(s);
  }

  // ---------------------------------------------------------------------------------
  // build_prod_tree

  /** build_prod_tree: every production tree rooted at `key`. A market key is one variant-0
      node; a template without inputs is one variant-0 node; otherwise each combination of
      the inputs' trees roots one node, numbered from 0. The recursion into an input's
      sources spends one unit of `fuel`, so the builder is total: `OutOfFuel` stands for the
      unbounded recursion a cyclic catalog sends the program into. The single variant-0 node
      of the first two cases is the variant list of the one empty combination. */
  function ProdTree(fuel: nat, templates: map<string, Template>, sources: SourceMap, m: Market, key: string): Result<seq<Node>>
    decreases fuel, 2, 0
  {
    if IsMarketKey(key) then Variants(templates, m, key, [[]])
    else if key !in templates then Err(KeyNotFound(key))
    else if |templates[key].inputs| == 0 then Variants(templates, m, key, [[]])
    else
      var options :- InputOptions(fuel, templates, sources, m, templates[key].inputs);
      Variants(templates, m, key, CombineOptions(options))
  }

  /** The loop over a template's inputs: for each, the trees of all its sources. */
  function InputOptions(fuel: nat, templates: map<string, Template>, sources: SourceMap, m: Market, ins: seq<Factor>): Result<seq<seq<Node>>>
    decreases fuel, 1, |ins|
  {
    if |ins| == 0 then Ok([])
    else
      var pre :- InputOptions(fuel, templates, sources, m, ins[..|ins| - 1]);
      var id := ins[|ins| - 1].id;
      if id !in sources then Err(KeyNotFound(id))
      else
        var trees :- SourceTrees(fuel, templates, sources, m, sources[id]);
        Ok(pre + [trees])
  }

  /** The loop over one input's sources, concatenating each source's trees. */
  function SourceTrees(fuel: nat, templates: map<string, Template>, sources: SourceMap, m: Market, srcs: seq<string>): Result<seq<Node>>
    decreases fuel, 0, |srcs|
  {
    if |srcs| == 0 then Ok([])
    else
      var pre :- SourceTrees(fuel, templates, sources, m, srcs[..|srcs| - 1]);
      if fuel == 0 then Err(OutOfFuel)
      else
        var chain :- ProdTree(fuel - 1, templates, sources, m, srcs[|srcs| - 1]);
        Ok(pre + chain)
  }

  /** The variant loop: one node per combination, the variant counting up from 0. */
  function Variants(templates: map<string, Template>, m: Market, key: string, combos: seq<seq<Node>>): Result<seq<Node>>
  {
    if |combos| == 0 then Ok([])
    else
      var pre :- Variants(templates, m, key, combos[..|combos| - 1]);
      var n :- NewNode(templates, m, key, |combos| - 1, combos[|combos| - 1]);
      Ok(pre + [n])
  }

  /** The variant loop fails exactly when building one of the nodes does. */
  lemma {:induction false} VariantsOk(templates: map<string, Template>, m: Market, key: string, combos: seq<seq<Node>>)
    ensures Variants(templates, m, key, combos).Ok? <==>
      forall i :: 0 <= i < |combos| ==> NewNode(templates, m, key, i, combos[i]).Ok?
  {
    if |combos| > 0 {
      var pre := combos[..|combos| - 1];
      VariantsOk(templates, m, key, pre);
      assert forall i :: 0 <= i < |pre| ==> pre[i] == combos[i];
    }
  }

  /** A successful variant loop is the loop over all but the last combination followed by
      the last combination's node. */
  lemma VariantsLast(templates: map<string, Template>, m: Market, key: string, combos: seq<seq<Node>>)
    requires |combos| > 0 && Variants(templates, m, key, combos).Ok?
    ensures Variants(templates, m, key, combos[..|combos| - 1]).Ok?
    ensures NewNode(templates, m, key, |combos| - 1, combos[|combos| - 1]).Ok?
    ensures Variants(templates, m, key, combos).value ==
      Variants(templates, m, key, combos[..|combos| - 1]).value + [NewNode(templates, m, key, |combos| - 1, combos[|combos| - 1]).value]
  {
  }

  /** Node `i` is variant `i`, built from combination `i`. */
  lemma {:induction false} VariantsValues(templates: map<string, Template>, m: Market, key: string, combos: seq<seq<Node>>)
    requires Variants(templates, m, key, combos).Ok?
    ensures var r := Variants(templates, m, key, combos).value;
      && |r| == |combos|
      && forall i :: 0 <= i < |combos| ==>
           NewNode(templates, m, key, i, combos[i]) == Ok(r[i]) && r[i].variant == i && r[i].template == key
  {
    if |combos| > 0 {
      var n := |combos| - 1;
      var pre := combos[..n];
      VariantsLast(templates, m, key, combos);
      VariantsValues(templates, m, key, pre);
      var r := Variants(templates, m, key, combos).value;
      var rp := Variants(templates, m, key, pre).value;
      var last := NewNode(templates, m, key, n, combos[n]).value;
      assert r == rp + [last] && |rp| == n;
      forall i | 0 <= i < n
        ensures NewNode(templates, m, key, i, combos[i]) == Ok(r[i])
      {
        assert pre[i] == combos[i] && r[i] == rp[i];
      }
    }
  }

  /** The inputs' loop fails exactly when an input has no sources entry or its sources'
      trees fail. */
  lemma {:induction false} InputOptionsOk(fuel: nat, templates: map<string, Template>, sources: SourceMap, m: Market, ins: seq<Factor>)
    ensures InputOptions(fuel, templates, sources, m, ins).Ok? <==>
      forall j :: 0 <= j < |ins| ==> ins[j].id in sources && SourceTrees(fuel, templates, sources, m, sources[ins[j].id]).Ok?
  {
    if |ins| > 0 {
      var pre := ins[..|ins| - 1];
      InputOptionsOk(fuel, templates, sources, m, pre);
      assert forall j :: 0 <= j < |pre| ==> pre[j] == ins[j];
    }
  }

  /** Each input gets the trees of its sources, in input order. */
  lemma {:induction false} InputOptionsValues(fuel: nat, templates: map<string, Template>, sources: SourceMap, m: Market, ins: seq<Factor>)
    requires InputOptions(fuel, templates, sources, m, ins).Ok?
    ensures var r := InputOptions(fuel, templates, sources, m, ins).value;
      |r| == |ins| && forall j :: 0 <= j < |ins| ==>
        ins[j].id in sources && SourceTrees(fuel, templates, sources, m, sources[ins[j].id]) == Ok(r[j])
  {
    if |ins| > 0 {
      var pre := ins[..|ins| - 1];
      InputOptionsValues(fuel, templates, sources, m, pre);
      assert forall j :: 0 <= j < |pre| ==> pre[j] == ins[j];
    }
  }

  /** With sources to follow and no fuel left the builder stops. */
  lemma {:induction false} SourceTreesOutOfFuel(templates: map<string, Template>, sources: SourceMap, m: Market, srcs: seq<string>)
    requires |srcs| > 0
    ensures SourceTrees(0, templates, sources, m, srcs) == Err(OutOfFuel)
  {
    if |srcs| > 1 {
      SourceTreesOutOfFuel(templates, sources, m, srcs[..|srcs| - 1]);
    }
  }

  lemma {:induction false} SourceTreesAllOk(fuel: nat, templates: map<string, Template>, sources: SourceMap, m: Market, srcs: seq<string>, k: nat)
    requires fuel > 0 && k < |srcs| && SourceTrees(fuel, templates, sources, m, srcs).Ok?
    ensures ProdTree(fuel - 1, templates, sources, m, srcs[k]).Ok?
  {
    var pre := srcs[..|srcs| - 1];
    if k < |pre| {
      SourceTreesAllOk(fuel, templates, sources, m, pre, k);
      assert srcs[k] == pre[k];
    }
  }

  lemma {:induction false} SourceTreesOkIfAll(fuel: nat, templates: map<string, Template>, sources: SourceMap, m: Market, srcs: seq<string>)
    requires fuel > 0
    requires forall k :: 0 <= k < |srcs| ==> ProdTree(fuel - 1, templates, sources, m, srcs[k]).Ok?
    ensures SourceTrees(fuel, templates, sources, m, srcs).Ok?
  {
    if |srcs| > 0 {
      var pre := srcs[..|srcs| - 1];
      assert forall k :: 0 <= k < |pre| ==> pre[k] == srcs[k];
      SourceTreesOkIfAll(fuel, templates, sources, m, pre);
      assert ProdTree(fuel - 1, templates, sources, m, srcs[|srcs| - 1]).Ok?;
    }
  }

  /** With fuel left the sources' loop succeeds exactly when every source's own tree does. */
  lemma SourceTreesOk(fuel: nat, templates: map<string, Template>, sources: SourceMap, m: Market, srcs: seq<string>)
    requires fuel > 0
    ensures SourceTrees(fuel, templates, sources, m, srcs).Ok? <==>
      forall k :: 0 <= k < |srcs| ==> ProdTree(fuel - 1, templates, sources, m, srcs[k]).Ok?
  {
    if SourceTrees(fuel, templates, sources, m, srcs).Ok? {
      forall k | 0 <= k < |srcs|
        ensures ProdTree(fuel - 1, templates, sources, m, srcs[k]).Ok?
      {
        SourceTreesAllOk(fuel, templates, sources, m, srcs, k);
      }
    } else if forall k :: 0 <= k < |srcs| ==> ProdTree(fuel - 1, templates, sources, m, srcs[k]).Ok? {
      SourceTreesOkIfAll(fuel, templates, sources, m, srcs);
    }
  }

  /** The three shapes of a production-tree list. */
  lemma ProdTreeShape(fuel: nat, templates: map<string, Template>, sources: SourceMap, m: Market, key: string)
    ensures var r := ProdTree(fuel, templates, sources, m, key);
      && (IsMarketKey(key) ==>
            && (r.Ok? <==> TickerOf(key) in m.prices && m.prices[TickerOf(key)].avg.Some?)
            && (r.Ok? ==> |r.value| == 1 && r.value[0].variant == 0 && r.value[0].template == key
                          && r.value[0].inputs == Dict([], map[])))
      && (!IsMarketKey(key) && key !in templates ==> r == Err(KeyNotFound(key)))
      && (!IsMarketKey(key) && key in templates && |templates[key].inputs| == 0 ==>
            (r.Ok? ==> |r.value| == 1 && r.value[0].variant == 0 && r.value[0].template == key))
      && (!IsMarketKey(key) && key in templates && |templates[key].inputs| > 0 ==>
            var options := InputOptions(fuel, templates, sources, m, templates[key].inputs);
            (r.Ok? ==>
               && options.Ok? && |options.value| == |templates[key].inputs|
               && |r.value| == |CombineOptions(options.value)| == Product(options.value)
               && forall i :: 0 <= i < |r.value| ==>
                    r.value[i].variant == i && r.value[i].template == key
                    && NewNode(templates, m, key, i, CombineOptions(options.value)[i]) == Ok(r.value[i])))
  {
    var r := ProdTree(fuel, templates, sources, m, key);
    if IsMarketKey(key) {
      MarketNodeShape(templates, m, key, 0, []);
      VariantsOk(templates, m, key, [[]]);
      if r.Ok? {
        VariantsValues(templates, m, key, [[]]);
      }
    } else if key in templates && |templates[key].inputs| == 0 {
      if r.Ok? {
        VariantsValues(templates, m, key, [[]]);
      }
    } else if key in templates {
      var options := InputOptions(fuel, templates, sources, m, templates[key].inputs);
      if options.Ok? {
        InputOptionsValues(fuel, templates, sources, m, templates[key].inputs);
        CombineCount(options.value);
        if r.Ok? {
          VariantsValues(templates, m, key, CombineOptions(options.value));
        }
      }
    }
  }

  // ---------------------------------------------------------------------------------
  // update_supply

  /** One comparison of the inner loop: a cheaper variant replaces the current cost; a
      current cost of `None` cannot be compared with a number. */
  function Lower(s: Supply, t: string, cost: real): Result<Supply>
    requires t in s
  {
    if s[t].None? then Err(NoneArithmetic)
    else if cost < s[t].value then Ok(s[t := Some(cost)])
    else Ok(s)
  }

  /** The inner loop over the variants of one template. */
  function LowerOver(s: Supply, t: string, variants: seq<Node>): (r: Result<Supply>)
    requires t in s
    ensures r.Ok? ==> r.value.Keys == s.Keys
  {
    if |variants| == 0 then Ok(s)
    else
      var a :- LowerOver(s, t, variants[..|variants| - 1]);
      Lower(a, t, variants[|variants| - 1].totalCostPerUnit)
  }

  /** The outer loop over the templates `keys`; only a template whose key prefix is a
      tracked supply material is looked at. */
  function UpdateOver(orig: Supply, nodes: Dict<string, seq<Node>>, keys: seq<string>): (r: Result<Supply>)
    requires forall k :: k in keys ==> k in nodes.m
    ensures r.Ok? ==> r.value.Keys == orig.Keys
  {
    if |keys| == 0 then Ok(orig)
    else
      var a :- UpdateOver(orig, nodes, keys[..|keys| - 1]);
      var k := keys[|keys| - 1];
      var p := TickerOf(k);
      if p in orig then LowerOver(a, p, nodes.m[k]) else Ok(a)
  }

  /** update_supply over the production trees of every template, in their order. */
  function UpdatedSupply(orig: Supply, nodes: Dict<string, seq<Node>>): Result<Supply>
    requires Wf(nodes)
  {
    UpdateOver(orig, nodes, nodes.order)
  }

  /** The total cost per unit of each variant. */
  function CostsOf(variants: seq<Node>): (r: seq<real>)
    ensures |r| == |variants| && forall i :: 0 <= i < |variants| ==> r[i] == variants[i].totalCostPerUnit
  {
    seq(|variants|, i requires 0 <= i < |variants| => variants[i].totalCostPerUnit)
  }

  /** The costs competing for material `t`: the variants of every template whose key
      prefix is `t`, in template order. */
  function Costs(nodes: Dict<string, seq<Node>>, keys: seq<string>, t: string): seq<real>
    requires forall k :: k in keys ==> k in nodes.m
  {
    if |keys| == 0 then []
    else
      var k := keys[|keys| - 1];
      Costs(nodes, keys[..|keys| - 1], t) + (if TickerOf(k) == t then CostsOf(nodes.m[k]) else [])
  }

  /** The running minimum of `c` and `xs`, keeping the earlier value on ties. */
  function MinOf(c: real, xs: seq<real>): real
  {
    if |xs| == 0 then c
    else
      var a := MinOf(c, xs[..|xs| - 1]);
      if xs[|xs| - 1] < a then xs[|xs| - 1] else a
  }

  /** The running minimum is the minimum: no greater than `c` or any of `xs`, and one of them. */
  lemma {:induction false} MinOfIsMinimum(c: real, xs: seq<real>)
    ensures MinOf(c, xs) <= c
    ensures forall i :: 0 <= i < |xs| ==> MinOf(c, xs) <= xs[i]
    ensures MinOf(c, xs) == c || exists i :: 0 <= i < |xs| && MinOf(c, xs) == xs[i]
  {
    if |xs| > 0 {
      var pre := xs[..|xs| - 1];
      MinOfIsMinimum(c, pre);
      assert forall i :: 0 <= i < |pre| ==> pre[i] == xs[i];
    }
  }

  lemma {:induction false} MinOfAppend(c: real, xs: seq<real>, ys: seq<real>)
    ensures MinOf(c, xs + ys) == MinOf(MinOf(c, xs), ys)
  {
    if |ys| > 0 {
      var pre := ys[..|ys| - 1];
      assert (xs + ys)[..|xs + ys| - 1] == xs + pre;
      MinOfAppend(c, xs, pre);
    } else {
      assert xs + ys == xs;
    }
  }

  lemma {:induction false} LowerOverMeaning(s: Supply, t: string, variants: seq<Node>)
    requires t in s
    ensures var r := LowerOver(s, t, variants);
      && (r.Ok? <==> s[t].Some? || |variants| == 0)
      && (r.Ok? && s[t].Some? ==> r.value == s[t := Some(MinOf(s[t].value, CostsOf(variants)))])
      && (r.Ok? && s[t].None? ==> r.value == s)
      && (r.Err? ==> r.error == NoneArithmetic)
  {
    if |variants| > 0 {
      var pre := variants[..|variants| - 1];
      LowerOverMeaning(s, t, pre);
      assert CostsOf(variants)[..|variants| - 1] == CostsOf(pre);
    } else {
      if s[t].Some? {
        assert s[t := Some(MinOf(s[t].value, CostsOf(variants)))] == s;
      }
    }
  }

  lemma CostsStep(nodes: Dict<string, seq<Node>>, keys: seq<string>, t: string)
    requires |keys| > 0 && forall k :: k in keys ==> k in nodes.m
    ensures var pre := keys[..|keys| - 1];
      var k := keys[|keys| - 1];
      && (TickerOf(k) == t ==> Costs(nodes, keys, t) == Costs(nodes, pre, t) + CostsOf(nodes.m[k]))
      && (TickerOf(k) != t ==> Costs(nodes, keys, t) == Costs(nodes, pre, t))
  {
    var pre := keys[..|keys| - 1];
    assert Costs(nodes, pre, t) + [] == Costs(nodes, pre, t);
  }

  /** The outer loop fails exactly when a tracked material without a cost (`None`) has a
      competing variant to compare with, and then with `NoneArithmetic`; a material keeps
      or lacks its cost as it did before. */
  lemma {:induction false} UpdateOverOk(orig: Supply, nodes: Dict<string, seq<Node>>, keys: seq<string>)
    requires forall k :: k in keys ==> k in nodes.m
    ensures var r := UpdateOver(orig, nodes, keys);
      && (r.Ok? <==> forall t :: t in orig && orig[t].None? ==> Costs(nodes, keys, t) == [])
      && (r.Err? ==> r.error == NoneArithmetic)
      && (r.Ok? ==> forall t :: t in orig ==> (r.value[t].None? <==> orig[t].None?))
  {
    if |keys| > 0 {
      var pre := keys[..|keys| - 1];
      var k := keys[|keys| - 1];
      var p := TickerOf(k);
      UpdateOverOk(orig, nodes, pre);
      forall t {
        CostsStep(nodes, keys, t);
      }
      var a := UpdateOver(orig, nodes, pre);
      if a.Ok? && p in orig {
        LowerOverMeaning(a.value, p, nodes.m[k]);
      }
    }
  }

  /** What the outer loop computes: every tracked material with a cost ends at the minimum
      of that cost and its competing costs. */
  lemma {:induction false} UpdateOverValues(orig: Supply, nodes: Dict<string, seq<Node>>, keys: seq<string>)
    requires forall k :: k in keys ==> k in nodes.m
    requires UpdateOver(orig, nodes, keys).Ok?
    ensures var r := UpdateOver(orig, nodes, keys).value;
      forall t :: t in orig && orig[t].Some? ==> r[t] == Some(MinOf(orig[t].value, Costs(nodes, keys, t)))
  {
    if |keys| > 0 {
      var pre := keys[..|keys| - 1];
      var k := keys[|keys| - 1];
      var p := TickerOf(k);
      UpdateOverValues(orig, nodes, pre);
      forall t {
        CostsStep(nodes, keys, t);
      }
      var a := UpdateOver(orig, nodes, pre).value;
      if p in orig {
        LowerOverMeaning(a, p, nodes.m[k]);
        if orig[p].Some? {
          MinOfAppend(orig[p].value, Costs(nodes, pre, p), CostsOf(nodes.m[k]));
        }
      }
    }
  }

  /** update_supply as the source states it: the keys stay those of the original map, no
      cost ever rises, each is at most every competing variant's total cost per unit and
      equals the original or one of them, and a material no template produces keeps its
      original cost. */
  lemma UpdatedSupplyLowers(orig: Supply, nodes: Dict<string, seq<Node>>, t: string)
    requires Wf(nodes) && t in orig && orig[t].Some?
    requires UpdatedSupply(orig, nodes).Ok?
    ensures var r := UpdatedSupply(orig, nodes).value;
      var costs := Costs(nodes, nodes.order, t);
      && r.Keys == orig.Keys
      && t in r && r[t].Some?
      && r[t].value <= orig[t].value
      && (forall i :: 0 <= i < |costs| ==> r[t].value <= costs[i])
      && (r[t].value == orig[t].value || exists i :: 0 <= i < |costs| && r[t].value == costs[i])
      && (costs == [] ==> r[t] == orig[t])
  {
    UpdateOverValues(orig, nodes, nodes.order);
    MinOfIsMinimum(orig[t].value, Costs(nodes, nodes.order, t));
  }

  lemma {:induction false} LowerErrorSticks(s: Supply, t: string, variants: seq<Node>, j: nat)
    requires t in s && j <= |variants| && LowerOver(s, t, variants[..j]).Err?
    ensures LowerOver(s, t, variants) == LowerOver(s, t, variants[..j])
  {
    if j < |variants| {
      var pre := variants[..|variants| - 1];
      assert variants[..j] == pre[..j];
      LowerErrorSticks(s, t, pre, j);
    } else {
      assert variants[..j] == variants;
    }
  }

  lemma {:induction false} UpdateErrorSticks(orig: Supply, nodes: Dict<string, seq<Node>>, keys: seq<string>, i: nat)
    requires forall k :: k in keys ==> k in nodes.m
    requires i <= |keys| && UpdateOver(orig, nodes, keys[..i]).Err?
    ensures UpdateOver(orig, nodes, keys) == UpdateOver(orig, nodes, keys[..i])
  {
    if i < |keys| {
      var pre := keys[..|keys| - 1];
      assert keys[..i] == pre[..i];
      UpdateErrorSticks(orig, nodes, pre, i);
    } else {
      assert keys[..i] == keys;
    }
  }

  /** update_supply: a copy of the supply map, lowered template by template and variant by
      variant; comparing with a `None` cost ends it with an error. */
  method UpdateSupply(orig: Supply, nodes: Dict<string, seq<Node>>) returns (r: Result<Supply>)
    requires Wf(nodes)
    ensures r == UpdatedSupply(orig, nodes)
  {
    var supply := orig;
    var i := 0;
    while i < |nodes.order|
      invariant 0 <= i <= |nodes.order|
      invariant UpdateOver(orig, nodes, nodes.order[..i]) == Ok(supply)
    {
      var template := nodes.order[i];
      var primary := TickerOf(template);
      assert nodes.order[..i + 1][..i] == nodes.order[..i];
      if primary in orig {
        var variants := nodes.m[template];
        ghost var before := supply;
        var j := 0;
        while j < |variants|
          invariant 0 <= j <= |variants|
          invariant primary in before
          invariant LowerOver(before, primary, variants[..j]) == Ok(supply)
        {
          assert variants[..j + 1][..j] == variants[..j];
          if supply[primary].None? {
            LowerErrorSticks(before, primary, variants, j + 1);
            UpdateErrorSticks(orig, nodes, nodes.order, i + 1);
            return Err(NoneArithmetic);
          }
          if variants[j].totalCostPerUnit < supply[primary].value {
            supply := supply[primary := Some(variants[j].totalCostPerUnit)];
          }
          j := j + 1;
        }
        assert variants[..j] == variants;
      }
      i := i + 1;
    }
    assert nodes.order[..i] == nodes.order;
    return Ok(supply);
  }
}
