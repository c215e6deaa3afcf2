/** extract-template-data.py: the production templates (recipes) read out of the game state.
    Each recipe of each production line becomes a template; templates are grouped by the
    ticker they make and numbered `ticker.1`, `ticker.2`, ... in encounter order. */
module TemplateExtract {
  import opened Wrappers
  import opened Text
  import opened Dicts
  import Clock
  import ProductionLines

  type Factor = ProductionLines.Factor

  datatype Material = Material(ticker: string, name: string)

  /** One `{material, factor}` entry of a recipe's output or input factors. */
  datatype RecipeFactor = RecipeFactor(material: Material, factor: real)

  /** A production template of the game state; `millis` is its base duration. */
  datatype RecipeData = RecipeData(
    name: string, outputFactors: seq<RecipeFactor>, inputFactors: seq<RecipeFactor>,
    efficiency: real, millis: int)

  /** What build_template writes; `ticker` is `None` when the key was never set. */
  datatype TemplateRecord = TemplateRecord(
    name: string, line: Option<string>, lineName: string, outputs: seq<Factor>,
    inputs: seq<Factor>, ticker: Option<string>, time: seq<int>)

  /** One platform of a site, by its module's reactor name and ticker. */
  datatype Platform = Platform(reactorName: string, reactorTicker: string)

  /** A production line: the site it stands on, its type and its recipes. */
  datatype LineData = LineData(siteId: string, kind: string, recipes: seq<RecipeData>)

  // ---------------------------------------------------------------------------------
  // build_template

  /** The `{id, count}` pairs of the factors, in factor order. */
  function FactorsOf(fs: seq<RecipeFactor>): (r: seq<Factor>)
    ensures |r| == |fs|
    ensures forall i :: 0 <= i < |fs| ==> r[i].id == fs[i].material.ticker && r[i].count == fs[i].factor
  {
    if |fs| == 0 then []
    else
      var f := fs[|fs| - 1];
      FactorsOf(fs[..|fs| - 1]) + [ProductionLines.Factor(f.material.ticker, f.factor)]
  }

  /** The template ticker: that of the last output whose material is named like the recipe. */
  function RecipeTicker(fs: seq<RecipeFactor>, name: string): Option<string>
  {
    if |fs| == 0 then None
    else if fs[|fs| - 1].material.name == name then Some(fs[|fs| - 1].material.ticker)
    else RecipeTicker(fs[..|fs| - 1], name)
  }

  /** The template gets a ticker exactly when some output material is named like the
      recipe, and the last such output gives it. */
  lemma {:induction false} RecipeTickerMeaning(fs: seq<RecipeFactor>, name: string)
    ensures RecipeTicker(fs, name).Some? <==> exists k :: 0 <= k < |fs| && fs[k].material.name == name
    ensures RecipeTicker(fs, name).Some? ==>
      exists k :: 0 <= k < |fs| && fs[k].material.name == name && RecipeTicker(fs, name).value == fs[k].material.ticker
        && forall j :: k < j < |fs| ==> fs[j].material.name != name
  {
    if |fs| > 0 {
      var n := |fs| - 1;
      var pre := fs[..n];
      RecipeTickerMeaning(pre, name);
      assert forall k :: 0 <= k < |pre| ==> pre[k] == fs[k];
      if fs[n].material.name == name {
        assert RecipeTicker(fs, name) == Some(fs[n].material.ticker);
      } else {
        assert RecipeTicker(fs, name) == RecipeTicker(pre, name);
        if RecipeTicker(pre, name).Some? {
          var k :| 0 <= k < |pre| && pre[k].material.name == name && RecipeTicker(pre, name).value == pre[k].material.ticker
            && forall j :: k < j < |pre| ==> pre[j].material.name != name;
          assert fs[k] == pre[k];
          assert forall j :: k < j < |fs| ==> fs[j].material.name != name;
        }
      }
    }
  }

  /** `int(millis / 1000 * efficiency)`. */
  function Seconds(recipe: RecipeData): int
  {
    Clock.Trunc(recipe.millis as real / 1000.0 * recipe.efficiency)
  }

  /** `Duration(str(seconds))` as its fields `[days, hours, minutes, 0]`: the seconds
      are carried into minutes, hours and days; below a minute nothing carries and the
      seconds are dropped. The template file stores this duration's display form
      (`Clock.Show`). */
  function TimeOf(seconds: int): seq<int>
  {
    if seconds < 60 then [0, 0, 0, 0]
    else [seconds / 86400, seconds / 3600 % 24, seconds / 60 % 60, 0]
  }

  /** Carrying a lone seconds field is what the duration's normalisation does to it. */
  lemma TimeOfNormalized(seconds: int)
    ensures TimeOf(seconds) == Clock.Normalized(Clock.Pad([seconds]))
  {
    var v := Clock.Pad([seconds]);
    assert v == [0, 0, 0, seconds];
    if seconds >= 60 {
      var m := seconds / 60;
      assert m / 60 == seconds / 3600;
      assert m / 60 / 24 == seconds / 86400;
    }
  }

  /** The duration string `str(seconds)` parses to exactly the template's time, which is
      in normal form and whose length in minutes drops the sub-minute remainder. */
  lemma TimeOfParsed(seconds: nat)
    ensures Clock.Parsed(NatToString(seconds)) == Ok(TimeOf(seconds))
    ensures Clock.InNormalForm(TimeOf(seconds))
    ensures Clock.Minutes(TimeOf(seconds)) == seconds / 60
  {
    TimeOfNormalized(seconds);
    var s := NatToString(seconds);
    assert ':' !in s by {
      assert forall i :: 0 <= i < |s| ==> IsDigit(s[i]);
    }
    SplitNoSeparator(s, ':');
    ParseNatToString(seconds);
    assert Clock.ParseFields([s]) == Ok([seconds]) by {
      assert ParseInt(s) == Some(seconds);
      assert [s][1..] == [];
      assert Clock.ParseFields([s][1..]) == Ok([]);
      assert [seconds as int] + [] == [seconds];
    }
  }

  function TemplateOf(lineType: string, lineTicker: Option<string>, recipe: RecipeData): TemplateRecord
  {
    TemplateRecord(recipe.name, lineTicker, lineType, FactorsOf(recipe.outputFactors),
      FactorsOf(recipe.inputFactors), RecipeTicker(recipe.outputFactors, recipe.name), TimeOf(Seconds(recipe)))
  }

  /** The output loop of build_template: the pairs, and the ticker of the last output
      named like the recipe. */
  method ReadOutputs(outs: seq<RecipeFactor>, name: string) returns (outputs: seq<Factor>, ticker: Option<string>)
    ensures outputs == FactorsOf(outs) && ticker == RecipeTicker(outs, name)
  {
    outputs, ticker := [], None;
    var k := 0;
    while k < |outs|
      invariant 0 <= k <= |outs|
      invariant outputs == FactorsOf(outs[..k])
      invariant ticker == RecipeTicker(outs[..k], name)
    {
      assert outs[..k + 1][..k] == outs[..k];
      var f := outs[k];
      outputs := outputs + [ProductionLines.Factor(f.material.ticker, f.factor)];
      if f.material.name == name {
        ticker := Some(f.material.ticker);
      }
      k := k + 1;
    }
    assert outs[..k] == outs;
  }

  /** The input loop of build_template. */
  method ReadInputs(ins: seq<RecipeFactor>) returns (inputs: seq<Factor>)
    ensures inputs == FactorsOf(ins)
  {
    inputs := [];
    var k := 0;
    while k < |ins|
      invariant 0 <= k <= |ins|
      invariant inputs == FactorsOf(ins[..k])
    {
      assert ins[..k + 1][..k] == ins[..k];
      inputs := inputs + [ProductionLines.Factor(ins[k].material.ticker, ins[k].factor)];
      k := k + 1;
    }
    assert ins[..k] == ins;
  }

  /** build_template. */
  method BuildTemplate(lineType: string, lineTicker: Option<string>, recipe: RecipeData) returns (t: TemplateRecord)
    ensures t == TemplateOf(lineType, lineTicker, recipe)
  {
    var outputs, ticker := ReadOutputs(recipe.outputFactors, recipe.name);
    var inputs := ReadInputs(recipe.inputFactors);
    var seconds := Seconds(recipe);
    return TemplateRecord(recipe.name, lineTicker, lineType, outputs, inputs, ticker, TimeOf(seconds));
  }

  // ---------------------------------------------------------------------------------
  // lookup_ticker

  /** The reactor ticker of the first platform whose reactor name is `name`. */
  function ReactorTicker(platforms: seq<Platform>, name: string): (r: Option<string>)
    ensures r.Some? <==> exists k :: 0 <= k < |platforms| && platforms[k].reactorName == name
    ensures r.Some? ==> exists k :: (0 <= k < |platforms| && platforms[k].reactorName == name
      && r.value == platforms[k].reactorTicker && forall j :: 0 <= j < k ==> platforms[j].reactorName != name)
  {
    if |platforms| == 0 then None
    else if platforms[0].reactorName == name then Some(platforms[0].reactorTicker)
    else
      var r := ReactorTicker(platforms[1..], name);
      assert forall k :: 1 <= k < |platforms| ==> platforms[k] == platforms[1..][k - 1];
      r
  }

  /** lookup_ticker. */
  method LookupTicker(platforms: seq<Platform>, name: string) returns (r: Option<string>)
    ensures r == ReactorTicker(platforms, name)
  {
    var k := 0;
    while k < |platforms|
      invariant 0 <= k <= |platforms|
      invariant ReactorTicker(platforms, name) == ReactorTicker(platforms[k..], name)
    {
      if platforms[k].reactorName == name {
        return Some(platforms[k].reactorTicker);
      }
      assert platforms[k..][1..] == platforms[k + 1..];
      k := k + 1;
    }
    return None;
  }

  // ---------------------------------------------------------------------------------
  // Grouping by ticker (the first loop of main)

  type Collection = Dict<string, seq<TemplateRecord>>

  /** Append one template to its ticker's group; `template['ticker']` raises when unset. */
  function Group(c: Collection, t: TemplateRecord): (r: Result<Collection>)
    ensures Wf(c) && r.Ok? ==> Wf(r.value)
  {
    match t.ticker
    case None => Err(KeyNotFound("ticker"))
    case Some(k) => Ok(Put(c, k, (if k in c.m then c.m[k] else []) + [t]))
  }

  /** The templates `ts` grouped onto `c`, one after the other. */
  function GroupAll(c: Collection, ts: seq<TemplateRecord>): Result<Collection>
  {
    if |ts| == 0 then Ok(c)
    else
      var c' :- GroupAll(c, ts[..|ts| - 1]);
      Group(c', ts[|ts| - 1])
  }

  /** The templates of the recipes, in recipe order. */
  function RecipeTemplates(lineType: string, lineTicker: Option<string>, recipes: seq<RecipeData>): (r: seq<TemplateRecord>)
    ensures |r| == |recipes|
  {
    seq(|recipes|, i requires 0 <= i < |recipes| => TemplateOf(lineType, lineTicker, recipes[i]))
  }

  /** One line of the first loop of main: `sites[siteId]` raises for an unknown site. */
  function GroupLine(c: Collection, line: LineData, sites: map<string, seq<Platform>>): Result<Collection>
  {
    if line.siteId !in sites then Err(KeyNotFound(line.siteId))
    else GroupAll(c, RecipeTemplates(line.kind, ReactorTicker(sites[line.siteId], line.kind), line.recipes))
  }

  /** The collection after the first loop of main. */
  function Collected(lines: seq<LineData>, sites: map<string, seq<Platform>>): Result<Collection>
  {
    if |lines| == 0 then Ok(Empty())
    else
      var c :- Collected(lines[..|lines| - 1], sites);
      GroupLine(c, lines[|lines| - 1], sites)
  }

  /** Every template the lines on known sites give, in encounter order. */
  function LineTemplates(lines: seq<LineData>, sites: map<string, seq<Platform>>): seq<TemplateRecord>
  {
    if |lines| == 0 then []
    else
      var l := lines[|lines| - 1];
      LineTemplates(lines[..|lines| - 1], sites)
        + (if l.siteId in sites then RecipeTemplates(l.kind, ReactorTicker(sites[l.siteId], l.kind), l.recipes) else [])
  }

  /** The templates of `ts` with ticker `k`, in order. */
  function WithTicker(ts: seq<TemplateRecord>, k: string): seq<TemplateRecord>
  {
    if |ts| == 0 then []
    else WithTicker(ts[..|ts| - 1], k) + (if ts[|ts| - 1].ticker == Some(k) then [ts[|ts| - 1]] else [])
  }

  /** The tickers the templates carry. */
  function Tickers(ts: seq<TemplateRecord>): set<string>
  {
    if |ts| == 0 then {}
    else Tickers(ts[..|ts| - 1]) + (match ts[|ts| - 1].ticker case Some(k) => {k} case None => {})
  }

  lemma {:induction false} TickersMeaning(ts: seq<TemplateRecord>)
    ensures forall k :: k in Tickers(ts) <==> exists j :: 0 <= j < |ts| && ts[j].ticker == Some(k)
  {
    if |ts| > 0 {
      var pre := ts[..|ts| - 1];
      TickersMeaning(pre);
      assert forall j :: 0 <= j < |pre| ==> pre[j] == ts[j];
    }
  }

  /** Every template carries a ticker. */
  predicate AllTicketed(ts: seq<TemplateRecord>)
  {
    forall j :: 0 <= j < |ts| ==> ts[j].ticker.Some?
  }

  /** `c` groups `ts`: every template has a ticker, the groups are exactly the tickers,
      and each group lists its templates in order. */
  predicate GroupedAs(c: Collection, ts: seq<TemplateRecord>)
  {
    && Wf(c)
    && AllTicketed(ts)
    && c.m.Keys == Tickers(ts)
    && (forall k | k in c.m :: c.m[k] == WithTicker(ts, k))
  }

  /** The recipe names one of its outputs. */
  predicate Named(recipe: RecipeData)
  {
    RecipeTicker(recipe.outputFactors, recipe.name).Some?
  }

  lemma WithTickerAppend(ts: seq<TemplateRecord>, t: TemplateRecord, k: string)
    ensures WithTicker(ts + [t], k) == WithTicker(ts, k) + (if t.ticker == Some(k) then [t] else [])
  {
    assert (ts + [t])[..|ts|] == ts;
  }

  /** A ticker no template carries has no templates. */
  lemma {:induction false} WithTickerAbsent(ts: seq<TemplateRecord>, k: string)
    requires k !in Tickers(ts)
    ensures WithTicker(ts, k) == []
  {
    if |ts| > 0 {
      WithTickerAbsent(ts[..|ts| - 1], k);
    }
  }

  /** Grouping one more template extends the grouping by it. */
  lemma GroupStep(c: Collection, ts: seq<TemplateRecord>, t: TemplateRecord)
    requires GroupedAs(c, ts) && t.ticker.Some?
    ensures GroupedAs(Group(c, t).value, ts + [t])
  {
    var r := Group(c, t).value;
    var u := ts + [t];
    assert u[..|ts|] == ts;
    assert AllTicketed(u) by {
      assert forall j :: 0 <= j < |ts| ==> u[j] == ts[j];
    }
    forall k | k in r.m
      ensures r.m[k] == WithTicker(u, k)
    {
      WithTickerAppend(ts, t, k);
      if k != t.ticker.value {
        assert r.m[k] == c.m[k];
      } else if k !in c.m {
        WithTickerAbsent(ts, k);
      }
    }
  }

  /** Grouping templates succeeds exactly when each has a ticker. */
  lemma {:induction false} GroupAllOk(c: Collection, us: seq<TemplateRecord>)
    ensures GroupAll(c, us).Ok? <==> AllTicketed(us)
  {
    if |us| > 0 {
      var n := |us| - 1;
      var pre := us[..n];
      GroupAllOk(c, pre);
      assert forall j :: 0 <= j < n ==> pre[j] == us[j];
    }
  }

  /** Grouping templates that all carry tickers from scratch groups exactly them. */
  lemma {:induction false} GroupAllGrouped(us: seq<TemplateRecord>)
    requires AllTicketed(us)
    ensures GroupAll(Empty(), us).Ok? && GroupedAs(GroupAll(Empty(), us).value, us)
  {
    GroupAllOk(Empty(), us);
    if |us| > 0 {
      var n := |us| - 1;
      var pre := us[..n];
      assert AllTicketed(pre) by {
        assert forall j :: 0 <= j < n ==> pre[j] == us[j];
      }
      GroupAllGrouped(pre);
      GroupStep(GroupAll(Empty(), pre).value, pre, us[n]);
      assert pre + [us[n]] == us;
    } else {
      assert GroupedAs(Empty(), []);
    }
  }

  /** Grouping two runs of templates is grouping the first, then the second onto it. */
  lemma {:induction false} GroupAllConcat(c: Collection, a: seq<TemplateRecord>, b: seq<TemplateRecord>)
    ensures GroupAll(c, a + b) == if GroupAll(c, a).Err? then GroupAll(c, a) else GroupAll(GroupAll(c, a).value, b)
  {
    if |b| == 0 {
      assert a + b == a;
    } else {
      var bp := b[..|b| - 1];
      GroupAllConcat(c, a, bp);
      assert (a + b)[..|a + b| - 1] == a + bp;
    }
  }

  /** Every line stands on a known site and every recipe names an output. */
  predicate Collectable(lines: seq<LineData>, sites: map<string, seq<Platform>>)
  {
    forall i :: 0 <= i < |lines| ==>
      lines[i].siteId in sites && forall j :: 0 <= j < |lines[i].recipes| ==> Named(lines[i].recipes[j])
  }

  /** The templates of a line carry tickers exactly when its recipes name outputs. */
  lemma LineNamed(l: LineData, lineTicker: Option<string>)
    ensures (forall j :: 0 <= j < |l.recipes| ==> Named(l.recipes[j])) <==>
      AllTicketed(RecipeTemplates(l.kind, lineTicker, l.recipes))
  {
    var us := RecipeTemplates(l.kind, lineTicker, l.recipes);
    assert forall j :: 0 <= j < |us| ==> us[j].ticker == RecipeTicker(l.recipes[j].outputFactors, l.recipes[j].name);
  }

  /** The first loop of main succeeds exactly when every line stands on a known site and
      every recipe names one of its outputs. */
  lemma {:induction false} CollectedOk(lines: seq<LineData>, sites: map<string, seq<Platform>>)
    ensures Collected(lines, sites).Ok? <==> Collectable(lines, sites)
  {
    if |lines| > 0 {
      var n := |lines| - 1;
      var pre := lines[..n];
      CollectedOk(pre, sites);
      assert forall i :: 0 <= i < n ==> pre[i] == lines[i];
      var c := Collected(pre, sites);
      var l := lines[n];
      assert Collectable(lines, sites) <==>
        (Collectable(pre, sites) && l.siteId in sites && forall j :: 0 <= j < |l.recipes| ==> Named(l.recipes[j]));
      if c.Ok? && l.siteId in sites {
        var lt := ReactorTicker(sites[l.siteId], l.kind);
        GroupAllOk(c.value, RecipeTemplates(l.kind, lt, l.recipes));
        LineNamed(l, lt);
      }
    }
  }

  /** A successful first loop of main groups all the lines' templates at once. */
  lemma {:induction false} CollectedIsGroupAll(lines: seq<LineData>, sites: map<string, seq<Platform>>)
    requires Collected(lines, sites).Ok?
    ensures Collected(lines, sites) == GroupAll(Empty(), LineTemplates(lines, sites))
  {
    if |lines| > 0 {
      var n := |lines| - 1;
      var pre := lines[..n];
      var l := lines[n];
      CollectedIsGroupAll(pre, sites);
      var lt := ReactorTicker(sites[l.siteId], l.kind);
      GroupAllConcat(Empty(), LineTemplates(pre, sites), RecipeTemplates(l.kind, lt, l.recipes));
    }
  }

  /** After the first loop of main, the groups list, per ticker, its templates in
      encounter order. */
  lemma CollectedGrouped(lines: seq<LineData>, sites: map<string, seq<Platform>>)
    requires Collected(lines, sites).Ok?
    ensures GroupedAs(Collected(lines, sites).value, LineTemplates(lines, sites))
  {
    CollectedIsGroupAll(lines, sites);
    GroupAllOk(Empty(), LineTemplates(lines, sites));
    GroupAllGrouped(LineTemplates(lines, sites));
  }

  // ---------------------------------------------------------------------------------
  // Numbering (the second loop of main)

  /** `key + "." + str(i)`. */
  function Name(key: string, i: nat): string
  {
    key + "." + NatToString(i)
  }

  /** In `k + "." + d` with `d` all digits, the '.' at `|k|` is the last one. */
  lemma DotBeforeDigits(k: string, d: string)
    requires AllDigits(d)
    ensures (k + "." + d)[|k|] == '.'
    ensures forall q :: |k| < q < |k + "." + d| ==> (k + "." + d)[q] != '.'
  {
    var s := k + "." + d;
    forall q | |k| < q < |s|
      ensures s[q] != '.'
    {
      assert s[q] == d[q - |k| - 1];
    }
  }

  /** Distinct (ticker, number) pairs get distinct names: the number is the digit run
      after the last '.'. */
  lemma NameInjective(k1: string, i1: nat, k2: string, i2: nat)
    requires Name(k1, i1) == Name(k2, i2)
    ensures k1 == k2 && i1 == i2
  {
    var d1, d2 := NatToString(i1), NatToString(i2);
    var s := Name(k1, i1);
    assert s == k1 + "." + d1 && s == k2 + "." + d2;
    DotBeforeDigits(k1, d1);
    DotBeforeDigits(k2, d2);
    assert |k1| == |k2|;
    assert d1 == s[|s| - |d1|..] == d2;
    assert k1 == s[..|k1|] == k2;
    ParseNatToString(i1);
    ParseNatToString(i2);
  }

  /** The entries `key.1`, `key.2`, ... for the templates of one group, written over `acc`. */
  function NumberKey(acc: map<string, TemplateRecord>, key: string, ts: seq<TemplateRecord>): map<string, TemplateRecord>
  {
    if |ts| == 0 then acc
    else NumberKey(acc, key, ts[..|ts| - 1])[Name(key, |ts|) := ts[|ts| - 1]]
  }

  /** The numbered templates of the groups `keys`, in that order. */
  function NumberKeys(c: Collection, keys: seq<string>): map<string, TemplateRecord>
    requires forall k :: k in keys ==> k in c.m
  {
    if |keys| == 0 then map[]
    else NumberKey(NumberKeys(c, keys[..|keys| - 1]), keys[|keys| - 1], c.m[keys[|keys| - 1]])
  }

  /** The templates map main writes out. */
  function Numbered(c: Collection): map<string, TemplateRecord>
    requires Wf(c)
  {
    NumberKeys(c, c.order)
  }

  /** Numbering one group writes `key.i` for its `i`-th template, counting from 1. */
  lemma {:induction false} NumberKeyAt(acc: map<string, TemplateRecord>, key: string, ts: seq<TemplateRecord>)
    ensures var r := NumberKey(acc, key, ts);
      forall i :: 1 <= i <= |ts| ==> Name(key, i) in r && r[Name(key, i)] == ts[i - 1]
  {
    if |ts| > 0 {
      var m := |ts|;
      var pre := ts[..m - 1];
      NumberKeyAt(acc, key, pre);
      forall i | 1 <= i < m
        ensures Name(key, i) != Name(key, m)
      {
        if Name(key, i) == Name(key, m) {
          NameInjective(key, i, key, m);
        }
      }
    }
  }

  /** Numbering one group adds only names `key.i` and keeps every other entry. */
  lemma {:induction false} NumberKeyFrame(acc: map<string, TemplateRecord>, key: string, ts: seq<TemplateRecord>)
    ensures var r := NumberKey(acc, key, ts);
      && (forall n :: n in r <==> n in acc || exists i :: 1 <= i <= |ts| && n == Name(key, i))
      && (forall n | n in acc && (forall i :: 1 <= i <= |ts| ==> n != Name(key, i)) :: r[n] == acc[n])
  {
    if |ts| > 0 {
      NumberKeyFrame(acc, key, ts[..|ts| - 1]);
    }
  }

  /** Numbering one group writes `key.i` for its `i`-th template (counting from 1), adds
      only such names, and keeps every other entry. */
  lemma NumberKeyMeaning(acc: map<string, TemplateRecord>, key: string, ts: seq<TemplateRecord>)
    ensures var r := NumberKey(acc, key, ts);
      && (forall i :: 1 <= i <= |ts| ==> Name(key, i) in r && r[Name(key, i)] == ts[i - 1])
      && (forall n :: n in r <==> n in acc || exists i :: 1 <= i <= |ts| && n == Name(key, i))
      && (forall n | n in acc && (forall i :: 1 <= i <= |ts| ==> n != Name(key, i)) :: r[n] == acc[n])
  {
    NumberKeyAt(acc, key, ts);
    NumberKeyFrame(acc, key, ts);
  }

  /** The numbered map holds `k.i` with the `i`-th template of every listed group `k`. */
  lemma {:induction false} NumberKeysValues(c: Collection, keys: seq<string>)
    requires Distinct(keys) && forall k :: k in keys ==> k in c.m
    ensures var r := NumberKeys(c, keys);
      forall j, i :: 0 <= j < |keys| && 1 <= i <= |c.m[keys[j]]| ==>
        Name(keys[j], i) in r && r[Name(keys[j], i)] == c.m[keys[j]][i - 1]
  {
    if |keys| > 0 {
      var m := |keys| - 1;
      var pre := keys[..m];
      assert Distinct(pre) by {
        assert forall a, b :: 0 <= a < b < m ==> pre[a] == keys[a] && pre[b] == keys[b];
      }
      NumberKeysValues(c, pre);
      var r0 := NumberKeys(c, pre);
      var key := keys[m];
      var ts := c.m[key];
      NumberKeyMeaning(r0, key, ts);
      var r := NumberKeys(c, keys);
      forall j, i | 0 <= j < m && 1 <= i <= |c.m[keys[j]]|
        ensures Name(keys[j], i) in r && r[Name(keys[j], i)] == c.m[keys[j]][i - 1]
      {
        assert pre[j] == keys[j];
        forall i' | 1 <= i' <= |ts|
          ensures Name(keys[j], i) != Name(key, i')
        {
          if Name(keys[j], i) == Name(key, i') {
            NameInjective(keys[j], i, key, i');
          }
        }
      }
    }
  }

  /** Every name in the numbered map is `k.i` for a listed group `k` and one of its positions. */
  lemma {:induction false} NumberKeysDomain(c: Collection, keys: seq<string>)
    requires forall k :: k in keys ==> k in c.m
    ensures forall n :: n in NumberKeys(c, keys) ==>
      exists j, i :: 0 <= j < |keys| && 1 <= i <= |c.m[keys[j]]| && n == Name(keys[j], i)
  {
    if |keys| > 0 {
      var m := |keys| - 1;
      var pre := keys[..m];
      NumberKeysDomain(c, pre);
      var r0 := NumberKeys(c, pre);
      var key := keys[m];
      NumberKeyMeaning(r0, key, c.m[key]);
      forall n | n in NumberKeys(c, keys)
        ensures exists j, i :: 0 <= j < |keys| && 1 <= i <= |c.m[keys[j]]| && n == Name(keys[j], i)
      {
        if n in r0 {
          var j, i :| 0 <= j < m && 1 <= i <= |c.m[pre[j]]| && n == Name(pre[j], i);
          assert pre[j] == keys[j];
        } else {
          var i :| 1 <= i <= |c.m[key]| && n == Name(key, i);
          assert n == Name(keys[m], i);
        }
      }
    }
  }

  /** Every template of every group appears under `ticker.i` (counting from 1), and every
      name is one of those; with NameInjective, each template is written exactly once. */
  lemma NumberedMeaning(c: Collection)
    requires Wf(c)
    ensures var r := Numbered(c);
      && (forall k, i :: k in c.m && 1 <= i <= |c.m[k]| ==> Name(k, i) in r && r[Name(k, i)] == c.m[k][i - 1])
      && (forall n :: n in r ==> exists k, i :: k in c.m && 1 <= i <= |c.m[k]| && n == Name(k, i))
  {
    NumberKeysValues(c, c.order);
    NumberKeysDomain(c, c.order);
    var r := Numbered(c);
    forall k, i | k in c.m && 1 <= i <= |c.m[k]|
      ensures Name(k, i) in r && r[Name(k, i)] == c.m[k][i - 1]
    {
      var j :| 0 <= j < |c.order| && c.order[j] == k;
    }
    forall n | n in r
      ensures exists k, i :: k in c.m && 1 <= i <= |c.m[k]| && n == Name(k, i)
    {
      var j, i :| 0 <= j < |c.order| && 1 <= i <= |c.m[c.order[j]]| && n == Name(c.order[j], i);
      assert c.order[j] in c.m;
    }
  }

  /** The collection the first loop of main builds is a well-formed dict. */
  lemma {:induction false} CollectedWf(lines: seq<LineData>, sites: map<string, seq<Platform>>)
    ensures Collected(lines, sites).Ok? ==> Wf(Collected(lines, sites).value)
  {
    if |lines| > 0 {
      var pre := lines[..|lines| - 1];
      CollectedWf(pre, sites);
      var c := Collected(pre, sites);
      var l := lines[|lines| - 1];
      if c.Ok? && l.siteId in sites {
        GroupAllWf(c.value, RecipeTemplates(l.kind, ReactorTicker(sites[l.siteId], l.kind), l.recipes));
      }
    }
  }

  /** Grouping keeps the dict well formed. */
  lemma {:induction false} GroupAllWf(c: Collection, us: seq<TemplateRecord>)
    requires Wf(c)
    ensures GroupAll(c, us).Ok? ==> Wf(GroupAll(c, us).value)
  {
    if |us| > 0 {
      GroupAllWf(c, us[..|us| - 1]);
    }
  }

  /** The templates file: grouped, then numbered. */
  function ExtractTemplates(lines: seq<LineData>, sites: map<string, seq<Platform>>): Result<map<string, TemplateRecord>>
  {
    var c :- Collected(lines, sites);
    CollectedWf(lines, sites);
    Ok(Numbered(c))
  }

  /** The extraction fails exactly when a line's site is unknown or a recipe names no
      output; otherwise the `i`-th template of ticker `k` in encounter order is written as
      `k.i`, and nothing else is written. */
  lemma ExtractTemplatesMeaning(lines: seq<LineData>, sites: map<string, seq<Platform>>)
    ensures ExtractTemplates(lines, sites).Ok? <==> Collectable(lines, sites)
    ensures var r := ExtractTemplates(lines, sites); var ts := LineTemplates(lines, sites);
      r.Ok? ==>
        && AllTicketed(ts)
        && (forall k, i :: 1 <= i <= |WithTicker(ts, k)| ==> Name(k, i) in r.value && r.value[Name(k, i)] == WithTicker(ts, k)[i - 1])
        && (forall n :: n in r.value ==> exists k, i :: 1 <= i <= |WithTicker(ts, k)| && n == Name(k, i))
  {
    CollectedOk(lines, sites);
    var c := Collected(lines, sites);
    if c.Ok? {
      CollectedGrouped(lines, sites);
      var ts := LineTemplates(lines, sites);
      NumberedMeaning(c.value);
      forall k | k !in c.value.m
        ensures WithTicker(ts, k) == []
      {
        WithTickerAbsent(ts, k);
      }
    }
  }

  // ---------------------------------------------------------------------------------
  // The loops of main

  lemma {:induction false} GroupAllErrorSticks(c: Collection, us: seq<TemplateRecord>, k: nat)
    requires k <= |us| && GroupAll(c, us[..k]).Err?
    ensures GroupAll(c, us) == GroupAll(c, us[..k])
  {
    if k < |us| {
      var pre := us[..|us| - 1];
      assert us[..k] == pre[..k];
      GroupAllErrorSticks(c, pre, k);
    } else {
      assert us[..k] == us;
    }
  }

  /** Grouping the templates of one more recipe is one more step of the fold. */
  lemma GroupRecipesStep(c: Collection, lineType: string, lineTicker: Option<string>, recipes: seq<RecipeData>, k: nat)
    requires k < |recipes|
    ensures var g := GroupAll(c, RecipeTemplates(lineType, lineTicker, recipes[..k]));
      GroupAll(c, RecipeTemplates(lineType, lineTicker, recipes[..k + 1])) ==
        if g.Err? then g else Group(g.value, TemplateOf(lineType, lineTicker, recipes[k]))
  {
    var us := RecipeTemplates(lineType, lineTicker, recipes[..k + 1]);
    assert us[..k] == RecipeTemplates(lineType, lineTicker, recipes[..k]);
    assert us == us[..k] + [us[k]];
  }

  /** Once grouping a prefix of the recipes' templates fails, grouping them all fails alike. */
  lemma GroupRecipesErrorSticks(c: Collection, lineType: string, lineTicker: Option<string>, recipes: seq<RecipeData>, k: nat)
    requires k <= |recipes| && GroupAll(c, RecipeTemplates(lineType, lineTicker, recipes[..k])).Err?
    ensures GroupAll(c, RecipeTemplates(lineType, lineTicker, recipes)) == GroupAll(c, RecipeTemplates(lineType, lineTicker, recipes[..k]))
  {
    var us := RecipeTemplates(lineType, lineTicker, recipes);
    assert us[..k] == RecipeTemplates(lineType, lineTicker, recipes[..k]);
    GroupAllErrorSticks(c, us, k);
  }

  /** Grouping a template with a ticker appends it to that ticker's list, or starts one. */
  lemma GroupPut(c: Collection, t: TemplateRecord)
    requires t.ticker.Some?
    ensures var k := t.ticker.value;
      Group(c, t) == Ok(Put(c, k, if k in c.m then c.m[k] + [t] else [t]))
  {
    assert [] + [t] == [t];
  }

  /** One turn of the recipe loop: a template without a ticker fails the whole line,
      one with a ticker extends the grouping by one step. */
  lemma GroupLineStep(c: Collection, lineType: string, lineTicker: Option<string>, recipes: seq<RecipeData>, k: nat, collection: Collection)
    requires k < |recipes| && GroupAll(c, RecipeTemplates(lineType, lineTicker, recipes[..k])) == Ok(collection)
    ensures var t := TemplateOf(lineType, lineTicker, recipes[k]);
      && (t.ticker.None? ==> GroupAll(c, RecipeTemplates(lineType, lineTicker, recipes)) == Err(KeyNotFound("ticker")))
      && (t.ticker.Some? ==> var key := t.ticker.value;
           GroupAll(c, RecipeTemplates(lineType, lineTicker, recipes[..k + 1])) ==
             Ok(Put(collection, key, if key in collection.m then collection.m[key] + [t] else [t])))
  {
    var t := TemplateOf(lineType, lineTicker, recipes[k]);
    GroupRecipesStep(c, lineType, lineTicker, recipes, k);
    if t.ticker.None? {
      GroupRecipesErrorSticks(c, lineType, lineTicker, recipes, k + 1);
    } else {
      GroupPut(collection, t);
    }
  }

  /** The recipe loop for one line: build each template and group it. */
  method GroupLineRecipes(c: Collection, lineType: string, lineTicker: Option<string>, recipes: seq<RecipeData>) returns (r: Result<Collection>)
    ensures r == GroupAll(c, RecipeTemplates(lineType, lineTicker, recipes))
  {
    var collection := c;
    var k := 0;
    while k < |recipes|
      invariant 0 <= k <= |recipes|
      invariant GroupAll(c, RecipeTemplates(lineType, lineTicker, recipes[..k])) == Ok(collection)
    {
      var template := BuildTemplate(lineType, lineTicker, recipes[k]);
      GroupLineStep(c, lineType, lineTicker, recipes, k, collection);
      if template.ticker.None? {
        return Err(KeyNotFound("ticker"));
      }
      var key := template.ticker.value;
      var group := if key in collection.m then collection.m[key] + [template] else [template];
      collection := Put(collection, key, group);
      k := k + 1;
    }
    assert recipes[..k] == recipes;
    return Ok(collection);
  }

  lemma {:induction false} CollectedErrorSticks(lines: seq<LineData>, sites: map<string, seq<Platform>>, k: nat)
    requires k <= |lines| && Collected(lines[..k], sites).Err?
    ensures Collected(lines, sites) == Collected(lines[..k], sites)
  {
    if k < |lines| {
      var pre := lines[..|lines| - 1];
      assert lines[..k] == pre[..k];
      CollectedErrorSticks(pre, sites, k);
    } else {
      assert lines[..k] == lines;
    }
  }

  /** The first loop of main. */
  method CollectTemplates(lines: seq<LineData>, sites: map<string, seq<Platform>>) returns (r: Result<Collection>)
    ensures r == Collected(lines, sites)
  {
    var collection: Collection := Empty();
    var k := 0;
    while k < |lines|
      invariant 0 <= k <= |lines|
      invariant Collected(lines[..k], sites) == Ok(collection)
    {
      assert lines[..k + 1][..k] == lines[..k];
      var line := lines[k];
      if line.siteId !in sites {
        CollectedErrorSticks(lines, sites, k + 1);
        return Err(KeyNotFound(line.siteId));
      }
      var lineTicker := LookupTicker(sites[line.siteId], line.kind);
      var g := GroupLineRecipes(collection, line.kind, lineTicker, line.recipes);
      if g.Err? {
        CollectedErrorSticks(lines, sites, k + 1);
        return g;
      }
      collection := g.value;
      k := k + 1;
    }
    assert lines[..k] == lines;
    return Ok(collection);
  }

  /** The numbering loop for one group. */
  method NumberGroup(acc: map<string, TemplateRecord>, key: string, ts: seq<TemplateRecord>) returns (r: map<string, TemplateRecord>)
    ensures r == NumberKey(acc, key, ts)
  {
    r := acc;
    var i := 1;
    while i <= |ts|
      invariant 1 <= i <= |ts| + 1
      invariant r == NumberKey(acc, key, ts[..i - 1])
    {
      assert ts[..i][..i - 1] == ts[..i - 1];
      r := r[Name(key, i) := ts[i - 1]];
      i := i + 1;
    }
    assert ts[..i - 1] == ts;
  }

  /** The second loop of main. */
  method NumberTemplates(c: Collection) returns (r: map<string, TemplateRecord>)
    requires Wf(c)
    ensures r == Numbered(c)
  {
    r := map[];
    var k := 0;
    while k < |c.order|
      invariant 0 <= k <= |c.order|
      invariant r == NumberKeys(c, c.order[..k])
    {
      assert c.order[..k + 1][..k] == c.order[..k];
      var key := c.order[k];
      r := NumberGroup(r, key, c.m[key]);
      k := k + 1;
    }
    assert c.order[..k] == c.order;
  }

  /** main: the grouping loop, then the numbering loop. */
  method Extract(lines: seq<LineData>, sites: map<string, seq<Platform>>) returns (r: Result<map<string, TemplateRecord>>)
    ensures r == ExtractTemplates(lines, sites)
  {
    var c := CollectTemplates(lines, sites);
    if c.Err? {
      return Err(c.error);
    }
    CollectedWf(lines, sites);
    var templates := NumberTemplates(c.value);
    return Ok(templates);
  }
}
