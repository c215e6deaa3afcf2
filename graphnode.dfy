/** A node of a production tree (graphnode.py): a template with the nodes chosen to feed
    its inputs, or the market for a '.MKT' key, and the costs and values the node
    derives from them. A node is filled in once, when it is built, and not changed
    afterwards, so it is a value here. */
module GraphNodes {
  import opened Wrappers
  import opened Text
  import opened Dicts
  import opened Markets
  import ProductionLines

  type Factor = ProductionLines.Factor

  /** A production template as the tree builder reads it: its `{id, count}` inputs and
      outputs, in the order the template lists them. */
  datatype Template = Template(inputs: seq<Factor>, outputs: seq<Factor>)

  /** One entry of a node's `inputs`: the count its template needs and the node that
      supplies it. */
  datatype Link = Link(count: real, node: Node)

  datatype Node = Node(
    template: string, variant: nat, description: string,
    inputs: Dict<string, Link>, outputs: Dict<string, real>,
    grossValue: real, supplyCost: real, inputCost: real, totalCost: real, netValue: real,
    grossValuePerUnit: real, supplyCostPerUnit: real, inputCostPerUnit: real,
    totalCostPerUnit: real, netValuePerUnit: real)

  const MarketSuffix := ".MKT"

  /** The material a key stands for: the key up to its first '.'. */
  function TickerOf(key: string): string
  {
    Before(key, '.')
  }

  /** `'.MKT' in key`: the key stands for buying the material on the market. */
  predicate IsMarketKey(key: string)
  {
    Contains(key, MarketSuffix)
  }

  /** `price.avg` taking part in arithmetic: a missing average is a `TypeError`. */
  function Avg(p: Price): Result<real>
  {
    if p.avg.Some? then Ok(p.avg.value) else Err(NoneArithmetic)
  }

  /** The node `__init__` starts from: every number 0.0, no inputs, no outputs. */
  function Blank(key: string, variant: nat): Node
  {
    Node(key, variant, "", Empty(), Empty(), 0.0, 0.0, 0.0, 0.0, 0.0, 0.0, 0.0, 0.0, 0.0, 0.0)
  }

  /** The last four assignments of `_init_node`. */
  function Totals(n: Node): Node
  {
    n.(totalCost := n.supplyCost + n.inputCost,
       totalCostPerUnit := n.supplyCostPerUnit + n.inputCostPerUnit,
       netValue := n.grossValue - (n.supplyCost + n.inputCost),
       netValuePerUnit := n.grossValuePerUnit - (n.supplyCostPerUnit + n.inputCostPerUnit))
  }

  // ---------------------------------------------------------------------------------
  // The helpers of `_init_node`, on values. Each loop is a fold over a prefix.

  /** `_init_description`: the key, '<-', and the input nodes' keys joined by '+'. */
  function Description(key: string, nodes: seq<Node>): string
  {
    key + "<-" + Join(Keys(nodes), "+")
  }

  function Keys(nodes: seq<Node>): (r: seq<string>)
    ensures |r| == |nodes| && forall j :: 0 <= j < |nodes| ==> r[j] == nodes[j].template
  {
    seq(|nodes|, j requires 0 <= j < |nodes| => nodes[j].template)
  }

  /** The inner loop of `_init_inputs` for one template input: every node whose outputs
      hold the input's material overwrites the entry, so the last such node stays. */
  function MatchInput(acc: Dict<string, Link>, f: Factor, nodes: seq<Node>): (r: Dict<string, Link>)
    ensures Wf(acc) ==> Wf(r)
  {
    if |nodes| == 0 then acc
    else
      var a := MatchInput(acc, f, nodes[..|nodes| - 1]);
      var n := nodes[|nodes| - 1];
      if f.id in n.outputs.m then Put(a, f.id, Link(f.count, n)) else a
  }

  /** `_init_inputs`. */
  function InputsOf(ins: seq<Factor>, nodes: seq<Node>): (r: Dict<string, Link>)
    ensures Wf(r)
  {
    if |ins| == 0 then Empty() else MatchInput(InputsOf(ins[..|ins| - 1], nodes), ins[|ins| - 1], nodes)
  }

  /** `_init_outputs`: a repeated output id keeps its first place and its last count. */
  function OutputsOf(outs: seq<Factor>): (r: Dict<string, real>)
    ensures Wf(r)
  {
    if |outs| == 0 then Empty() else Put(OutputsOf(outs[..|outs| - 1]), outs[|outs| - 1].id, outs[|outs| - 1].count)
  }

  /** `_calc_gross_value`: the average price of every listed output times its count; an
      unknown ticker raises in `Market.price`, a missing average in the product. */
  function GrossValue(outs: seq<Factor>, m: Market): Result<real>
  {
    if |outs| == 0 then Ok(0.0)
    else
      var v :- GrossValue(outs[..|outs| - 1], m);
      var x :- ItemValue(outs[|outs| - 1], m);
      Ok(v + x)
  }

  /** One term of that sum. */
  function ItemValue(f: Factor, m: Market): Result<real>
  {
    var price := Lookup(m, f.id);
    if price.Err? then Err(price.error)
    else if price.value.avg.None? then Err(NoneArithmetic)
    else Ok(price.value.avg.value * f.count)
  }

  /** `num_units`: the counts summed over the keys of `outputs`. */
  function UnitsOver(order: seq<string>, m: map<string, real>): real
    requires forall i :: 0 <= i < |order| ==> order[i] in m
  {
    if |order| == 0 then 0.0 else UnitsOver(order[..|order| - 1], m) + m[order[|order| - 1]]
  }

  function Units(outputs: Dict<string, real>): real
    requires Wf(outputs)
  {
    UnitsOver(outputs.order, outputs.m)
  }

  /** `_calc_input_cost`: each input's count times its node's total cost. */
  function InputCostOver(order: seq<string>, m: map<string, Link>): real
    requires forall i :: 0 <= i < |order| ==> order[i] in m
  {
    if |order| == 0 then 0.0
    else InputCostOver(order[..|order| - 1], m) + m[order[|order| - 1]].count * m[order[|order| - 1]].node.totalCost
  }

  function InputCost(inputs: Dict<string, Link>): real
    requires Wf(inputs)
  {
    InputCostOver(inputs.order, inputs.m)
  }

  /** `value / float(num_units)`. */
  function PerUnit(value: real, units: real): Result<real>
  {
    if units == 0.0 then Err(ZeroDivision) else Ok(value / units)
  }

  // ---------------------------------------------------------------------------------
  // Building a node

  /** The '.MKT' branch of `_init_node`. */
  function MarketFields(key: string, variant: nat, m: Market): Result<Node>
  {
    var ticker := TickerOf(key);
    var price :- Lookup(m, ticker);
    var avg :- Avg(price);
    Ok(Blank(key, variant).(description := key, outputs := Put(Empty(), ticker, 1.0),
                            inputCost := avg, inputCostPerUnit := avg))
  }

  /** The template branch of `_init_node`, in its order of evaluation. */
  function TemplateFields(key: string, variant: nat, t: Template, nodes: seq<Node>, m: Market): Result<Node>
  {
    var inputs := InputsOf(t.inputs, nodes);
    var outputs := OutputsOf(t.outputs);
    var gross :- GrossValue(t.outputs, m);
    var grossPerUnit :- PerUnit(gross, Units(outputs));
    var inputCost := InputCost(inputs);
    var inputCostPerUnit :- PerUnit(inputCost, Units(outputs));
    Ok(Blank(key, variant).(description := Description(key, nodes), inputs := inputs, outputs := outputs,
                            grossValue := gross, grossValuePerUnit := grossPerUnit,
                            inputCost := inputCost, inputCostPerUnit := inputCostPerUnit))
  }

  /** The branch `_init_node` takes: `templates` is `config['templates']`, looked up only
      for a key that is not a market key. */
  function Fields(templates: map<string, Template>, m: Market, key: string, variant: nat, nodes: seq<Node>): Result<Node>
  {
    if IsMarketKey(key) then MarketFields(key, variant, m)
    else if key !in templates then Err(KeyNotFound(key))
    else TemplateFields(key, variant, templates[key], nodes, m)
  }

  /** `GraphNode(config, key, variant, input_nodes)`. Whatever the branch, the supply cost
      stays 0.0 and the totals obey the node identities. */
  function NewNode(templates: map<string, Template>, m: Market, key: string, variant: nat, nodes: seq<Node>): (r: Result<Node>)
    ensures r.Ok? ==> r.value.template == key && r.value.variant == variant
    ensures r.Ok? ==> r.value.supplyCost == 0.0 && r.value.supplyCostPerUnit == 0.0
    ensures r.Ok? ==> r.value.totalCost == r.value.supplyCost + r.value.inputCost
    ensures r.Ok? ==> r.value.netValue == r.value.grossValue - r.value.totalCost
    ensures r.Ok? ==> r.value.totalCostPerUnit == r.value.supplyCostPerUnit + r.value.inputCostPerUnit
    ensures r.Ok? ==> r.value.netValuePerUnit == r.value.grossValuePerUnit - r.value.totalCostPerUnit
    ensures !IsMarketKey(key) && key !in templates ==> r == Err(KeyNotFound(key))
  {
    var n :- Fields(templates, m, key, variant, nodes);
    Ok(Totals(n))
  }

  // ---------------------------------------------------------------------------------
  // What the helpers compute

  /** The last index whose factor has the given id, or -1. */
  function LastWithId(fs: seq<Factor>, id: string): (k: int)
    ensures -1 <= k < |fs|
    ensures k >= 0 ==> fs[k].id == id && forall j :: k < j < |fs| ==> fs[j].id != id
    ensures k < 0 ==> forall j :: 0 <= j < |fs| ==> fs[j].id != id
  {
    if |fs| == 0 then -1 else if fs[|fs| - 1].id == id then |fs| - 1 else LastWithId(fs[..|fs| - 1], id)
  }

  /** The last input node whose outputs hold `id`, or -1. */
  function LastProducer(nodes: seq<Node>, id: string): (j: int)
    ensures -1 <= j < |nodes|
    ensures j >= 0 ==> id in nodes[j].outputs.m && forall k :: j < k < |nodes| ==> id !in nodes[k].outputs.m
    ensures j < 0 ==> forall k :: 0 <= k < |nodes| ==> id !in nodes[k].outputs.m
  {
    if |nodes| == 0 then -1
    else if id in nodes[|nodes| - 1].outputs.m then |nodes| - 1
    else LastProducer(nodes[..|nodes| - 1], id)
  }

  /** `outputs` holds each listed output id once, with the count of its last listing. */
  lemma {:induction false} OutputsHoldLastCounts(outs: seq<Factor>, id: string)
    ensures id in OutputsOf(outs).m <==> LastWithId(outs, id) >= 0
    ensures id in OutputsOf(outs).m ==> OutputsOf(outs).m[id] == outs[LastWithId(outs, id)].count
  {
    if |outs| > 0 {
      OutputsHoldLastCounts(outs[..|outs| - 1], id);
    }
  }

  /** For one template input the inner loop leaves the entry of the last node that
      supplies its material, or nothing when no node does. */
  lemma {:induction false} MatchInputTakesLast(acc: Dict<string, Link>, f: Factor, nodes: seq<Node>)
    ensures var j := LastProducer(nodes, f.id);
      MatchInput(acc, f, nodes).m == if j >= 0 then acc.m[f.id := Link(f.count, nodes[j])] else acc.m
  {
    if |nodes| > 0 {
      MatchInputTakesLast(acc, f, nodes[..|nodes| - 1]);
    }
  }

  /** Each template input is matched to the last input node whose outputs contain it,
      with the count of the last template input naming it; an input no node supplies has
      no entry. */
  lemma {:induction false} InputsMatchLastProducer(ins: seq<Factor>, nodes: seq<Node>, id: string)
    ensures id in InputsOf(ins, nodes).m <==> LastWithId(ins, id) >= 0 && LastProducer(nodes, id) >= 0
    ensures id in InputsOf(ins, nodes).m ==>
      InputsOf(ins, nodes).m[id] == Link(ins[LastWithId(ins, id)].count, nodes[LastProducer(nodes, id)])
  {
    if |ins| > 0 {
      var pre := ins[..|ins| - 1];
      var f := ins[|ins| - 1];
      InputsMatchLastProducer(pre, nodes, id);
      MatchInputTakesLast(InputsOf(pre, nodes), f, nodes);
      if f.id != id {
        assert LastWithId(ins, id) == LastWithId(pre, id);
      }
    }
  }

  /** The gross value is additive over the listed outputs. */
  lemma {:induction false} GrossValueAppend(a: seq<Factor>, b: seq<Factor>, m: Market)
    requires GrossValue(a, m).Ok? && GrossValue(b, m).Ok?
    ensures GrossValue(a + b, m) == Ok(GrossValue(a, m).value + GrossValue(b, m).value)
    decreases |b|
  {
    if |b| == 0 {
      assert a + b == a;
    } else {
      var pre := b[..|b| - 1];
      var last := b[|b| - 1];
      assert (a + b)[..|a + b| - 1] == a + pre;
      assert (a + b)[|a + b| - 1] == last;
      assert GrossValue(pre, m).Ok? && ItemValue(last, m).Ok?;
      GrossValueAppend(a, pre, m);
    }
  }

  /** The gross value can be taken exactly when every output is priced with an average. */
  lemma {:induction false} GrossValueOkIff(outs: seq<Factor>, m: Market)
    ensures GrossValue(outs, m).Ok? <==>
      forall k :: 0 <= k < |outs| ==> outs[k].id in m.prices && m.prices[outs[k].id].avg.Some?
  {
    if |outs| > 0 {
      GrossValueOkIff(outs[..|outs| - 1], m);
      assert ItemValue(outs[|outs| - 1], m).Ok? <==> outs[|outs| - 1].id in m.prices && m.prices[outs[|outs| - 1].id].avg.Some?;
      assert forall k :: 0 <= k < |outs| - 1 ==> outs[..|outs| - 1][k] == outs[k];
    }
  }

  /** A market node: its one output is its material with count 1, its input cost (also
      per unit) is the average price, it has no value of its own, and it fails exactly
      when the material has no average price. */
  lemma MarketNodeShape(templates: map<string, Template>, m: Market, key: string, variant: nat, nodes: seq<Node>)
    requires IsMarketKey(key)
    ensures var r := NewNode(templates, m, key, variant, nodes);
      var t := TickerOf(key);
      && (r.Ok? <==> t in m.prices && m.prices[t].avg.Some?)
      && (r.Ok? ==> r.value.outputs == Dict([t], map[t := 1.0]) && r.value.inputs == Dict([], map[])
                    && r.value.inputCost == m.prices[t].avg.value && r.value.inputCostPerUnit == m.prices[t].avg.value
                    && r.value.grossValue == 0.0 && r.value.grossValuePerUnit == 0.0
                    && r.value.description == key)
      && (t !in m.prices ==> r == Err(PriceNotFound(t)))
  {
  }

  /** A template node fails on an unpriced output first, and otherwise exactly when its
      output counts sum to zero. */
  lemma TemplateNodeFails(templates: map<string, Template>, m: Market, key: string, variant: nat, nodes: seq<Node>)
    requires !IsMarketKey(key) && key in templates
    ensures var t := templates[key];
      var r := NewNode(templates, m, key, variant, nodes);
      && (GrossValue(t.outputs, m).Err? ==> r == Err(GrossValue(t.outputs, m).error))
      && (GrossValue(t.outputs, m).Ok? ==> (r.Ok? <==> Units(OutputsOf(t.outputs)) != 0.0))
      && (GrossValue(t.outputs, m).Ok? && Units(OutputsOf(t.outputs)) == 0.0 ==> r == Err(ZeroDivision))
  {
  }

  /** A built template node: its description, inputs and outputs come from its template
      and input nodes, its gross value is the priced outputs, its input cost sums each
      input's count times the total cost of its node, and both per-unit values are
      those spread over the summed output counts. */
  lemma TemplateNodeValues(templates: map<string, Template>, m: Market, key: string, variant: nat, nodes: seq<Node>)
    requires !IsMarketKey(key) && key in templates && NewNode(templates, m, key, variant, nodes).Ok?
    ensures var t := templates[key];
      var n := NewNode(templates, m, key, variant, nodes).value;
      var units := Units(OutputsOf(t.outputs));
      && n.description == Description(key, nodes)
      && n.inputs == InputsOf(t.inputs, nodes) && n.outputs == OutputsOf(t.outputs)
      && n.grossValue == GrossValue(t.outputs, m).value
      && n.inputCost == InputCost(InputsOf(t.inputs, nodes))
      && units != 0.0
      && n.grossValuePerUnit == n.grossValue / units
      && n.inputCostPerUnit == n.inputCost / units
  {
    var t := templates[key];
    var units := Units(OutputsOf(t.outputs));
    assert TemplateFields(key, variant, t, nodes, m).Ok?;
  }

  // ---------------------------------------------------------------------------------
  // `_init_node` and its loops

  /** The loops of `_init_inputs`. */
  method InitInputs(ins: seq<Factor>, nodes: seq<Node>) returns (inputs: Dict<string, Link>)
    ensures inputs == InputsOf(ins, nodes)
  {
    inputs := Empty();
    var i := 0;
    while i < |ins|
      invariant 0 <= i <= |ins|
      invariant inputs == InputsOf(ins[..i], nodes)
    {
      assert ins[..i + 1][..i] == ins[..i];
      ghost var before := inputs;
      var j := 0;
      while j < |nodes|
        invariant 0 <= j <= |nodes|
        invariant inputs == MatchInput(before, ins[i], nodes[..j])
      {
        assert nodes[..j + 1][..j] == nodes[..j];
        if ins[i].id in nodes[j].outputs.m {
          inputs := Put(inputs, ins[i].id, Link(ins[i].count, nodes[j]));
        }
        j := j + 1;
      }
      assert nodes[..j] == nodes;
      i := i + 1;
    }
    assert ins[..i] == ins;
  }

  /** The loop of `_init_outputs`. */
  method InitOutputs(outs: seq<Factor>) returns (outputs: Dict<string, real>)
    ensures outputs == OutputsOf(outs)
  {
    outputs := Empty();
    var i := 0;
    while i < |outs|
      invariant 0 <= i <= |outs|
      invariant outputs == OutputsOf(outs[..i])
    {
      assert outs[..i + 1][..i] == outs[..i];
      outputs := Put(outputs, outs[i].id, outs[i].count);
      i := i + 1;
    }
    assert outs[..i] == outs;
  }

  /** Once a prefix of the outputs fails to be valued, so do all of them. */
  lemma {:induction false} GrossValueErrorSticks(outs: seq<Factor>, i: nat, m: Market)
    requires i <= |outs| && GrossValue(outs[..i], m).Err?
    ensures GrossValue(outs, m) == GrossValue(outs[..i], m)
    decreases |outs| - i
  {
    if i < |outs| {
      assert outs[..i + 1][..i] == outs[..i];
      GrossValueErrorSticks(outs, i + 1, m);
    } else {
      assert outs[..i] == outs;
    }
  }

  /** The loop of `_calc_gross_value`. */
  method CalcGrossValue(outs: seq<Factor>, m: Market) returns (r: Result<real>)
    ensures r == GrossValue(outs, m)
  {
    var value := 0.0;
    var i := 0;
    while i < |outs|
      invariant 0 <= i <= |outs|
      invariant GrossValue(outs[..i], m) == Ok(value)
    {
      assert outs[..i + 1][..i] == outs[..i];
      var price := Lookup(m, outs[i].id);
      if price.Err? || price.value.avg.None? {
        assert ItemValue(outs[i], m).Err?;
        GrossValueErrorSticks(outs, i + 1, m);
        return if price.Err? then Err(price.error) else Err(NoneArithmetic);
      }
      assert price.Ok? && price.value.avg.Some?;
      var x := ItemValue(outs[i], m);
      assert x.Ok?;
      assert x.value == price.value.avg.value * outs[i].count;
      value := value + price.value.avg.value * outs[i].count;
      i := i + 1;
    }
    assert outs[..i] == outs;
    return Ok(value);
  }

  /** The loop over the output keys in `_calc_gross_value_per_unit` and
      `_calc_input_cost_per_unit`. */
  method CountUnits(outputs: Dict<string, real>) returns (units: real)
    requires Wf(outputs)
    ensures units == Units(outputs)
  {
    units := 0.0;
    var i := 0;
    while i < |outputs.order|
      invariant 0 <= i <= |outputs.order|
      invariant units == UnitsOver(outputs.order[..i], outputs.m)
    {
      assert outputs.order[..i + 1][..i] == outputs.order[..i];
      units := units + outputs.m[outputs.order[i]];
      i := i + 1;
    }
    assert outputs.order[..i] == outputs.order;
  }

  /** The loop of `_calc_input_cost`. */
  method CalcInputCost(inputs: Dict<string, Link>) returns (cost: real)
    requires Wf(inputs)
    ensures cost == InputCost(inputs)
  {
    cost := 0.0;
    var i := 0;
    while i < |inputs.order|
      invariant 0 <= i <= |inputs.order|
      invariant cost == InputCostOver(inputs.order[..i], inputs.m)
    {
      assert inputs.order[..i + 1][..i] == inputs.order[..i];
      var link := inputs.m[inputs.order[i]];
      cost := cost + link.count * link.node.totalCost;
      i := i + 1;
    }
    assert inputs.order[..i] == inputs.order;
  }

  /** The '.MKT' branch of `_init_node`, field by field. */
  method InitMarketFields(key: string, variant: nat, m: Market) returns (r: Result<Node>)
    ensures r == MarketFields(key, variant, m)
  {
    var node := Blank(key, variant);
    var ticker := TickerOf(key);
    var price := Lookup(m, ticker);
    if price.Err? {
      return Err(price.error);
    }
    if price.value.avg.None? {
      return Err(NoneArithmetic);
    }
    node := node.(description := key);
    node := node.(outputs := Put(node.outputs, ticker, 1.0));
    node := node.(inputCost := price.value.avg.value);
    node := node.(inputCostPerUnit := price.value.avg.value);
    return Ok(node);
  }

  /** The template branch of `_init_node`, field by field. */
  method InitTemplateFields(key: string, variant: nat, template: Template, nodes: seq<Node>, m: Market) returns (r: Result<Node>)
    ensures r == TemplateFields(key, variant, template, nodes, m)
  {
    var node := Blank(key, variant);
    node := node.(description := Description(key, nodes));
    var inputs := InitInputs(template.inputs, nodes);
    node := node.(inputs := inputs);
    var outputs := InitOutputs(template.outputs);
    node := node.(outputs := outputs);
    var gross := CalcGrossValue(template.outputs, m);
    if gross.Err? {
      return Err(gross.error);
    }
    node := node.(grossValue := gross.value);
    var units := CountUnits(outputs);
    if units == 0.0 {
      return Err(ZeroDivision);
    }
    node := node.(grossValuePerUnit := gross.value / units);
    var cost := CalcInputCost(inputs);
    node := node.(inputCost := cost);
    units := CountUnits(outputs);
    node := node.(inputCostPerUnit := cost / units);
    return Ok(node);
  }

  /** The `if` of `_init_node`. */
  method InitFields(templates: map<string, Template>, m: Market, key: string, variant: nat, nodes: seq<Node>) returns (r: Result<Node>)
    ensures r == Fields(templates, m, key, variant, nodes)
  {
    if IsMarketKey(key) {
      r := InitMarketFields(key, variant, m);
    } else if key !in templates {
      r := Err(KeyNotFound(key));
    } else {
      r := InitTemplateFields(key, variant, templates[key], nodes, m);
    }
  }

  /** `GraphNode(config, key, variant, input_nodes)` as `_init_node` fills it. */
  method InitNode(templates: map<string, Template>, m: Market, key: string, variant: nat, nodes: seq<Node>) returns (r: Result<Node>)
    ensures r == NewNode(templates, m, key, variant, nodes)
  {
    var fields := InitFields(templates, m, key, variant, nodes);
    if fields.Err? {
      return Err(fields.error);
    }
    var node := fields.value;
    node := node.(totalCost := node.supplyCost + node.inputCost);
    node := node.(totalCostPerUnit := node.supplyCostPerUnit + node.inputCostPerUnit);
    node := node.(netValue := node.grossValue - node.totalCost);
    node := node.(netValuePerUnit := node.grossValuePerUnit - node.totalCostPerUnit);
    assert node == Totals(fields.value);
    return Ok(node);
  }
}
