/** Shapes and small transforms shared by the extract scripts that read the game-state
    file: a site's address lines, a list of material amounts, and the dict-filling loop
    `d[key(x)] = val(x)` by which every script indexes its records (a later record with
    the same key overwrites an earlier one). */
module StateRecords {
  import opened Wrappers

  // ---------------------------------------------------------------------------------
  // Keying records: `for x in xs: d[key(x)] = val(x)`

  /** The dict the keying loop builds over `xs`. */
  function Keyed<T, V>(xs: seq<T>, key: T -> string, val: T -> V): map<string, V>
  {
    if |xs| == 0 then map[]
    else Keyed(xs[..|xs| - 1], key, val)[key(xs[|xs| - 1]) := val(xs[|xs| - 1])]
  }

  /** The keyed dict holds exactly the keys of the records, and under each key the value of
      the last record carrying it. */
  lemma {:induction false} KeyedMeaning<T, V>(xs: seq<T>, key: T -> string, val: T -> V)
    ensures forall k :: k in Keyed(xs, key, val) <==> exists i :: 0 <= i < |xs| && key(xs[i]) == k
    ensures forall k | k in Keyed(xs, key, val) :: exists i ::
      0 <= i < |xs| && key(xs[i]) == k && Keyed(xs, key, val)[k] == val(xs[i]) &&
      forall j :: i < j < |xs| ==> key(xs[j]) != k
  {
    if |xs| > 0 {
      var n := |xs| - 1;
      var pre := xs[..n];
      KeyedMeaning(pre, key, val);
      var r := Keyed(xs, key, val);
      forall k
        ensures k in r <==> exists i :: 0 <= i < |xs| && key(xs[i]) == k
      {
        if k in Keyed(pre, key, val) {
          var i :| 0 <= i < |pre| && key(pre[i]) == k;
          assert key(xs[i]) == k;
        }
        if exists i :: 0 <= i < |xs| && key(xs[i]) == k {
          var i :| 0 <= i < |xs| && key(xs[i]) == k;
          if i < n {
            assert key(pre[i]) == k;
          }
        }
      }
      forall k | k in r
        ensures exists i :: (0 <= i < |xs| && key(xs[i]) == k && r[k] == val(xs[i]) &&
          forall j :: i < j < |xs| ==> key(xs[j]) != k)
      {
        if k == key(xs[n]) {
          assert key(xs[n]) == k && r[k] == val(xs[n]);
        } else {
          var i :| 0 <= i < |pre| && key(pre[i]) == k && Keyed(pre, key, val)[k] == val(pre[i]) &&
            forall j :: i < j < |pre| ==> key(pre[j]) != k;
          assert xs[i] == pre[i];
          assert forall j :: i < j < |xs| ==> key(xs[j]) != k by {
            assert forall j :: i < j < n ==> xs[j] == pre[j];
          }
        }
      }
    }
  }

  /** A record whose key no later record repeats is the one kept under that key. */
  lemma {:induction false} KeyedLast<T, V>(xs: seq<T>, key: T -> string, val: T -> V, i: nat)
    requires i < |xs| && forall j :: i < j < |xs| ==> key(xs[j]) != key(xs[i])
    ensures key(xs[i]) in Keyed(xs, key, val) && Keyed(xs, key, val)[key(xs[i])] == val(xs[i])
  {
    var n := |xs| - 1;
    if i < n {
      var pre := xs[..n];
      assert pre[i] == xs[i];
      assert forall j :: i < j < |pre| ==> pre[j] == xs[j];
      KeyedLast(pre, key, val, i);
    }
  }

  // ---------------------------------------------------------------------------------
  // extract_address

  /** One `address.lines` entry: its type and its entity's name and natural id. */
  datatype AddressLine = AddressLine(kind: string, name: string, naturalId: string)

  /** The address dict; a field is `None` while its key is unset. */
  datatype Address = Address(
    planetName: Option<string>, planetId: Option<string>,
    systemName: Option<string>, systemId: Option<string>)

  const NoAddress := Address(None, None, None, None)

  /** One turn of the address loop: PLANET lines set the planet fields, SYSTEM lines the
      system fields, other lines nothing. */
  function AddressStep(a: Address, line: AddressLine): Address
  {
    if line.kind == "PLANET" then a.(planetName := Some(line.name), planetId := Some(line.naturalId))
    else if line.kind == "SYSTEM" then a.(systemName := Some(line.name), systemId := Some(line.naturalId))
    else a
  }

  /** `extract_address`: the address after the loop over all lines. */
  function AddressOf(lines: seq<AddressLine>): Address
  {
    if |lines| == 0 then NoAddress
    else AddressStep(AddressOf(lines[..|lines| - 1]), lines[|lines| - 1])
  }

  /** The last line of the given type, if any. */
  function Latest(lines: seq<AddressLine>, kind: string): (r: Option<AddressLine>)
  {
    if |lines| == 0 then None
    else if lines[|lines| - 1].kind == kind then Some(lines[|lines| - 1])
    else Latest(lines[..|lines| - 1], kind)
  }

  /** `Latest` is the line of that type that no later line of that type follows, and it is
      absent exactly when no line has the type. */
  lemma {:induction false} LatestMeaning(lines: seq<AddressLine>, kind: string)
    ensures Latest(lines, kind).None? <==> forall i :: 0 <= i < |lines| ==> lines[i].kind != kind
    ensures Latest(lines, kind).Some? ==> exists i :: (0 <= i < |lines| &&
      lines[i] == Latest(lines, kind).value && lines[i].kind == kind &&
      forall j :: i < j < |lines| ==> lines[j].kind != kind)
  {
    if |lines| > 0 {
      var n := |lines| - 1;
      var pre := lines[..n];
      LatestMeaning(pre, kind);
      assert forall i :: 0 <= i < n ==> pre[i] == lines[i];
      if lines[n].kind == kind {
        assert Latest(lines, kind) == Some(lines[n]);
      } else {
        assert Latest(lines, kind) == Latest(pre, kind);
        if Latest(pre, kind).Some? {
          var i :| 0 <= i < n && pre[i] == Latest(pre, kind).value && pre[i].kind == kind &&
            forall j :: i < j < n ==> pre[j].kind != kind;
          assert lines[i] == pre[i];
          assert forall j :: i < j < |lines| ==> lines[j].kind != kind;
        }
      }
    }
  }

  /** The planet fields come from the last PLANET line and the system fields from the last
      SYSTEM line; a field stays unset when no line has its type. */
  lemma {:induction false} AddressOfLatest(lines: seq<AddressLine>)
    ensures var a := AddressOf(lines); var p := Latest(lines, "PLANET"); var s := Latest(lines, "SYSTEM");
      && a.planetName == (if p.Some? then Some(p.value.name) else None)
      && a.planetId == (if p.Some? then Some(p.value.naturalId) else None)
      && a.systemName == (if s.Some? then Some(s.value.name) else None)
      && a.systemId == (if s.Some? then Some(s.value.naturalId) else None)
  {
    if |lines| > 0 {
      AddressOfLatest(lines[..|lines| - 1]);
    }
  }

  /** The address loop. */
  method ExtractAddress(lines: seq<AddressLine>) returns (a: Address)
    ensures a == AddressOf(lines)
  {
    a := NoAddress;
    var k := 0;
    while k < |lines|
      invariant 0 <= k <= |lines|
      invariant a == AddressOf(lines[..k])
    {
      assert lines[..k + 1][..k] == lines[..k];
      var line := lines[k];
      if line.kind == "PLANET" {
        a := a.(planetName := Some(line.name), planetId := Some(line.naturalId));
      } else if line.kind == "SYSTEM" {
        a := a.(systemName := Some(line.name), systemId := Some(line.naturalId));
      }
      k := k + 1;
    }
    assert lines[..k] == lines;
  }

  // ---------------------------------------------------------------------------------
  // load_materials

  /** One `{material: {ticker}, amount}` quantity. */
  datatype MaterialAmount = MaterialAmount(ticker: string, amount: real)

  function TickerOf(q: MaterialAmount): string { q.ticker }

  function AmountOf(q: MaterialAmount): real { q.amount }

  /** `load_materials`: ticker -> amount. */
  function Materials(qs: seq<MaterialAmount>): map<string, real>
  {
    Keyed(qs, TickerOf, AmountOf)
  }

  /** Every ticker of the list is a key, no other, and it maps to the amount of its last
      occurrence. */
  lemma MaterialsMeaning(qs: seq<MaterialAmount>)
    ensures forall t :: t in Materials(qs) <==> exists i :: 0 <= i < |qs| && qs[i].ticker == t
    ensures forall t | t in Materials(qs) :: exists i ::
      0 <= i < |qs| && qs[i].ticker == t && Materials(qs)[t] == qs[i].amount &&
      forall j :: i < j < |qs| ==> qs[j].ticker != t
  {
    KeyedMeaning(qs, TickerOf, AmountOf);
  }

  /** The materials loop. */
  method LoadMaterials(qs: seq<MaterialAmount>) returns (materials: map<string, real>)
    ensures materials == Materials(qs)
  {
    materials := map[];
    var k := 0;
    while k < |qs|
      invariant 0 <= k <= |qs|
      invariant materials == Keyed(qs[..k], TickerOf, AmountOf)
    {
      assert qs[..k + 1][..k] == qs[..k];
      materials := materials[qs[k].ticker := qs[k].amount];
      k := k + 1;
    }
    assert qs[..k] == qs;
  }
}
