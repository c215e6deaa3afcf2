/** extract-site-data.py: the sites file. Each site becomes a record holding its address,
    one building per platform and its area accounting, and the records are keyed by the
    site's planet name. */
module SiteExtract {
  import opened Wrappers
  import opened StateRecords
  import opened ModelGoals

  /** One platform of a site: its module's ticker, type and name, its area, reclaimable
      materials, book value and condition. */
  datatype Platform = Platform(
    reactorTicker: string, kind: string, reactorName: string, area: real,
    materials: seq<MaterialAmount>, bookValue: Option<real>, condition: real)

  /** One site of the state file: its key, address lines, platforms and total area. */
  datatype SiteData = SiteData(id: string, lines: seq<AddressLine>, platforms: seq<Platform>, area: real)

  /** The record main writes for a site. */
  datatype SiteRecord = SiteRecord(id: string, address: Address, buildings: seq<SiteBuilding>, area: Area)

  // ---------------------------------------------------------------------------------
  // create_building and the platform loop

  /** `create_building`: the building of a platform. */
  function CreateBuilding(p: Platform): SiteBuilding
  {
    SiteBuilding(p.reactorTicker, p.kind, p.reactorName, p.area, p.condition, Materials(p.materials), p.bookValue)
  }

  /** The buildings list of a site: one per platform, in platform order. */
  function SiteBuildings(platforms: seq<Platform>): (r: seq<SiteBuilding>)
    ensures |r| == |platforms|
  {
    seq(|platforms|, i requires 0 <= i < |platforms| => CreateBuilding(platforms[i]))
  }

  /** The summed area of the platforms. */
  function PlatformArea(platforms: seq<Platform>): real
  {
    if |platforms| == 0 then 0.0 else PlatformArea(platforms[..|platforms| - 1]) + platforms[|platforms| - 1].area
  }

  /** The record of a site. */
  function SiteRecordOf(site: SiteData): SiteRecord
  {
    var buildings := SiteBuildings(site.platforms);
    SiteRecord(site.id, AddressOf(site.lines), buildings, AreaOf(site.area, buildings))
  }

  /** The consumed area of the buildings is the summed area of the platforms. */
  lemma {:induction false} ConsumedIsPlatformArea(platforms: seq<Platform>)
    ensures Consumed(SiteBuildings(platforms)) == PlatformArea(platforms)
  {
    if |platforms| > 0 {
      var n := |platforms| - 1;
      ConsumedIsPlatformArea(platforms[..n]);
      assert SiteBuildings(platforms)[..n] == SiteBuildings(platforms[..n]);
    }
  }

  /** A site's record: one building per platform in order, each carrying its platform's
      module, area, condition and book value; the consumed area is the platforms' summed
      area and the available area is the rest of the site's area. */
  lemma SiteRecordMeaning(site: SiteData)
    ensures var r := SiteRecordOf(site);
      && r.id == site.id
      && |r.buildings| == |site.platforms|
      && (forall i :: 0 <= i < |r.buildings| ==>
        var b := r.buildings[i]; var p := site.platforms[i];
        b.ticker == p.reactorTicker && b.kind == p.kind && b.name == p.reactorName &&
        b.area == p.area && b.condition == p.condition && b.bookValue == p.bookValue &&
        b.materials == Materials(p.materials))
      && r.area.total == site.area
      && r.area.consumed == PlatformArea(site.platforms)
      && r.area.available == site.area - PlatformArea(site.platforms)
  {
    ConsumedIsPlatformArea(site.platforms);
  }

  /** The address part of a site's record comes from its last PLANET and SYSTEM lines. */
  lemma SiteAddress(site: SiteData)
    ensures var a := SiteRecordOf(site).address; var p := Latest(site.lines, "PLANET");
      && a.planetName == (if p.Some? then Some(p.value.name) else None)
      && a.planetId == (if p.Some? then Some(p.value.naturalId) else None)
  {
    AddressOfLatest(site.lines);
  }

  /** The body of the site loop, for one site. */
  method BuildSite(site: SiteData) returns (r: SiteRecord)
    ensures r == SiteRecordOf(site)
  {
    var address := ExtractAddress(site.lines);
    var buildings: seq<SiteBuilding> := [];
    var consumed := 0.0;
    var k := 0;
    while k < |site.platforms|
      invariant 0 <= k <= |site.platforms|
      invariant buildings == SiteBuildings(site.platforms[..k])
      invariant consumed == Consumed(buildings)
    {
      var p := site.platforms[k];
      var materials := LoadMaterials(p.materials);
      var building := SiteBuilding(p.reactorTicker, p.kind, p.reactorName, p.area, p.condition, materials, p.bookValue);
      consumed := consumed + building.area;
      assert (buildings + [building])[..k] == buildings;
      buildings := buildings + [building];
      assert buildings == SiteBuildings(site.platforms[..k + 1]);
      k := k + 1;
    }
    assert site.platforms[..k] == site.platforms;
    return SiteRecord(site.id, address, buildings, Area(site.area - consumed, consumed, site.area));
  }

  // ---------------------------------------------------------------------------------
  // Keying by planet name

  /** Whether the site's address has a planet name. */
  predicate HasPlanet(site: SiteData)
  {
    AddressOf(site.lines).planetName.Some?
  }

  /** The key main files the site under (the empty string when it has none). */
  function PlanetOf(site: SiteData): string
  {
    var name := AddressOf(site.lines).planetName;
    if name.Some? then name.value else ""
  }

  /** The site loop of main: a site without a planet name raises a KeyError, which ends
      the script without output; otherwise a later site on a planet overwrites an earlier one. */
  function Sites(data: seq<SiteData>): Result<map<string, SiteRecord>>
  {
    if |data| == 0 then Ok(map[])
    else
      var sites :- Sites(data[..|data| - 1]);
      var site := data[|data| - 1];
      if HasPlanet(site) then Ok(sites[PlanetOf(site) := SiteRecordOf(site)])
      else Err(KeyNotFound("planet-name"))
  }

  /** A site has a planet name exactly when one of its address lines is a PLANET line. */
  lemma HasPlanetMeaning(site: SiteData)
    ensures HasPlanet(site) <==> exists i :: 0 <= i < |site.lines| && site.lines[i].kind == "PLANET"
  {
    AddressOfLatest(site.lines);
    LatestMeaning(site.lines, "PLANET");
  }

  /** The loop succeeds exactly when every site has a planet name, it then keys every
      record by its planet name, and it fails only with the planet-name KeyError. */
  lemma {:induction false} SitesMeaning(data: seq<SiteData>)
    ensures Sites(data).Ok? <==> forall i :: 0 <= i < |data| ==> HasPlanet(data[i])
    ensures Sites(data).Ok? ==> Sites(data).value == Keyed(data, PlanetOf, SiteRecordOf)
    ensures Sites(data).Err? ==> Sites(data).error == KeyNotFound("planet-name")
  {
    if |data| > 0 {
      var n := |data| - 1;
      SitesMeaning(data[..n]);
      assert forall i :: 0 <= i < n ==> data[..n][i] == data[i];
    }
  }

  /** When every site has a planet name, the file holds exactly the planet names of the
      sites, and under each the record of the last site on that planet. */
  lemma SitesKeys(data: seq<SiteData>)
    requires forall i :: 0 <= i < |data| ==> HasPlanet(data[i])
    ensures Sites(data).Ok?
    ensures forall t :: t in Sites(data).value <==> exists i :: 0 <= i < |data| && PlanetOf(data[i]) == t
  {
    SitesMeaning(data);
    KeyedMeaning(data, PlanetOf, SiteRecordOf);
  }

  /** A site that no later site shares a planet with is the one kept for its planet. */
  lemma SitesLast(data: seq<SiteData>, i: nat)
    requires forall i :: 0 <= i < |data| ==> HasPlanet(data[i])
    requires i < |data| && forall j :: i < j < |data| ==> PlanetOf(data[j]) != PlanetOf(data[i])
    ensures Sites(data).Ok? && PlanetOf(data[i]) in Sites(data).value
    ensures Sites(data).value[PlanetOf(data[i])] == SiteRecordOf(data[i])
  {
    SitesMeaning(data);
    KeyedLast(data, PlanetOf, SiteRecordOf, i);
  }

  /** The site loop. */
  method ExtractSites(data: seq<SiteData>) returns (r: Result<map<string, SiteRecord>>)
    ensures r == Sites(data)
  {
    var sites: map<string, SiteRecord> := map[];
    var k := 0;
    while k < |data|
      invariant 0 <= k <= |data|
      invariant Sites(data[..k]) == Ok(sites)
    {
      assert data[..k + 1][..k] == data[..k];
      var record := BuildSite(data[k]);
      if record.address.planetName.None? {
        SitesMeaning(data);
        assert !HasPlanet(data[k]);
        return Err(KeyNotFound("planet-name"));
      }
      sites := sites[record.address.planetName.value := record];
      k := k + 1;
    }
    assert data[..k] == data;
    return Ok(sites);
  }
}
