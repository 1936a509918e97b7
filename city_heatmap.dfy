/** The city hierarchy view (src/components/dashboard/CityHeatmap.tsx): a
    zone's statuses are those of its societies, a city's those of its zones.
    The city table itself is not part of this model and is a parameter; the
    stability index computed from each list is not modelled either, so the
    outputs carry the lists it is computed from. */
module CityHeatmap {
  import opened Types
  import StatusRecord

  datatype Zone = Zone(id: string, name: string, societyIds: seq<string>)
  datatype City = City(id: string, name: string, zones: seq<Zone>)

  datatype ZoneView = ZoneView(zone: Zone, statuses: seq<TransformerStatus>)
  datatype CityView = CityView(city: City, zones: seq<ZoneView>, statuses: seq<TransformerStatus>)

  /** `societyIds.flatMap(sid => allStatuses[sid] || [])`. */
  function ZoneStatuses(rec: StatusRecord.Record, ids: seq<string>): (ts: seq<TransformerStatus>) {
    if ids == [] then [] else StatusRecord.GetOrEmpty(rec, ids[0]) + ZoneStatuses(rec, ids[1..])
  }

  /** All statuses of a list of zones, zone after zone. */
  function CityStatuses(rec: StatusRecord.Record, zones: seq<Zone>): (ts: seq<TransformerStatus>) {
    if zones == [] then [] else ZoneStatuses(rec, zones[0].societyIds) + CityStatuses(rec, zones[1..])
  }

  function ZoneViewOf(rec: StatusRecord.Record, z: Zone): ZoneView {
    ZoneView(z, ZoneStatuses(rec, z.societyIds))
  }

  function ZoneCountSum(rec: StatusRecord.Record, zones: seq<Zone>): nat {
    if zones == [] then 0 else |ZoneStatuses(rec, zones[0].societyIds)| + ZoneCountSum(rec, zones[1..])
  }

  lemma {:induction false} ZoneStatusesConcat(rec: StatusRecord.Record, a: seq<string>, b: seq<string>)
    ensures ZoneStatuses(rec, a + b) == ZoneStatuses(rec, a) + ZoneStatuses(rec, b)
  {
    if a == [] {
      assert a + b == b;
    } else {
      assert (a + b)[1..] == a[1..] + b;
      ZoneStatusesConcat(rec, a[1..], b);
    }
  }

  lemma {:induction false} CityStatusesAppend(rec: StatusRecord.Record, zones: seq<Zone>, z: Zone)
    ensures CityStatuses(rec, zones + [z]) == CityStatuses(rec, zones) + ZoneStatuses(rec, z.societyIds)
  {
    if zones == [] {
      assert zones + [z] == [z];
    } else {
      assert (zones + [z])[1..] == zones[1..] + [z];
      CityStatusesAppend(rec, zones[1..], z);
    }
  }

  /** A society id without an entry contributes nothing to a zone. */
  lemma UnknownSocietyContributesNothing(rec: StatusRecord.Record, a: seq<string>, sid: string, b: seq<string>)
    requires !StatusRecord.HasKey(rec, sid)
    ensures ZoneStatuses(rec, a + [sid] + b) == ZoneStatuses(rec, a + b)
  {
    ZoneStatusesConcat(rec, a + [sid], b);
    ZoneStatusesConcat(rec, a, [sid]);
    ZoneStatusesConcat(rec, a, b);
    assert ZoneStatuses(rec, [sid]) == [] by {
      assert [sid][1..] == [];
    }
  }

  /** A zone of one society holds exactly that society's statuses, so any
      aggregate over the zone equals the aggregate over the society. */
  lemma SingleSocietyZone<X>(rec: StatusRecord.Record, z: Zone, aggregate: seq<TransformerStatus> -> X)
    requires |z.societyIds| == 1
    ensures ZoneStatuses(rec, z.societyIds) == StatusRecord.GetOrEmpty(rec, z.societyIds[0])
    ensures aggregate(ZoneStatuses(rec, z.societyIds)) == aggregate(StatusRecord.GetOrEmpty(rec, z.societyIds[0]))
  {
    assert z.societyIds[1..] == [];
  }

  /** A city holds as many statuses as its zones together. */
  lemma {:induction false} CityCountIsZoneSum(rec: StatusRecord.Record, zones: seq<Zone>)
    ensures |CityStatuses(rec, zones)| == ZoneCountSum(rec, zones)
  {
    if zones != [] {
      CityCountIsZoneSum(rec, zones[1..]);
    }
  }

  /** One city: the zone views in zone order, and every zone's statuses
      pushed onto the city list as the zone is visited. */
  method BuildCity(rec: StatusRecord.Record, city: City) returns (v: CityView)
    ensures v.city == city
    ensures |v.zones| == |city.zones|
    ensures forall j :: 0 <= j < |city.zones| ==> v.zones[j] == ZoneViewOf(rec, city.zones[j])
    ensures v.statuses == CityStatuses(rec, city.zones)
  {
    var allZoneStatuses: seq<TransformerStatus> := [];
    var zones: seq<ZoneView> := [];
    for j := 0 to |city.zones|
      invariant |zones| == j
      invariant forall k :: 0 <= k < j ==> zones[k] == ZoneViewOf(rec, city.zones[k])
      invariant allZoneStatuses == CityStatuses(rec, city.zones[..j])
    {
      var zone := city.zones[j];
      var zoneStatuses := ZoneStatuses(rec, zone.societyIds);
      CityStatusesAppend(rec, city.zones[..j], zone);
      assert city.zones[..j + 1] == city.zones[..j] + [zone];
      allZoneStatuses := allZoneStatuses + zoneStatuses;
      zones := zones + [ZoneView(zone, zoneStatuses)];
    }
    assert city.zones[..|city.zones|] == city.zones;
    v := CityView(city, zones, allZoneStatuses);
  }

  /** `CITIES.map(...)`: one view per city, in city order. */
  method CityData(rec: StatusRecord.Record, cities: seq<City>) returns (views: seq<CityView>)
    ensures |views| == |cities|
    ensures forall i :: 0 <= i < |cities| ==>
              views[i].city == cities[i] && |views[i].zones| == |cities[i].zones| &&
              views[i].statuses == CityStatuses(rec, cities[i].zones) &&
              forall j :: 0 <= j < |cities[i].zones| ==> views[i].zones[j] == ZoneViewOf(rec, cities[i].zones[j])
  {
    views := [];
    for i := 0 to |cities|
      invariant |views| == i
      invariant forall k :: 0 <= k < i ==>
                  views[k].city == cities[k] && |views[k].zones| == |cities[k].zones| &&
                  views[k].statuses == CityStatuses(rec, cities[k].zones) &&
                  forall j :: 0 <= j < |cities[k].zones| ==> views[k].zones[j] == ZoneViewOf(rec, cities[k].zones[j])
    {
      var v := BuildCity(rec, cities[i]);
      views := views + [v];
    }
  }
}
