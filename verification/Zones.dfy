/**
 The ways to a route's zone: the built-in city sets (`backend/app/modules/carriers/zone_mapper.py`), the
 region catalogue that comes before them (`_resolve_azimuth_route`), and a carrier's zone cities in the
 database (`_zone_from_carrier_cities`), which the seed script writes from the sets.  City names come
 stripped and in lower case; the sets are any two sets.
 */
module Zones {
  import opened Prelude

  /** A `carrier_zone_cities` row. */
  datatype ZoneCity = ZoneCity(city: string, zone: int)

  datatype Cities = Cities(regional: set<string>, district: set<string>) {
    /** `get_zone`. */
    function GetZone(from: string, to: string): int {
      if from == to then 0
      else if from in regional && to in regional then 1
      else if Known(from) && Known(to) then 2
      else 3
    }

    predicate Known(city: string) {
      city in regional || city in district
    }

    /** `_resolve_azimuth_route`: the region rows found for the two ends decide if both are there. */
    function BuiltInZone(fromRegion: Option<int>, toRegion: Option<int>, from: string, to: string): int {
      if fromRegion.Some? && toRegion.Some? then Max(fromRegion.value, toRegion.value) else GetZone(from, to)
    }

    /** A city in both sets is seeded once, as regional. */
    function SeededZone(city: string): Option<int> {
      if city in regional then Some(1) else if city in district then Some(2) else None
    }
  }

  function CityMap(rows: seq<ZoneCity>): map<string, int> {
    if rows == [] then map[] else CityMap(rows[..|rows| - 1])[rows[|rows| - 1].city := rows[|rows| - 1].zone]
  }

  /** `_zone_from_carrier_cities`; None if the destination is not listed. */
  function RouteZone(rows: seq<ZoneCity>, from: string, to: string): Option<int> {
    var zones := CityMap(rows);
    if from == to then Some(0)
    else if to !in zones then None
    else if from in zones then Some(Max(zones[from], zones[to]))
    else Some(zones[to])
  }

  /** The zone a carrier's quotes are made for: its own, else the fallback. */
  function EffectiveZone(rows: seq<ZoneCity>, fallback: int, from: string, to: string): int {
    var own := RouteZone(rows, from, to);
    if own.Some? then own.value else fallback
  }

  /** The rows list exactly these cities with these zones. */
  ghost predicate Lists(rows: seq<ZoneCity>, zoneOf: string -> Option<int>) {
    forall city :: zoneOf(city) == if city in CityMap(rows) then Some(CityMap(rows)[city]) else None
  }

  lemma MapOfMore(rows: seq<ZoneCity>, row: ZoneCity)
    ensures CityMap(rows + [row]) == CityMap(rows)[row.city := row.zone]
  {
  }

  /** `was` with every city of `added` that it lacks put in that zone. */
  ghost predicate Extends(zones: map<string, int>, was: map<string, int>, added: set<string>, zone: int) {
    && (forall city :: city in zones <==> city in was || city in added)
    && forall city :: city in zones ==> zones[city] == if city in was then was[city] else zone
  }

  lemma ExtendByOne(zones: map<string, int>, was: map<string, int>, added: set<string>, zone: int, city: string)
    requires Extends(zones, was, added, zone)
    ensures Extends(if city in zones then zones else zones[city := zone], was, added + {city}, zone)
  {
  }

  method AddCities(rows: seq<ZoneCity>, seen: set<string>, cities: set<string>, zone: int)
    returns (all: seq<ZoneCity>, listed: set<string>)
    requires forall city :: city in seen <==> city in CityMap(rows)
    ensures forall city :: city in listed <==> city in CityMap(all)
    ensures Extends(CityMap(all), CityMap(rows), cities, zone)
  {
    hide CityMap;
    all, listed := rows, seen;
    var left := cities;
    ghost var added: set<string> := {};
    assert Extends(CityMap(all), CityMap(rows), added, zone);
    hide Extends;
    while left != {}
      invariant added + left == cities
      invariant forall city :: city in listed <==> city in CityMap(all)
      invariant Extends(CityMap(all), CityMap(rows), added, zone)
      decreases |left|
    {
      var city :| city in left;
      ExtendByOne(CityMap(all), CityMap(rows), added, zone, city);
      left, added := left - {city}, added + {city};
      if city !in listed {
        MapOfMore(all, ZoneCity(city, zone));
        all, listed := all + [ZoneCity(city, zone)], listed + {city};
      }
    }
    assert added == cities;
  }

  /** The city part of the seed script. */
  method SeedCities(cities: Cities) returns (rows: seq<ZoneCity>)
    ensures Lists(rows, cities.SeededZone)
  {
    var seen: set<string>;
    rows, seen := AddCities([], {}, cities.regional, 1);
    rows, seen := AddCities(rows, seen, cities.district, 2);
  }

  /** The four zones: one city; regional centres; listed cities; anywhere else.  The way back is as far. */
  lemma FourZones(cities: Cities, from: string, to: string)
    ensures var zone := cities.GetZone(from, to);
            && zone == cities.GetZone(to, from) && 0 <= zone <= 3
            && (zone == 0 <==> from == to)
            && (zone == 1 ==> from in cities.regional && to in cities.regional)
            && (from != to && from in cities.regional && to in cities.regional ==> zone == 1)
            && (zone == 3 <==>
                  from != to && ((from !in cities.regional && from !in cities.district)
                                 || (to !in cities.regional && to !in cities.district)))
    ensures cities.BuiltInZone(Some(1), Some(3), from, to) == cities.BuiltInZone(Some(3), Some(1), from, to) == 3
    ensures forall r: Option<int> :: cities.BuiltInZone(None, r, from, to) == cities.GetZone(from, to)
                                     == cities.BuiltInZone(r, None, from, to)
  {
  }

  /** What seeded cities say of a route: nothing of an unlisted receiver, and the receiver's zone of an unlisted sender. */
  lemma SeededRoute(rows: seq<ZoneCity>, cities: Cities, from: string, to: string)
    requires Lists(rows, cities.SeededZone)
    ensures RouteZone(rows, from, to) ==
            if from == to || (cities.Known(from) && cities.Known(to)) then Some(cities.GetZone(from, to))
            else cities.SeededZone(to)
  {
    assert cities.SeededZone(from) == if from in CityMap(rows) then Some(CityMap(rows)[from]) else None;
    assert cities.SeededZone(to) == if to in CityMap(rows) then Some(CityMap(rows)[to]) else None;
  }

  /**
   On seeded cities the database zone is the city sets' exactly when the route stays in one city, or the
   sender's city is listed, or the receiver's is not.  The zone in use before, which may come from the region
   catalogue, is kept exactly when the receiver is unlisted, or it is the city sets' zone (the receiver's own
   if only the receiver is listed).
   */
  lemma SeededZonesAgree(
    rows: seq<ZoneCity>, cities: Cities, fromRegion: Option<int>, toRegion: Option<int>, from: string, to: string)
    requires Lists(rows, cities.SeededZone)
    ensures EffectiveZone(rows, cities.GetZone(from, to), from, to) == cities.GetZone(from, to)
            <==> from == to || cities.Known(from) || !cities.Known(to)
    ensures EffectiveZone(rows, cities.GetZone(from, to), from, to) <= cities.GetZone(from, to)
    ensures var zone := cities.BuiltInZone(fromRegion, toRegion, from, to);
            EffectiveZone(rows, zone, from, to) == zone
            <==> if from == to || (cities.Known(from) && cities.Known(to)) then zone == cities.GetZone(from, to)
                 else cities.Known(to) ==> Some(zone) == cities.SeededZone(to)
  {
    SeededRoute(rows, cities, from, to);
  }
}
