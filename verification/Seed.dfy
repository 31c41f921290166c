/**
 The rate rows that `backend/scripts/seed.py` compiles the built-in table into, and the refinement: the
 generic engine on those rows quotes what the built-in calculation quotes, for every weight from zero up.
 */
module Seed {
  import opened Prelude
  import opened Tariff
  import opened RateEngine
  import opened Zones

  // ---- the rows ----

  const BRACKETS: nat := LAST + 2

  function BracketStart(k: nat): real
    requires k < BRACKETS
  {
    if k == 0 then 0.0 else if k <= LAST then STANDARD_RATES[k - 1].upTo else TABLE_END
  }

  function BracketEnd(k: nat): Option<real>
    requires k < BRACKETS
  {
    if k <= LAST then Some(STANDARD_RATES[k].upTo) else None
  }

  function TableRate(zone: int, c: Column, eta: (int, int), k: nat): Rate
    requires k < BRACKETS
  {
    if k <= LAST then
      Rate(zone, BracketStart(k), BracketEnd(k), STANDARD_RATES[k].Price(c) as real, None, None,
           "KZT", Some(eta.0), Some(eta.1), true)
    else
      Rate(zone, BracketStart(k), None, STANDARD_RATES[LAST].Price(c) as real,
           Some(EXTRA_PER_HALF_KG.Price(c) as real), Some(0.5), "KZT", Some(eta.0), Some(eta.1), true)
  }

  function Block(zone: int, c: Column, eta: (int, int)): (rates: seq<Rate>)
    ensures |rates| == BRACKETS
    ensures forall k :: 0 <= k < BRACKETS ==> rates[k] == TableRate(zone, c, eta, k)
  {
    seq(BRACKETS, k requires 0 <= k < BRACKETS => TableRate(zone, c, eta, k))
  }

  /** The blocks of the standard (or express) service for zones `0..zones`. */
  function TableRates(express: bool, zones: nat): seq<Rate>
    requires zones <= 4
  {
    if zones == 0 then [] else TableRates(express, zones - 1) + ZoneBlock(express, zones - 1)
  }

  function ZoneBlock(express: bool, zone: nat): seq<Rate>
    requires zone <= 3
  {
    if express then Block(zone, ExpressColumn(zone), EXPRESS_ETA[zone])
    else Block(zone, StandardColumn(zone), STANDARD_ETA[zone])
  }

  function EconomyBlock(zone: nat): seq<Rate>
    requires 1 <= zone <= 3
  {
    var base, extra, eta := ECONOMY_BASE[zone - 1] as real, ECONOMY_EXTRA_PER_KG[zone - 1] as real, ECONOMY_ETA[zone - 1];
    [Rate(zone, 0.0, Some(TABLE_END), base, None, None, "KZT", Some(eta.0), Some(eta.1), true),
     Rate(zone, TABLE_END, None, base, Some(extra), Some(1.0), "KZT", Some(eta.0), Some(eta.1), true)]
  }

  function EconomyRates(zones: nat): seq<Rate>
    requires zones <= 3
  {
    if zones == 0 then [] else EconomyRates(zones - 1) + EconomyBlock(zones)
  }

  const SEEDED: seq<Service> := [
    Service("standard", true, TableRates(false, 4)),
    Service("express", true, TableRates(true, 4)),
    Service("economy", true, EconomyRates(3))]

  // ---- the compiler's loops ----

  method StandardRateRows() returns (rows: seq<(real, Option<real>)>)
    ensures |rows| == BRACKETS
    ensures forall k :: 0 <= k < BRACKETS ==> rows[k] == (BracketStart(k), BracketEnd(k))
  {
    rows := [];
    var prev := 0.0;
    var i := 0;
    while i < |STANDARD_RATES|
      invariant i == |rows| <= |STANDARD_RATES|
      invariant prev == if i == 0 then 0.0 else STANDARD_RATES[i - 1].upTo
      invariant forall k :: 0 <= k < i ==> rows[k] == (BracketStart(k), BracketEnd(k))
    {
      rows := rows + [(prev, Some(STANDARD_RATES[i].upTo))];
      prev := STANDARD_RATES[i].upTo;
      i := i + 1;
    }
    rows := rows + [(TABLE_END, None)];
  }

  method SeedZone(brackets: seq<(real, Option<real>)>, zone: int, c: Column, eta: (int, int)) returns (rates: seq<Rate>)
    requires |brackets| == BRACKETS
    requires forall k :: 0 <= k < BRACKETS ==> brackets[k] == (BracketStart(k), BracketEnd(k))
    ensures rates == Block(zone, c, eta)
  {
    rates := [];
    var i := 0;
    while i < |brackets|
      invariant i == |rates| <= |brackets|
      invariant forall k :: 0 <= k < i ==> rates[k] == TableRate(zone, c, eta, k)
    {
      var (start, end) := brackets[i];
      var row := Rate(zone, start, end, STANDARD_RATES[LAST].Price(c) as real,
                      Some(EXTRA_PER_HALF_KG.Price(c) as real), Some(0.5), "KZT", Some(eta.0), Some(eta.1), true);
      if end.Some? {
        row := row.(base := STANDARD_RATES[i].Price(c) as real, perUnit := None, unit := None);
      }
      rates := rates + [row];
      i := i + 1;
    }
  }

  method SeedRates() returns (standard: seq<Rate>, express: seq<Rate>, economy: seq<Rate>)
    ensures [Service("standard", true, standard), Service("express", true, express), Service("economy", true, economy)]
         == SEEDED
  {
    var brackets := StandardRateRows();
    standard, express, economy := [], [], [];
    for zone := 0 to 4
      invariant standard == TableRates(false, zone)
    {
      var block := SeedZone(brackets, zone, StandardColumn(zone), STANDARD_ETA[zone]);
      standard := standard + block;
    }
    for zone := 0 to 4
      invariant express == TableRates(true, zone)
    {
      var block := SeedZone(brackets, zone, ExpressColumn(zone), EXPRESS_ETA[zone]);
      express := express + block;
    }
    for zone := 1 to 4
      invariant economy == EconomyRates(zone - 1)
    {
      var base, extra := ECONOMY_BASE[zone - 1] as real, ECONOMY_EXTRA_PER_KG[zone - 1] as real;
      var eta := ECONOMY_ETA[zone - 1];
      var light := Rate(zone, 0.0, Some(TABLE_END), base, None, None, "KZT", Some(eta.0), Some(eta.1), true);
      var heavy := Rate(zone, TABLE_END, None, base, Some(extra), Some(1.0), "KZT", Some(eta.0), Some(eta.1), true);
      economy := economy + [light, heavy];
    }
  }

  // ---- picking a zone's block out of a service ----

  lemma {:induction false} ZoneRatesConcat(a: seq<Rate>, b: seq<Rate>, zone: int)
    ensures ZoneRates(a + b, zone) == ZoneRates(a, zone) + ZoneRates(b, zone)
  {
    if b == [] {
      assert a + b == a;
    } else {
      var n := |b| - 1;
      ZoneRatesConcat(a, b[..n], zone);
      assert (a + b)[..|a + b| - 1] == a + b[..n];
    }
  }

  lemma {:induction false} ZoneRatesOfBlock(block: seq<Rate>, own: int, zone: int)
    requires forall i :: 0 <= i < |block| ==> block[i].active && block[i].zone == own
    ensures ZoneRates(block, zone) == if zone == own then block else []
  {
    if block != [] {
      var n := |block| - 1;
      ZoneRatesOfBlock(block[..n], own, zone);
      assert block == block[..n] + [block[n]];
    }
  }

  lemma ZoneBlockOwn(express: bool, zone: nat)
    requires zone <= 3
    ensures forall i :: 0 <= i < |ZoneBlock(express, zone)| ==>
              ZoneBlock(express, zone)[i].active && ZoneBlock(express, zone)[i].zone == zone
  {
  }

  lemma {:induction false} ZoneOfTable(express: bool, zones: nat, zone: int)
    requires zones <= 4
    ensures ZoneRates(TableRates(express, zones), zone) == if 0 <= zone < zones then ZoneBlock(express, zone) else []
  {
    hide ZoneBlock;
    if zones > 0 {
      ZoneOfTable(express, zones - 1, zone);
      ZoneBlockOwn(express, zones - 1);
      ZoneRatesConcat(TableRates(express, zones - 1), ZoneBlock(express, zones - 1), zone);
      ZoneRatesOfBlock(ZoneBlock(express, zones - 1), zones - 1, zone);
    }
  }

  lemma EconomyBlockOwn(zone: nat)
    requires 1 <= zone <= 3
    ensures forall i :: 0 <= i < |EconomyBlock(zone)| ==> EconomyBlock(zone)[i].active && EconomyBlock(zone)[i].zone == zone
  {
  }

  lemma {:induction false} ZoneOfEconomy(zones: nat, zone: int)
    requires zones <= 3
    ensures ZoneRates(EconomyRates(zones), zone) == if 1 <= zone <= zones then EconomyBlock(zone) else []
  {
    hide EconomyBlock;
    if zones > 0 {
      hide ZoneRates;
      var front, block := EconomyRates(zones - 1), EconomyBlock(zones);
      assert EconomyRates(zones) == front + block;
      hide EconomyRates;
      EconomyBlockOwn(zones);
      ZoneOfEconomy(zones - 1, zone);
      ZoneRatesConcat(front, block, zone);
      ZoneRatesOfBlock(block, zones, zone);
      var before := ZoneRates(front, zone);
      assert before + [] == before && [] + block == block;
    }
  }

  lemma {:induction false} SortedStays(rates: seq<Rate>)
    requires forall i, j :: 0 <= i < j < |rates| ==> rates[i].start <= rates[j].start
    ensures SortRates(rates) == rates
  {
    if rates != [] {
      var n := |rates| - 1;
      SortedStays(rates[..n]);
      assert rates == rates[..n] + [rates[n]];
    }
  }

  lemma BlockIsContiguous(zone: int, c: Column, eta: (int, int))
    ensures Contiguous(Block(zone, c, eta))
  {
    var block := Block(zone, c, eta);
    forall i | 0 <= i < |block| - 1
      ensures block[i].end == Some(block[i + 1].start) && block[i].start < block[i + 1].start
    {
      if 0 < i <= LAST {
        RatesAscend(i - 1);
      }
    }
  }

  lemma BlockSorted(zone: int, c: Column, eta: (int, int))
    ensures SortRates(Block(zone, c, eta)) == Block(zone, c, eta)
  {
    var block := Block(zone, c, eta);
    BlockIsContiguous(zone, c, eta);
    forall i, j | 0 <= i < j < |block|
      ensures block[i].start <= block[j].start
    {
      StartsAscend(block, i, j);
    }
    SortedStays(block);
  }

  // ---- one block against the table ----

  lemma WholeTimes(a: int, b: int, n: int)
    ensures a as real + n as real * b as real == (a + n * b) as real
  {
  }

  lemma TruncateWhole(n: int)
    ensures Truncate(n as real) == n
  {
  }

  /** The bracket the engine picks, against the row the built-in lookup picks. */
  lemma BlockPick(zone: int, c: Column, eta: (int, int), kg: real)
    ensures Applicable(Block(zone, c, eta), kg)
         == if kg < 0.0 || kg > TABLE_END then LAST + 1 else FirstFit(kg, 0)
  {
    var block := Block(zone, c, eta);
    BlockIsContiguous(zone, c, eta);
    if kg < 0.0 {
      forall k | 0 <= k < |block|
        ensures !Covers(block[k], kg)
      {
        StartsAscend(block, 0, k);
      }
    } else {
      var k := if kg > TABLE_END then LAST + 1 else FirstFit(kg, 0);
      assert k == LAST + 1 || k <= LAST;
      FirstMatchIsTheBracket(block, kg, k);
    }
  }

  lemma OpenRowPrice(zone: int, c: Column, eta: (int, int), kg: real)
    requires kg > TABLE_END
    ensures RatePrice(TableRate(zone, c, eta, LAST + 1), kg) == TablePrice(kg, c)
  {
  }

  lemma ClosedRowPrice(zone: int, c: Column, eta: (int, int), kg: real, k: nat)
    requires k < BRACKETS && (k <= LAST || kg <= TABLE_END)
    ensures RatePrice(TableRate(zone, c, eta, k), kg) == STANDARD_RATES[if k <= LAST then k else LAST].Price(c)
  {
  }

  /** The block prices every weight from zero up as the table does, and a negative one as ten kilograms. */
  lemma BlockPrice(zone: int, c: Column, eta: (int, int), kg: real)
    ensures var block := Block(zone, c, eta);
            RatePrice(block[Applicable(block, kg)], kg)
            == if kg < 0.0 then STANDARD_RATES[LAST].Price(c) else TablePrice(kg, c)
  {
    hide RatePrice;
    BlockPick(zone, c, eta, kg);
    if kg > TABLE_END {
      OpenRowPrice(zone, c, eta, kg);
    } else if kg < 0.0 {
      ClosedRowPrice(zone, c, eta, kg, LAST + 1);
    } else {
      ClosedRowPrice(zone, c, eta, kg, FirstFit(kg, 0));
    }
  }

  lemma EconomyBlockPrice(zone: nat, kg: real)
    requires 1 <= zone <= 3
    ensures var block := EconomyBlock(zone);
            SortRates(block) == block
            && RatePrice(block[Applicable(block, kg)], kg) == EconomyPrice(kg, zone)
  {
    var block := EconomyBlock(zone);
    SortedStays(block);
    var base, extra := ECONOMY_BASE[zone - 1], ECONOMY_EXTRA_PER_KG[zone - 1];
    TruncateWhole(base);
    if kg > TABLE_END {
      var extraKg := Ceil(kg - TABLE_END);
      WholeTimes(base, extra, extraKg);
      TruncateWhole(base + extraKg * extra);
      assert !Covers(block[0], kg) && Covers(block[1], kg);
    }
  }

  // ---- the refinement ----

  function SeededPrice(c: Column, kg: real): int {
    if kg < 0.0 then STANDARD_RATES[LAST].Price(c) else TablePrice(kg, c)
  }

  lemma QuoteOfBlock(s: Service, block: seq<Rate>, eta: (int, int), zone: int, kg: real, price: int)
    requires s.active && ZoneRates(s.rates, zone) == block != [] && SortRates(block) == block
    requires NoZeroUnit(block)
    requires forall k :: 0 <= k < |block| ==>
               block[k].etaMin == Some(eta.0) && block[k].etaMax == Some(eta.1) && block[k].currency == "KZT"
    requires RatePrice(block[Applicable(block, kg)], kg) == price
    ensures UsableService(s, zone)
    ensures ServiceQuote("azimuth", s, zone, kg)
         == Some(Quote("azimuth", s.code, price, "KZT", eta.0, eta.1, zone, kg))
  {
  }

  lemma BlockLabels(zone: int, c: Column, eta: (int, int))
    ensures var block := Block(zone, c, eta);
            && block != [] && NoZeroUnit(block)
            && forall k :: 0 <= k < |block| ==>
                 block[k].etaMin == Some(eta.0) && block[k].etaMax == Some(eta.1) && block[k].currency == "KZT"
  {
  }

  lemma TableServiceQuote(s: Service, express: bool, zone: int, kg: real)
    requires IsZone(zone) && s == Service(if express then "express" else "standard", true, TableRates(express, 4))
    ensures var expected := if express then ExpressQuote(zone, kg) else StandardQuote(zone, kg);
            var c := if express then ExpressColumn(zone) else StandardColumn(zone);
            && UsableService(s, zone)
            && ServiceQuote("azimuth", s, zone, kg) == Some(expected.(price := SeededPrice(c, kg)))
  {
    hide RatePrice;
    hide TablePrice;
    hide TableRates;
    hide TableRate;
    hide SeededPrice;
    var c := if express then ExpressColumn(zone) else StandardColumn(zone);
    var eta := if express then EXPRESS_ETA[zone] else STANDARD_ETA[zone];
    ZoneOfTable(express, 4, zone);
    BlockSorted(zone, c, eta);
    BlockLabels(zone, c, eta);
    SeededBlockPrice(zone, c, eta, kg);
    QuoteOfBlock(s, Block(zone, c, eta), eta, zone, kg, SeededPrice(c, kg));
  }

  lemma SeededBlockPrice(zone: int, c: Column, eta: (int, int), kg: real)
    ensures RatePrice(Block(zone, c, eta)[Applicable(Block(zone, c, eta), kg)], kg) == SeededPrice(c, kg)
  {
    hide RatePrice;
    hide TablePrice;
    BlockPrice(zone, c, eta, kg);
  }

  lemma EconomyServiceQuote(s: Service, zone: int, kg: real)
    requires IsZone(zone) && s == Service("economy", true, EconomyRates(3))
    ensures UsableService(s, zone)
    ensures ServiceQuote("azimuth", s, zone, kg) == if zone >= 1 then Some(EconomyQuote(zone, kg)) else None
  {
    hide RatePrice;
    hide EconomyPrice;
    hide EconomyRates;
    ZoneOfEconomy(3, zone);
    if zone >= 1 {
      EconomyBlockPrice(zone, kg);
      QuoteOfBlock(s, EconomyBlock(zone), ECONOMY_ETA[zone - 1], zone, kg, EconomyPrice(kg, zone));
    }
  }

  lemma ThreeServices(a: Service, b: Service, c: Service, zone: int, kg: real)
    requires UsableService(a, zone) && UsableService(b, zone) && UsableService(c, zone)
    requires ServiceQuote("azimuth", a, zone, kg).Some? && ServiceQuote("azimuth", b, zone, kg).Some?
    ensures Usable([a, b, c], zone)
    ensures CarrierQuotes("azimuth", [a, b, c], zone, kg)
         == [ServiceQuote("azimuth", a, zone, kg).value, ServiceQuote("azimuth", b, zone, kg).value]
            + if ServiceQuote("azimuth", c, zone, kg).Some? then [ServiceQuote("azimuth", c, zone, kg).value] else []
  {
    hide ServiceQuote;
    hide UsableService;
    var one, two, three := [a], [a, b], [a, b, c];
    assert three[..2] == two && two[..1] == one && one[..0] == [];
    assert Usable(one, zone) && Usable(two, zone) && Usable(three, zone);
    assert CarrierQuotes("azimuth", one, zone, kg) == [ServiceQuote("azimuth", a, zone, kg).value];
    assert CarrierQuotes("azimuth", two, zone, kg)
        == CarrierQuotes("azimuth", one, zone, kg) + [ServiceQuote("azimuth", b, zone, kg).value];
  }

  lemma SeededQuotes(zone: int, kg: real)
    requires IsZone(zone)
    ensures Usable(SEEDED, zone)
    ensures CarrierQuotes("azimuth", SEEDED, zone, kg)
         == [StandardQuote(zone, kg).(price := SeededPrice(StandardColumn(zone), kg)),
             ExpressQuote(zone, kg).(price := SeededPrice(ExpressColumn(zone), kg))]
            + if zone >= 1 then [EconomyQuote(zone, kg)] else []
  {
    hide ServiceQuote;
    hide UsableService;
    hide TableRates;
    hide EconomyRates;
    hide SeededPrice;
    hide StandardQuote;
    hide ExpressQuote;
    hide EconomyQuote;
    TableServiceQuote(SEEDED[0], false, zone, kg);
    TableServiceQuote(SEEDED[1], true, zone, kg);
    EconomyServiceQuote(SEEDED[2], zone, kg);
    ThreeServices(SEEDED[0], SEEDED[1], SEEDED[2], zone, kg);
  }

  lemma SeededAgreesFromZero(zone: int, kg: real)
    requires IsZone(zone) && kg >= 0.0
    ensures Usable(SEEDED, zone)
    ensures CarrierQuotes("azimuth", SEEDED, zone, kg) == HardcodedList(zone, kg)
  {
    hide TablePrice;
    hide EconomyPrice;
    SeededQuotes(zone, kg);
  }

  lemma SeededDiffersBelowZero(zone: int, kg: real)
    requires IsZone(zone) && kg < 0.0
    ensures Usable(SEEDED, zone)
    ensures StandardQuote(zone, kg) in HardcodedList(zone, kg)
    ensures StandardQuote(zone, kg) !in CarrierQuotes("azimuth", SEEDED, zone, kg)
  {
    hide TablePrice;
    hide EconomyPrice;
    hide SeededPrice;
    hide CarrierQuotes;
    hide Usable;
    hide TableRates;
    hide EconomyRates;
    SeededQuotes(zone, kg);
    NegativeWeightPrice(zone, kg);
  }

  /**
   Seeding is a refinement of the built-in calculation exactly for weights from zero up: then the sorted
   quotes agree in tariff, price, ETA and order; a negative weight falls off every bracket and is priced
   as ten kilograms.
   */
  lemma SeededEngineAgrees(zone: int, kg: real)
    requires IsZone(zone)
    ensures Usable(SEEDED, zone)
    ensures HardcodedQuotes(zone, kg) == Some(SortQuotes(CarrierQuotes("azimuth", SEEDED, zone, kg))) <==> kg >= 0.0
  {
    hide SortQuotes;
    hide CarrierQuotes;
    hide Usable;
    hide StandardQuote;
    hide ExpressQuote;
    hide EconomyQuote;
    if kg >= 0.0 {
      SeededAgreesFromZero(zone, kg);
    } else {
      SeededDiffersBelowZero(zone, kg);
      SortQuotesMembers(HardcodedList(zone, kg), StandardQuote(zone, kg));
      SortQuotesMembers(CarrierQuotes("azimuth", SEEDED, zone, kg), StandardQuote(zone, kg));
    }
  }

  lemma NegativeWeightPrice(zone: int, kg: real)
    requires IsZone(zone) && kg < 0.0
    ensures TablePrice(kg, StandardColumn(zone)) != SeededPrice(StandardColumn(zone), kg)
  {
  }

  // ---- a whole route ----

  /**
   The seeded carrier, cities and rates together: a route's quotes are the built-in ones of its database
   zone, hence those of the zone in use before exactly when the zones are the same.
   */
  lemma SeededCarrierQuotes(rows: seq<ZoneCity>, cities: Cities, from: string, to: string, fallback: int, kg: real)
    requires Lists(rows, cities.SeededZone) && IsZone(fallback) && kg >= 0.0
    ensures var carriers, zone := [Carrier("azimuth", rows, SEEDED)], EffectiveZone(rows, fallback, from, to);
            && IsZone(zone) && UsableCarriers(carriers, from, to, fallback)
            && AllQuotes(carriers, from, to, fallback, kg) == HardcodedList(zone, kg)
            && (AllQuotes(carriers, from, to, fallback, kg) == HardcodedList(fallback, kg) <==> zone == fallback)
  {
    hide CarrierQuotes;
    hide Usable;
    hide TableRates;
    hide EconomyRates;
    hide TablePrice;
    hide EconomyPrice;
    SeededRoute(rows, cities, from, to);
    hide RouteZone;
    var zone := EffectiveZone(rows, fallback, from, to);
    SeededAgreesFromZero(zone, kg);
    var carriers := [Carrier("azimuth", rows, SEEDED)];
    assert carriers[..0] == [];
    assert HardcodedList(zone, kg)[0].zone == zone && HardcodedList(fallback, kg)[0].zone == fallback;
  }
}
