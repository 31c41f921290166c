/**
 The generic engine over database rates (`_db_rate_price`, `_quotes_from_carriers`), the rows that
 `backend/scripts/seed.py` compiles the built-in table into, and their agreement.
 */
module RateEngine {
  import opened Prelude
  import opened Tariff
  import opened Zones

  /** A `carrier_tariff_rates` row. */
  datatype Rate = Rate(
    zone: int, start: real, end: Option<real>, base: real, perUnit: Option<real>, unit: Option<real>,
    currency: string, etaMin: Option<int>, etaMax: Option<int>, active: bool)

  datatype Service = Service(code: string, active: bool, rates: seq<Rate>)

  // ---- the engine ----

  /** Python's `int()` of a float. */
  function Truncate(x: real): int {
    if x >= 0.0 then x.Floor else -((-x).Floor)
  }

  /** `_db_rate_price`; a zero unit weight would divide by zero. */
  function RatePrice(r: Rate, kg: real): int
    requires r.unit != Some(0.0)
  {
    var per := if r.perUnit.Some? then r.perUnit.value else 0.0;
    var unit := if r.unit.Some? then r.unit.value else 0.5;
    if per > 0.0 && kg > r.start then Truncate(r.base + Ceil((kg - r.start) / unit) as real * per)
    else Truncate(r.base)
  }

  predicate Covers(r: Rate, kg: real) {
    r.start <= kg && (r.end.None? || kg <= r.end.value)
  }

  /** The first bracket from `i` on that covers the weight, or the end of the list. */
  function FirstCover(rates: seq<Rate>, kg: real, i: nat): (j: nat)
    requires i <= |rates|
    ensures i <= j <= |rates|
    ensures j < |rates| ==> Covers(rates[j], kg)
    ensures forall k :: i <= k < j ==> !Covers(rates[k], kg)
    decreases |rates| - i
  {
    if i == |rates| || Covers(rates[i], kg) then i else FirstCover(rates, kg, i + 1)
  }

  /** The bracket to price by: the first that covers the weight, the last if none does. */
  function Applicable(rates: seq<Rate>, kg: real): (j: nat)
    requires rates != []
    ensures j < |rates|
  {
    var j := FirstCover(rates, kg, 0);
    if j < |rates| then j else |rates| - 1
  }

  function InsertRate(sorted: seq<Rate>, r: Rate): seq<Rate> {
    if sorted == [] then [r]
    else
      var n := |sorted| - 1;
      if sorted[n].start <= r.start then sorted + [r] else InsertRate(sorted[..n], r) + [sorted[n]]
  }

  function SortRates(rates: seq<Rate>): seq<Rate> {
    if rates == [] then [] else InsertRate(SortRates(rates[..|rates| - 1]), rates[|rates| - 1])
  }

  function ZoneRates(rates: seq<Rate>, zone: int): seq<Rate> {
    if rates == [] then []
    else
      var n := |rates| - 1;
      ZoneRates(rates[..n], zone) + if rates[n].active && rates[n].zone == zone then [rates[n]] else []
  }

  predicate NoZeroUnit(rates: seq<Rate>) {
    forall i :: 0 <= i < |rates| ==> rates[i].unit != Some(0.0)
  }

  function QuoteBy(carrier: string, code: string, r: Rate, zone: int, kg: real): Quote
    requires r.unit != Some(0.0)
  {
    Quote(carrier, code, RatePrice(r, kg), r.currency,
          if r.etaMin.Some? then r.etaMin.value else 1, if r.etaMax.Some? then r.etaMax.value else 14, zone, kg)
  }

  function ServiceQuote(carrier: string, s: Service, zone: int, kg: real): Option<Quote>
    requires UsableService(s, zone)
  {
    var rates := SortRates(ZoneRates(s.rates, zone));
    if !s.active || rates == [] then None
    else Some(QuoteBy(carrier, s.code, rates[Applicable(rates, kg)], zone, kg))
  }

  predicate UsableService(s: Service, zone: int) {
    NoZeroUnit(SortRates(ZoneRates(s.rates, zone)))
  }

  predicate Usable(services: seq<Service>, zone: int) {
    forall i :: 0 <= i < |services| ==> UsableService(services[i], zone)
  }

  /** The inner loop of `_quotes_from_carriers`, for one carrier and its zone. */
  function CarrierQuotes(carrier: string, services: seq<Service>, zone: int, kg: real): seq<Quote>
    requires Usable(services, zone)
  {
    if services == [] then []
    else
      var n := |services| - 1;
      var q := ServiceQuote(carrier, services[n], zone, kg);
      CarrierQuotes(carrier, services[..n], zone, kg) + if q.Some? then [q.value] else []
  }

  method QuotesFromCarrier(carrier: string, services: seq<Service>, zone: int, kg: real) returns (results: seq<Quote>)
    requires Usable(services, zone)
    ensures results == CarrierQuotes(carrier, services, zone, kg)
  {
    results := [];
    var i := 0;
    while i < |services|
      invariant i <= |services|
      invariant results == CarrierQuotes(carrier, services[..i], zone, kg)
    {
      assert services[..i + 1][..i] == services[..i];
      var rates := SortRates(ZoneRates(services[i].rates, zone));
      if services[i].active && rates != [] {
        var found := FindApplicable(rates, kg);
        results := results + [QuoteBy(carrier, services[i].code, rates[found], zone, kg)];
      }
      i := i + 1;
    }
    assert services[..i] == services;
  }

  datatype Carrier = Carrier(code: string, cities: seq<ZoneCity>, services: seq<Service>)

  predicate UsableCarriers(carriers: seq<Carrier>, from: string, to: string, fallback: int) {
    forall i :: 0 <= i < |carriers| ==>
      Usable(carriers[i].services, EffectiveZone(carriers[i].cities, fallback, from, to))
  }

  /** `_quotes_from_carriers`: each carrier by its own zone for the route, or the fallback. */
  function AllQuotes(carriers: seq<Carrier>, from: string, to: string, fallback: int, kg: real): seq<Quote>
    requires UsableCarriers(carriers, from, to, fallback)
  {
    if carriers == [] then []
    else
      var n := |carriers| - 1;
      var zone := EffectiveZone(carriers[n].cities, fallback, from, to);
      AllQuotes(carriers[..n], from, to, fallback, kg) + CarrierQuotes(carriers[n].code, carriers[n].services, zone, kg)
  }

  method QuotesFromCarriers(carriers: seq<Carrier>, from: string, to: string, fallback: int, kg: real)
    returns (results: seq<Quote>)
    requires UsableCarriers(carriers, from, to, fallback)
    ensures results == AllQuotes(carriers, from, to, fallback, kg)
  {
    results := [];
    var i := 0;
    while i < |carriers|
      invariant i <= |carriers|
      invariant results == AllQuotes(carriers[..i], from, to, fallback, kg)
    {
      assert carriers[..i + 1][..i] == carriers[..i];
      var own := RouteZone(carriers[i].cities, from, to);
      var zone := if own.Some? then own.value else fallback;
      var quotes := QuotesFromCarrier(carriers[i].code, carriers[i].services, zone, kg);
      results := results + quotes;
      i := i + 1;
    }
    assert carriers[..i] == carriers;
  }

  method FindApplicable(rates: seq<Rate>, kg: real) returns (found: nat)
    requires rates != []
    ensures found == Applicable(rates, kg)
  {
    var i := 0;
    while i < |rates|
      invariant i <= |rates|
      invariant FirstCover(rates, kg, 0) == FirstCover(rates, kg, i)
    {
      if Covers(rates[i], kg) {
        return i;
      }
      i := i + 1;
    }
    return |rates| - 1;
  }

  // ---- bracket search on any rate list ----

  /** Brackets that meet end to end and leave the top open. */
  ghost predicate Contiguous(rates: seq<Rate>) {
    && rates != [] && rates[|rates| - 1].end == None
    && forall i :: 0 <= i < |rates| - 1 ==> rates[i].end == Some(rates[i + 1].start) && rates[i].start < rates[i + 1].start
  }

  lemma {:induction false} StartsAscend(rates: seq<Rate>, i: nat, j: nat)
    requires Contiguous(rates) && i <= j < |rates|
    ensures rates[i].start <= rates[j].start
    ensures i < j ==> rates[i].end.Some? && rates[i].end.value <= rates[j].start
  {
    if i < j {
      StartsAscend(rates, i, j - 1);
      assert rates[j - 1].end == Some(rates[j - 1 + 1].start);
    }
  }

  predicate LeftOpen(r: Rate, kg: real) {
    r.start < kg && (r.end.None? || kg <= r.end.value)
  }

  /**
   On a contiguous list, from its lowest bound up, the first match is the one left-open bracket that
   holds the weight; at the lowest bound itself it is the first bracket.
   */
  lemma FirstMatchIsTheBracket(rates: seq<Rate>, kg: real, k: nat)
    requires Contiguous(rates) && rates[0].start <= kg && k < |rates|
    ensures Applicable(rates, kg) == k <==> LeftOpen(rates[k], kg) || (k == 0 && kg == rates[0].start)
  {
    var j := FirstCover(rates, kg, 0);
    BracketExists(rates, kg, |rates| - 1);
    if j > 0 {
      assert !Covers(rates[j - 1], kg) && rates[j - 1].end == Some(rates[j - 1 + 1].start);
      StartsAscend(rates, 0, j - 1);
      StartBelow(rates, kg, j - 1);
    }
    if k < j {
      StartsAscend(rates, k, j);
    } else if j < k {
      StartsAscend(rates, j, k);
    }
  }

  lemma {:induction false} BracketExists(rates: seq<Rate>, kg: real, j: nat)
    requires Contiguous(rates) && rates[0].start <= kg && j < |rates|
    requires j == |rates| - 1 || kg <= rates[j + 1].start
    ensures exists k :: 0 <= k <= j && Covers(rates[k], kg)
  {
    if j > 0 {
      assert rates[j - 1].end == Some(rates[j - 1 + 1].start);
    }
    if kg < rates[j].start {
      BracketExists(rates, kg, j - 1);
    } else {
      assert j < |rates| - 1 ==> rates[j].end == Some(rates[j + 1].start);
      assert Covers(rates[j], kg);
    }
  }

  /** Nothing up to `j` covers the weight, so it lies above bracket `j`. */
  lemma {:induction false} StartBelow(rates: seq<Rate>, kg: real, j: nat)
    requires Contiguous(rates) && rates[0].start <= kg && j < |rates| - 1
    requires forall k :: 0 <= k <= j ==> !Covers(rates[k], kg)
    ensures rates[j + 1].start < kg
  {
    assert rates[j].end == Some(rates[j + 1].start);
    if j > 0 {
      StartBelow(rates, kg, j - 1);
    }
    assert !Covers(rates[j], kg);
  }
}
