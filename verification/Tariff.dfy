/**
 The tariff engine of `backend/app/modules/carriers/tariff_engine.py`: chargeable weight, the built-in
 price table, and the generic engine over database rates.  Weights are exact reals in kilograms.
 */
module Tariff {
  import opened Prelude

  /** `math.ceil`. */
  function Ceil(x: real): (n: int)
    ensures n as real - 1.0 < x <= n as real
  {
    -((-x).Floor)
  }

  lemma CeilMonotone(x: real, y: real)
    requires x <= y
    ensures Ceil(x) <= Ceil(y)
  {
  }

  // ---- chargeable weight ----

  const VOLUMETRIC_DIVISOR: real := 6000.0

  function RoundUpToHalf(weight: real): real {
    Ceil(weight * 2.0) as real / 2.0
  }

  function MaxReal(a: real, b: real): real {
    if a < b then b else a
  }

  function Volumetric(width: real, height: real, depth: real): real {
    width * height * depth / VOLUMETRIC_DIVISOR
  }

  /** Actual or volumetric weight of all pieces, whichever is more. */
  function BillableWeight(weight: real, volumetric: real, quantity: nat): real {
    MaxReal(weight * quantity as real, volumetric * quantity as real)
  }

  function ChargeableWeight(weight: real, quantity: nat, width: real, height: real, depth: real): real {
    RoundUpToHalf(BillableWeight(weight, Volumetric(width, height, depth), quantity))
  }

  // ---- the built-in table ----

  datatype Column = StdZ0 | StdZ1 | StdZ2 | StdZ3 | ExpZ1 | ExpZ2 | ExpZ3

  /** Prices up to `upTo` kilograms: standard for zones 0..3, then express for zones 1..3. */
  datatype TableRow = TableRow(
    upTo: real, stdZ0: int, stdZ1: int, stdZ2: int, stdZ3: int, expZ1: int, expZ2: int, expZ3: int)
  {
    function Price(c: Column): int {
      match c
      case StdZ0 => stdZ0
      case StdZ1 => stdZ1
      case StdZ2 => stdZ2
      case StdZ3 => stdZ3
      case ExpZ1 => expZ1
      case ExpZ2 => expZ2
      case ExpZ3 => expZ3
    }
  }

  const STANDARD_RATES: seq<TableRow> := [
    TableRow(0.3, 1000, 2000, 2625, 3750, 2000, 3250, 5000),
    TableRow(0.5, 1000, 2000, 2625, 3750, 2810, 4060, 6035),
    TableRow(1.0, 1000, 2000, 2625, 3750, 3435, 4875, 7310),
    TableRow(1.5, 1000, 2000, 2625, 3750, 4125, 5375, 8335),
    TableRow(2.0, 1000, 2000, 2625, 3750, 4680, 5875, 9775),
    TableRow(2.5, 1310, 2060, 2935, 3810, 4930, 6060, 11075),
    TableRow(3.0, 1375, 2110, 3000, 3875, 5125, 6375, 11600),
    TableRow(3.5, 1435, 2150, 3060, 4060, 5310, 6875, 11935),
    TableRow(4.0, 1500, 2235, 3125, 4435, 5500, 7375, 12360),
    TableRow(4.5, 1560, 2310, 3310, 4810, 5680, 7875, 12810),
    TableRow(5.0, 1625, 2375, 3500, 5375, 5875, 8375, 13225),
    TableRow(5.5, 1685, 2435, 3685, 5435, 6250, 8875, 13685),
    TableRow(6.0, 1750, 2500, 3875, 5850, 7500, 9375, 14085),
    TableRow(6.5, 1810, 2560, 4125, 6000, 8000, 9875, 14560),
    TableRow(7.0, 1875, 2685, 4250, 6225, 8500, 10375, 14950),
    TableRow(7.5, 1935, 2810, 4435, 6375, 9000, 10875, 15435),
    TableRow(8.0, 2000, 2875, 4625, 6875, 9500, 11375, 15815),
    TableRow(8.5, 2060, 2935, 4945, 7375, 10000, 11875, 16250),
    TableRow(9.0, 2125, 3000, 5150, 8500, 10500, 12375, 16685),
    TableRow(9.5, 2250, 3060, 5355, 9060, 11000, 12875, 17185),
    TableRow(10.0, 2435, 3125, 5625, 9625, 11500, 13375, 17560)
  ]

  const EXTRA_PER_HALF_KG: TableRow := TableRow(0.5, 125, 160, 280, 560, 750, 1500, 3000)
  const ECONOMY_BASE: seq<int> := [5500, 7000, 9000]
  const ECONOMY_EXTRA_PER_KG: seq<int> := [350, 480, 650]
  const ECONOMY_ETA: seq<(int, int)> := [(3, 10), (5, 10), (7, 10)]
  const STANDARD_ETA: seq<(int, int)> := [(1, 1), (3, 7), (4, 10), (7, 14)]
  const EXPRESS_ETA: seq<(int, int)> := [(1, 1), (1, 3), (2, 4), (3, 5)]

  const TABLE_END: real := 10.0

  predicate RowBelow(a: TableRow, b: TableRow) {
    && a.upTo < b.upTo
    && a.stdZ0 <= b.stdZ0 && a.stdZ1 <= b.stdZ1 && a.stdZ2 <= b.stdZ2 && a.stdZ3 <= b.stdZ3
    && a.expZ1 <= b.expZ1 && a.expZ2 <= b.expZ2 && a.expZ3 <= b.expZ3
  }

  predicate ZonesAscend(r: TableRow) {
    0 <= r.stdZ0 <= r.stdZ1 <= r.stdZ2 <= r.stdZ3 && r.stdZ0 <= r.expZ1 <= r.expZ2 <= r.expZ3
  }

  // ---- facts about the table ----

  lemma RatesAscend(i: nat)
    requires i < |STANDARD_RATES| - 1
    ensures RowBelow(STANDARD_RATES[i], STANDARD_RATES[i + 1])
  {
  }

  lemma RatesZones(i: nat)
    requires i < |STANDARD_RATES|
    ensures ZonesAscend(STANDARD_RATES[i])
  {
  }

  const LAST: nat := |STANDARD_RATES| - 1

  lemma {:induction false} RatesOrdered(i: nat, j: nat)
    requires i <= j <= LAST
    ensures STANDARD_RATES[i].upTo <= STANDARD_RATES[j].upTo
    ensures forall c: Column :: STANDARD_RATES[i].Price(c) <= STANDARD_RATES[j].Price(c)
  {
    if i < j {
      RatesOrdered(i, j - 1);
      RatesAscend(j - 1);
    }
  }

  // ---- the built-in price list ----

  /** The first row from `i` on that reaches the weight, or the end of the table. */
  function FirstFit(weight: real, i: nat): (j: nat)
    requires i <= |STANDARD_RATES|
    ensures i <= j <= |STANDARD_RATES|
    ensures forall k :: i <= k < j ==> STANDARD_RATES[k].upTo < weight
    ensures j < |STANDARD_RATES| ==> weight <= STANDARD_RATES[j].upTo
    decreases |STANDARD_RATES| - i
  {
    if i == |STANDARD_RATES| || weight <= STANDARD_RATES[i].upTo then i else FirstFit(weight, i + 1)
  }

  function TablePrice(weight: real, c: Column): int {
    if weight <= TABLE_END then
      var j := FirstFit(weight, 0);
      STANDARD_RATES[if j < |STANDARD_RATES| then j else LAST].Price(c)
    else
      STANDARD_RATES[LAST].Price(c) + Ceil((weight - TABLE_END) / 0.5) * EXTRA_PER_HALF_KG.Price(c)
  }

  /** `_lookup_standard_price`. */
  method LookupStandardPrice(weight: real, c: Column) returns (price: int)
    ensures price == TablePrice(weight, c)
  {
    var last := STANDARD_RATES[LAST].Price(c);
    if weight <= TABLE_END {
      var i := 0;
      while i < |STANDARD_RATES|
        invariant i <= |STANDARD_RATES|
        invariant FirstFit(weight, 0) == FirstFit(weight, i)
      {
        if weight <= STANDARD_RATES[i].upTo {
          return STANDARD_RATES[i].Price(c);
        }
        i := i + 1;
      }
      return last;
    }
    var halves := Ceil((weight - TABLE_END) / 0.5);
    return last + halves * EXTRA_PER_HALF_KG.Price(c);
  }

  function StandardColumn(zone: int): Column {
    if zone == 0 then StdZ0 else if zone == 1 then StdZ1 else if zone == 2 then StdZ2 else StdZ3
  }

  function ExpressColumn(zone: int): Column {
    if zone == 0 then StdZ0 else if zone == 1 then ExpZ1 else if zone == 2 then ExpZ2 else ExpZ3
  }

  predicate IsZone(zone: int) {
    0 <= zone <= 3
  }

  function EconomyPrice(weight: real, zone: int): int
    requires IsZone(zone)
  {
    var billable := MaxReal(weight, TABLE_END);
    var i := Max(0, zone - 1);
    if billable <= TABLE_END then ECONOMY_BASE[i]
    else ECONOMY_BASE[i] + Ceil(billable - TABLE_END) * ECONOMY_EXTRA_PER_KG[i]
  }

  // ---- quotes ----

  datatype Quote = Quote(
    carrier: string, tariff: string, price: int, currency: string, etaMin: int, etaMax: int, zone: int, kg: real)

  predicate NotAfter(a: Quote, b: Quote) {
    a.price < b.price || (a.price == b.price && a.etaMin <= b.etaMin)
  }

  function InsertQuote(sorted: seq<Quote>, q: Quote): seq<Quote> {
    if sorted == [] then [q]
    else
      var n := |sorted| - 1;
      if NotAfter(sorted[n], q) then sorted + [q] else InsertQuote(sorted[..n], q) + [sorted[n]]
  }

  /** The stable `results.sort(key=(price, eta_days_min))`. */
  function SortQuotes(quotes: seq<Quote>): seq<Quote> {
    if quotes == [] then []
    else InsertQuote(SortQuotes(quotes[..|quotes| - 1]), quotes[|quotes| - 1])
  }

  lemma {:induction false} InsertQuoteMembers(sorted: seq<Quote>, q: Quote, x: Quote)
    ensures x in InsertQuote(sorted, q) <==> x == q || x in sorted
  {
    if sorted != [] {
      var n := |sorted| - 1;
      assert sorted == sorted[..n] + [sorted[n]];
      InsertQuoteMembers(sorted[..n], q, x);
    }
  }

  lemma {:induction false} SortQuotesMembers(quotes: seq<Quote>, x: Quote)
    ensures x in SortQuotes(quotes) <==> x in quotes
  {
    if quotes != [] {
      var n := |quotes| - 1;
      assert quotes == quotes[..n] + [quotes[n]];
      SortQuotesMembers(quotes[..n], x);
      InsertQuoteMembers(SortQuotes(quotes[..n]), quotes[n], x);
    }
  }

  predicate CheapestFirst(quotes: seq<Quote>) {
    forall i, j :: 0 <= i < j < |quotes| ==> NotAfter(quotes[i], quotes[j])
  }

  lemma {:induction false} InsertQuoteOrder(sorted: seq<Quote>, q: Quote)
    requires CheapestFirst(sorted)
    ensures CheapestFirst(InsertQuote(sorted, q)) && |InsertQuote(sorted, q)| == |sorted| + 1
  {
    if sorted != [] {
      var n := |sorted| - 1;
      if !NotAfter(sorted[n], q) {
        var front := InsertQuote(sorted[..n], q);
        InsertQuoteOrder(sorted[..n], q);
        forall i | 0 <= i < |front|
          ensures NotAfter(front[i], sorted[n])
        {
          InsertQuoteMembers(sorted[..n], q, front[i]);
        }
      }
    }
  }

  /** Cheapest first, the faster one first among equals. */
  lemma {:induction false} SortQuotesOrder(quotes: seq<Quote>)
    ensures CheapestFirst(SortQuotes(quotes)) && |SortQuotes(quotes)| == |quotes|
  {
    if quotes != [] {
      var n := |quotes| - 1;
      SortQuotesOrder(quotes[..n]);
      InsertQuoteOrder(SortQuotes(quotes[..n]), quotes[n]);
    }
  }

  function StandardQuote(zone: int, kg: real): Quote
    requires IsZone(zone)
  {
    Quote("azimuth", "standard", TablePrice(kg, StandardColumn(zone)), "KZT",
          STANDARD_ETA[zone].0, STANDARD_ETA[zone].1, zone, kg)
  }

  function ExpressQuote(zone: int, kg: real): Quote
    requires IsZone(zone)
  {
    Quote("azimuth", "express", TablePrice(kg, ExpressColumn(zone)), "KZT",
          EXPRESS_ETA[zone].0, EXPRESS_ETA[zone].1, zone, kg)
  }

  function EconomyQuote(zone: int, kg: real): Quote
    requires 1 <= zone <= 3
  {
    Quote("azimuth", "economy", EconomyPrice(kg, zone), "KZT",
          ECONOMY_ETA[zone - 1].0, ECONOMY_ETA[zone - 1].1, zone, kg)
  }

  function HardcodedList(zone: int, kg: real): seq<Quote>
    requires IsZone(zone)
  {
    [StandardQuote(zone, kg), ExpressQuote(zone, kg)] + if zone >= 1 then [EconomyQuote(zone, kg)] else []
  }

  /** `_calculate_hardcoded`; a zone outside 0..3 is missing from the ETA tables and raises. */
  function HardcodedQuotes(zone: int, kg: real): Option<seq<Quote>> {
    if IsZone(zone) then Some(SortQuotes(HardcodedList(zone, kg))) else None
  }
}
