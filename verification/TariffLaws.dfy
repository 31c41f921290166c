/** Which price a zone and a weight get, by the named fields of the price list, and which rate a database engine uses. */
module TariffLaws {
  import opened Prelude
  import opened Tariff
  import opened RateEngine
  import RateOrder

  // ---- the built-in list ----

  /** Row `j` is the first that reaches the weight. */
  predicate FirstReaching(kg: real, j: nat) {
    && j < |STANDARD_RATES| && kg <= STANDARD_RATES[j].upTo
    && forall k :: 0 <= k < j ==> STANDARD_RATES[k].upTo < kg
  }

  /** The number of started steps above ten kilograms. */
  predicate Started(kg: real, step: real, n: int) {
    n as real * step >= kg - 10.0 && (n - 1) as real * step < kg - 10.0
  }

  lemma {:induction false} FitIsFirst(kg: real, i: nat, j: nat)
    requires FirstReaching(kg, j) && i <= j
    ensures FirstFit(kg, i) == j
    decreases j - i
  {
    if i < j {
      FitIsFirst(kg, i + 1, j);
    }
  }

  /** Up to ten kilograms, each zone's standard and express prices are its own two fields of the first row that reaches. */
  lemma PriceByRow(kg: real, j: nat)
    requires kg <= 10.0 && FirstReaching(kg, j)
    ensures var row := STANDARD_RATES[j];
            && StandardQuote(0, kg).price == row.stdZ0 && ExpressQuote(0, kg).price == row.stdZ0
            && StandardQuote(1, kg).price == row.stdZ1 && ExpressQuote(1, kg).price == row.expZ1
            && StandardQuote(2, kg).price == row.stdZ2 && ExpressQuote(2, kg).price == row.expZ2
            && StandardQuote(3, kg).price == row.stdZ3 && ExpressQuote(3, kg).price == row.expZ3
  {
    FitIsFirst(kg, 0, j);
  }

  lemma HalfKilos(kg: real, n: int)
    requires Started(kg, 0.5, n)
    ensures Ceil((kg - TABLE_END) / 0.5) == n
  {
  }

  /** Above, the ten kilogram price and the zone's own surcharge for each started half kilogram. */
  lemma PriceAboveTable(kg: real, n: int)
    requires kg > 10.0 && Started(kg, 0.5, n)
    ensures n >= 1
    ensures StandardQuote(0, kg).price == 2435 + n * 125 && ExpressQuote(0, kg).price == 2435 + n * 125
    ensures StandardQuote(1, kg).price == 3125 + n * 160 && ExpressQuote(1, kg).price == 11500 + n * 750
    ensures StandardQuote(2, kg).price == 5625 + n * 280 && ExpressQuote(2, kg).price == 13375 + n * 1500
    ensures StandardQuote(3, kg).price == 9625 + n * 560 && ExpressQuote(3, kg).price == 17560 + n * 3000
  {
    HalfKilos(kg, n);
  }

  /** Economy: a flat price up to ten kilograms, and a surcharge for each started kilogram above. */
  lemma EconomyByZone(kg: real, n: int)
    requires if kg > 10.0 then Started(kg, 1.0, n) else n == 0
    ensures EconomyQuote(1, kg).price == 5500 + n * 350
    ensures EconomyQuote(2, kg).price == 7000 + n * 480
    ensures EconomyQuote(3, kg).price == 9000 + n * 650
  {
  }

  /** What is offered in a zone: inside a city no economy, and each tariff once, under its name, zone and weight. */
  lemma OffersByZone(zone: int, kg: real)
    requires 0 <= zone <= 3
    ensures HardcodedQuotes(zone, kg).Some?
    ensures forall q :: q in HardcodedQuotes(zone, kg).value <==>
              q == StandardQuote(zone, kg) || q == ExpressQuote(zone, kg) || (zone > 0 && q == EconomyQuote(zone, kg))
    ensures forall q :: q in HardcodedQuotes(zone, kg).value ==> q.zone == zone && q.kg == kg && q.currency == "KZT"
    ensures StandardQuote(zone, kg).tariff == "standard" && ExpressQuote(zone, kg).tariff == "express"
    ensures zone > 0 ==> EconomyQuote(zone, kg).tariff == "economy"
  {
    forall q
      ensures q in HardcodedQuotes(zone, kg).value <==> q in HardcodedList(zone, kg)
    {
      SortQuotesMembers(HardcodedList(zone, kg), q);
    }
  }

  /** Days from door to door: a day inside a city; farther is never faster, and express never slower than standard. */
  lemma TimesByZone(y: int, z: int, kg: real)
    requires 0 <= y <= z <= 3
    ensures StandardQuote(0, kg).etaMin == StandardQuote(0, kg).etaMax == ExpressQuote(0, kg).etaMin == 1
    ensures StandardQuote(y, kg).etaMin <= StandardQuote(z, kg).etaMin && StandardQuote(y, kg).etaMax <= StandardQuote(z, kg).etaMax
    ensures ExpressQuote(y, kg).etaMin <= ExpressQuote(z, kg).etaMin && ExpressQuote(y, kg).etaMax <= ExpressQuote(z, kg).etaMax
    ensures ExpressQuote(z, kg).etaMin <= StandardQuote(z, kg).etaMin && ExpressQuote(z, kg).etaMax <= StandardQuote(z, kg).etaMax
    ensures 1 <= y ==> EconomyQuote(y, kg).etaMin <= EconomyQuote(z, kg).etaMin
    ensures 1 <= z ==> EconomyQuote(z, kg).etaMin <= EconomyQuote(z, kg).etaMax == 10
  {
  }

  /** Offers come cheapest first, the faster of equal prices first; inside a city both cost the same, standard first. */
  lemma OffersInOrder(zone: int, kg: real)
    requires 0 <= zone <= 3
    ensures HardcodedQuotes(zone, kg).Some?
    ensures var quotes := HardcodedQuotes(zone, kg).value;
            && |quotes| == (if zone == 0 then 2 else 3)
            && (forall i, j :: 0 <= i < j < |quotes| ==>
                  quotes[i].price <= quotes[j].price
                  && (quotes[i].price == quotes[j].price ==> quotes[i].etaMin <= quotes[j].etaMin))
    ensures HardcodedQuotes(0, kg) == Some([StandardQuote(0, kg), ExpressQuote(0, kg)])
  {
    SortQuotesOrder(HardcodedList(zone, kg));
    hide TablePrice;
    assert HardcodedList(0, kg) == [StandardQuote(0, kg), ExpressQuote(0, kg)];
    TwoStay(StandardQuote(0, kg), ExpressQuote(0, kg));
  }

  lemma TwoStay(a: Quote, b: Quote)
    requires NotAfter(a, b)
    ensures SortQuotes([a, b]) == [a, b]
  {
    assert [a, b][..1] == [a] && [a][..0] == [];
    assert SortQuotes([a]) == [a];
  }

  lemma RowsRise(j: nat)
    requires j < |STANDARD_RATES|
    ensures var row := STANDARD_RATES[j];
            row.stdZ0 < row.stdZ1 < row.stdZ2 < row.stdZ3 && row.stdZ0 < row.expZ1 < row.expZ2 < row.expZ3
  {
  }

  lemma ListReaches(kg: real) returns (j: nat)
    requires kg <= 10.0
    ensures FirstReaching(kg, j)
  {
    j := FirstFit(kg, 0);
    assert STANDARD_RATES[|STANDARD_RATES| - 1].upTo == 10.0;
  }

  /** Farther is strictly dearer, whatever the weight, and express is dearer than standard between cities. */
  lemma FartherIsDearer(kg: real, y: int, z: int)
    requires 0 <= y < z <= 3
    ensures StandardQuote(y, kg).price < StandardQuote(z, kg).price
    ensures ExpressQuote(y, kg).price < ExpressQuote(z, kg).price
  {
    if kg <= 10.0 {
      var j := ListReaches(kg);
      PriceByRow(kg, j);
      RowsRise(j);
    } else {
      var n := Ceil((kg - TABLE_END) / 0.5);
      assert Started(kg, 0.5, n);
      PriceAboveTable(kg, n);
      RowsRise(|STANDARD_RATES| - 1);
      hide StandardQuote;
      hide ExpressQuote;
      assert n * 125 < n * 160 < n * 280 < n * 560 < n * 750 < n * 1500 < n * 3000;
    }
  }

  // ---- the database engine, on any rows ----

  /** An active rate of the zone, in the service's own list. */
  predicate Offers(s: Service, zone: int, i: nat) {
    i < |s.rates| && s.rates[i].active && s.rates[i].zone == zone
  }

  /** `int(base + started units * price per unit)`, a unit being half a kilogram unless the row says otherwise. */
  predicate PricedBy(r: Rate, kg: real, price: int) {
    if r.perUnit.Some? && r.perUnit.value > 0.0 && kg > r.start then
      var unit := if r.unit.Some? then r.unit.value else 0.5;
      unit != 0.0 ==> price == Truncate(r.base + Ceil((kg - r.start) / unit) as real * r.perUnit.value)
    else price == Truncate(r.base)
  }

  /** Truncation goes towards zero. */
  lemma TruncatesTowardsZero(x: real)
    ensures x >= 0.0 ==> 0 <= Truncate(x) && Truncate(x) as real <= x < Truncate(x) as real + 1.0
    ensures x <= 0.0 ==> Truncate(x) <= 0 && Truncate(x) as real - 1.0 < x <= Truncate(x) as real
  {
  }

  predicate Holds(r: Rate, kg: real) {
    r.start <= kg && (r.end.None? || kg <= r.end.value)
  }

  /** A rate that holds the weight, none of a lower bound holding it too; or, if none does, one of the highest bound. */
  ghost predicate Chosen(s: Service, zone: int, kg: real, i: nat) {
    && Offers(s, zone, i)
    && if Holds(s.rates[i], kg)
       then forall k: nat :: Offers(s, zone, k) && Holds(s.rates[k], kg) ==> s.rates[i].start <= s.rates[k].start
       else forall k: nat :: Offers(s, zone, k) ==> !Holds(s.rates[k], kg) && s.rates[k].start <= s.rates[i].start
  }

  lemma {:induction false} ZoneRatesMembers(s: Service, zone: int, r: Rate)
    ensures r in ZoneRates(s.rates, zone) <==> exists i: nat :: Offers(s, zone, i) && s.rates[i] == r
    decreases |s.rates|
  {
    if s.rates != [] {
      var n := |s.rates| - 1;
      var front := s.(rates := s.rates[..n]);
      ZoneRatesMembers(front, zone, r);
      if r in ZoneRates(s.rates, zone) {
        if r in ZoneRates(front.rates, zone) {
          var i: nat :| Offers(front, zone, i) && front.rates[i] == r;
          assert Offers(s, zone, i) && s.rates[i] == r;
        } else {
          assert Offers(s, zone, n) && s.rates[n] == r;
        }
      }
      if i: nat :| Offers(s, zone, i) && s.rates[i] == r {
        assert i == n || (Offers(front, zone, i) && front.rates[i] == r);
      }
    }
  }

  /** Sorting for the zone keeps exactly the rates on offer, lowest bound first. */
  lemma OnOffer(s: Service, zone: int, r: Rate)
    ensures r in SortRates(ZoneRates(s.rates, zone)) <==> exists i: nat :: Offers(s, zone, i) && s.rates[i] == r
    ensures RateOrder.Sorted(SortRates(ZoneRates(s.rates, zone)))
  {
    RateOrder.SortIsSorted(ZoneRates(s.rates, zone));
    ZoneRatesMembers(s, zone, r);
    assert r in SortRates(ZoneRates(s.rates, zone)) <==> r in multiset(SortRates(ZoneRates(s.rates, zone)));
    assert r in ZoneRates(s.rates, zone) <==> r in multiset(ZoneRates(s.rates, zone));
  }

  /** In a sorted list, against the rate picked, any other holds no more or starts no lower. */
  lemma PickIsBest(rates: seq<Rate>, kg: real, r: Rate)
    requires RateOrder.Sorted(rates) && r in rates
    ensures var best := rates[Applicable(rates, kg)];
            && (Holds(best, kg) && Holds(r, kg) ==> best.start <= r.start)
            && (!Holds(best, kg) ==> !Holds(r, kg) && r.start <= best.start)
  {
    var p :| 0 <= p < |rates| && rates[p] == r;
    assert Covers(rates[p], kg) <==> Holds(r, kg);
  }

  lemma PickIsChosen(s: Service, zone: int, kg: real, i: nat)
    requires SortRates(ZoneRates(s.rates, zone)) != [] && Offers(s, zone, i)
    requires var rates := SortRates(ZoneRates(s.rates, zone)); s.rates[i] == rates[Applicable(rates, kg)]
    ensures Chosen(s, zone, kg, i)
  {
    hide SortRates;
    hide ZoneRates;
    hide Applicable;
    hide Holds;
    hide RateOrder.Sorted;
    var rates := SortRates(ZoneRates(s.rates, zone));
    forall k: nat | Offers(s, zone, k)
      ensures Holds(s.rates[i], kg) && Holds(s.rates[k], kg) ==> s.rates[i].start <= s.rates[k].start
      ensures !Holds(s.rates[i], kg) ==> !Holds(s.rates[k], kg) && s.rates[k].start <= s.rates[i].start
    {
      OnOffer(s, zone, s.rates[k]);
      PickIsBest(rates, kg, s.rates[k]);
    }
  }

  /**
   What the engine quotes for a service with whatever rows: nothing without an active rate of the zone, else by
   the chosen rate, in its currency and time, from one to fourteen days where it names none.
   */
  lemma ServiceUsesChosenRate(carrier: string, s: Service, zone: int, kg: real)
    requires UsableService(s, zone)
    ensures ServiceQuote(carrier, s, zone, kg).Some? <==> s.active && exists i: nat :: Offers(s, zone, i)
    ensures ServiceQuote(carrier, s, zone, kg).Some? ==>
              var q := ServiceQuote(carrier, s, zone, kg).value;
              && q.carrier == carrier && q.tariff == s.code && q.zone == zone && q.kg == kg
              && exists i: nat :: Chosen(s, zone, kg, i) && QuotedBy(s.rates[i], q)
  {
    hide SortRates;
    hide ZoneRates;
    hide Applicable;
    hide Chosen;
    hide RateOrder.Sorted;
    var rates := SortRates(ZoneRates(s.rates, zone));
    if i: nat :| Offers(s, zone, i) {
      OnOffer(s, zone, s.rates[i]);
      assert rates != [];
    }
    if rates != [] {
      var r := rates[Applicable(rates, kg)];
      OnOffer(s, zone, r);
      var i: nat :| Offers(s, zone, i) && s.rates[i] == r;
      PickIsChosen(s, zone, kg, i);
      if s.active {
        QuoteIsBy(carrier, s.code, r, zone, kg);
      }
    }
  }

  predicate QuotedBy(r: Rate, q: Quote) {
    && PricedBy(r, q.kg, q.price) && q.currency == r.currency
    && (if r.etaMin.Some? then Some(q.etaMin) == r.etaMin else q.etaMin == 1)
    && (if r.etaMax.Some? then Some(q.etaMax) == r.etaMax else q.etaMax == 14)
  }

  lemma QuoteIsBy(carrier: string, code: string, r: Rate, zone: int, kg: real)
    requires r.unit != Some(0.0)
    ensures QuotedBy(r, QuoteBy(carrier, code, r, zone, kg))
  {
  }
}
