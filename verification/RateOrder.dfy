/** The database gives services and rate rows in no particular order; the quotes do not depend on it. */
module RateOrder {
  import opened Prelude
  import opened Tariff
  import opened RateEngine
  import opened Seed

  predicate Sorted(rates: seq<Rate>) {
    forall i, j :: 0 <= i < j < |rates| ==> rates[i].start <= rates[j].start
  }

  predicate Ascending(rates: seq<Rate>) {
    forall i, j :: 0 <= i < j < |rates| ==> rates[i].start < rates[j].start
  }

  lemma {:induction false} InsertAdds(rates: seq<Rate>, r: Rate)
    ensures multiset(InsertRate(rates, r)) == multiset(rates) + multiset{r}
  {
    if rates != [] {
      var n := |rates| - 1;
      assert rates == rates[..n] + [rates[n]];
      InsertAdds(rates[..n], r);
    }
  }

  lemma {:induction false} InsertIsSorted(rates: seq<Rate>, r: Rate)
    requires Sorted(rates)
    ensures Sorted(InsertRate(rates, r))
  {
    if rates != [] {
      var n := |rates| - 1;
      if rates[n].start > r.start {
        var front := InsertRate(rates[..n], r);
        InsertIsSorted(rates[..n], r);
        InsertAdds(rates[..n], r);
        forall i | 0 <= i < |front|
          ensures front[i].start <= rates[n].start
        {
          assert front[i] in multiset(front);
        }
      }
    }
  }

  lemma {:induction false} SortIsSorted(rates: seq<Rate>)
    ensures Sorted(SortRates(rates)) && multiset(SortRates(rates)) == multiset(rates)
  {
    if rates != [] {
      var n := |rates| - 1;
      assert rates == rates[..n] + [rates[n]];
      SortIsSorted(rates[..n]);
      InsertIsSorted(SortRates(rates[..n]), rates[n]);
      InsertAdds(SortRates(rates[..n]), rates[n]);
    }
  }

  lemma SameLast(a: seq<Rate>, b: seq<Rate>)
    requires Ascending(a) && Sorted(b) && |a| == |b| > 0
    requires forall r :: r in a <==> r in b
    ensures a[|a| - 1] == b[|b| - 1]
  {
    var n := |a| - 1;
    assert b[n] in b && a[n] in a;
    var i :| 0 <= i < |a| && a[i] == b[n];
    var j :| 0 <= j < |b| && b[j] == a[n];
  }

  lemma SameElements(a: seq<Rate>, b: seq<Rate>)
    requires multiset(a) == multiset(b)
    ensures |a| == |b| && forall r :: r in a <==> r in b
  {
    assert |a| == |multiset(a)| == |multiset(b)| == |b|;
    forall r: Rate
      ensures r in a <==> r in b
    {
      assert r in a <==> r in multiset(a);
      assert r in b <==> r in multiset(b);
    }
  }

  lemma DropLast(a: seq<Rate>)
    requires a != []
    ensures multiset(a[..|a| - 1]) == multiset(a) - multiset{a[|a| - 1]}
  {
    assert a == a[..|a| - 1] + [a[|a| - 1]];
  }

  lemma SameBut(a: seq<Rate>, b: seq<Rate>)
    requires Ascending(a) && Sorted(b) && multiset(a) == multiset(b)
    ensures |a| == |b|
    ensures a != [] ==>
              && a[|a| - 1] == b[|b| - 1] && multiset(a[..|a| - 1]) == multiset(b[..|b| - 1])
              && Ascending(a[..|a| - 1]) && Sorted(b[..|b| - 1])
  {
    SameElements(a, b);
    if a != [] {
      SameLast(a, b);
      DropLast(a);
      DropLast(b);
    }
  }

  /** Rows with distinct lower bounds have one sorted order. */
  lemma {:induction false} OneSortedOrder(a: seq<Rate>, b: seq<Rate>)
    requires Ascending(a) && Sorted(b) && multiset(a) == multiset(b)
    ensures a == b
  {
    hide Ascending;
    hide Sorted;
    SameBut(a, b);
    if a != [] {
      var n := |a| - 1;
      OneSortedOrder(a[..n], b[..n]);
      assert a == a[..n] + [a[n]] && b == b[..n] + [b[n]];
    }
  }

  lemma {:induction false} ZoneRatesMembers(rates: seq<Rate>, zone: int, r: Rate)
    ensures multiset(ZoneRates(rates, zone))[r] == if r.active && r.zone == zone then multiset(rates)[r] else 0
  {
    if rates != [] {
      var n := |rates| - 1;
      assert rates == rates[..n] + [rates[n]];
      ZoneRatesMembers(rates[..n], zone, r);
    }
  }

  lemma AnyRowOrder(a: seq<Rate>, b: seq<Rate>, zone: int)
    requires multiset(a) == multiset(b) && Ascending(SortRates(ZoneRates(a, zone)))
    ensures SortRates(ZoneRates(a, zone)) == SortRates(ZoneRates(b, zone))
  {
    hide SortRates;
    hide ZoneRates;
    forall r: Rate
      ensures multiset(ZoneRates(a, zone))[r] == multiset(ZoneRates(b, zone))[r]
    {
      ZoneRatesMembers(a, zone, r);
      ZoneRatesMembers(b, zone, r);
    }
    SortIsSorted(ZoneRates(a, zone));
    SortIsSorted(ZoneRates(b, zone));
    OneSortedOrder(SortRates(ZoneRates(a, zone)), SortRates(ZoneRates(b, zone)));
  }

  // ---- the seeded services ----

  /** The same service with the same rows, in whatever order. */
  predicate SameService(s: Service, t: Service) {
    s.code == t.code && s.active == t.active && multiset(s.rates) == multiset(t.rates)
  }

  lemma BlockAscends(zone: int, c: Column, eta: (int, int))
    ensures Ascending(SortRates(Block(zone, c, eta)))
  {
    BlockSorted(zone, c, eta);
    BlockIsContiguous(zone, c, eta);
    var block := Block(zone, c, eta);
    forall i, j | 0 <= i < j < |block|
      ensures block[i].start < block[j].start
    {
      StartsAscend(block, i, j);
      StartsAscend(block, i + 1, j);
    }
  }

  lemma SeededAscends(s: Service, zone: int)
    requires s in SEEDED && IsZone(zone)
    ensures Ascending(SortRates(ZoneRates(s.rates, zone)))
  {
    hide SortRates;
    hide TableRates;
    hide EconomyRates;
    hide TableRate;
    if s == SEEDED[2] {
      ZoneOfEconomy(3, zone);
      SortIsSorted(ZoneRates(s.rates, zone));
      if zone >= 1 {
        EconomyAscends(zone);
      } else {
        SortIsSorted([]);
      }
    } else {
      var express := s == SEEDED[1];
      ZoneOfTable(express, 4, zone);
      BlockAscends(zone, if express then ExpressColumn(zone) else StandardColumn(zone),
                   if express then EXPRESS_ETA[zone] else STANDARD_ETA[zone]);
    }
  }

  lemma EconomyAscends(zone: nat)
    requires 1 <= zone <= 3
    ensures Ascending(SortRates(EconomyBlock(zone)))
  {
    EconomyBlockPrice(zone, 0.0);
  }

  lemma SameQuote(s: Service, t: Service, zone: int, kg: real)
    requires SameService(s, t) && UsableService(t, zone) && Ascending(SortRates(ZoneRates(t.rates, zone)))
    ensures UsableService(s, zone)
    ensures ServiceQuote("azimuth", s, zone, kg) == ServiceQuote("azimuth", t, zone, kg)
  {
    hide SortRates;
    hide ZoneRates;
    hide TableRates;
    hide EconomyRates;
    AnyRowOrder(t.rates, s.rates, zone);
  }

  lemma {:induction false} QuoteMembers(services: seq<Service>, zone: int, kg: real, q: Quote)
    requires Usable(services, zone)
    ensures q in CarrierQuotes("azimuth", services, zone, kg)
            <==> exists s :: s in services && UsableService(s, zone) && ServiceQuote("azimuth", s, zone, kg) == Some(q)
  {
    hide ServiceQuote;
    hide UsableService;
    if services != [] {
      var n := |services| - 1;
      assert services == services[..n] + [services[n]];
      QuoteMembers(services[..n], zone, kg, q);
      assert UsableService(services[n], zone);
    }
  }

  lemma SameMembers(services: seq<Service>, seeded: seq<Service>, zone: int, kg: real, q: Quote)
    requires Usable(seeded, zone)
    requires forall s, t :: s in services && t in seeded && SameService(s, t) ==>
               UsableService(s, zone) && UsableService(t, zone)
               && ServiceQuote("azimuth", s, zone, kg) == ServiceQuote("azimuth", t, zone, kg)
    requires forall s :: s in services ==> exists t :: t in seeded && SameService(s, t)
    requires forall t :: t in seeded ==> exists s :: s in services && SameService(s, t)
    ensures Usable(services, zone)
    ensures q in CarrierQuotes("azimuth", services, zone, kg) <==> q in CarrierQuotes("azimuth", seeded, zone, kg)
  {
    hide ServiceQuote;
    hide UsableService;
    hide SameService;
    hide CarrierQuotes;
    QuoteMembers(services, zone, kg, q);
    QuoteMembers(seeded, zone, kg, q);
  }

  /** However the database orders the seeded services and their rows, the quotes are the built-in ones. */
  lemma AnyOrderQuotes(services: seq<Service>, zone: int, kg: real, q: Quote)
    requires IsZone(zone) && kg >= 0.0
    requires forall s :: s in services ==> exists t :: t in SEEDED && SameService(s, t)
    requires forall t :: t in SEEDED ==> exists s :: s in services && SameService(s, t)
    ensures Usable(services, zone)
    ensures q in CarrierQuotes("azimuth", services, zone, kg) <==> q in HardcodedList(zone, kg)
  {
    hide ServiceQuote;
    hide UsableService;
    hide HardcodedList;
    hide SameService;
    hide CarrierQuotes;
    SeededAgreesFromZero(zone, kg);
    var seeded := SEEDED;
    forall s, t | s in services && t in seeded && SameService(s, t)
      ensures UsableService(s, zone) && UsableService(t, zone)
      ensures ServiceQuote("azimuth", s, zone, kg) == ServiceQuote("azimuth", t, zone, kg)
    {
      UsableMember(seeded, t, zone);
      SeededAscends(t, zone);
      SameQuote(s, t, zone, kg);
    }
    SameMembers(services, seeded, zone, kg, q);
  }

  lemma UsableMember(services: seq<Service>, s: Service, zone: int)
    requires Usable(services, zone) && s in services
    ensures UsableService(s, zone)
  {
  }
}
