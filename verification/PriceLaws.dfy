/** What a customer may expect of a quote: more weight, more pieces, more size or a farther zone never costs less. */
module PriceLaws {
  import opened Prelude
  import opened Tariff
  import opened Markup

  // ---- chargeable weight ----

  predicate IsHalfStep(x: real) {
    (2.0 * x).Floor as real == 2.0 * x
  }

  /**
   The chargeable weight is the least half-kilo step that covers both the actual and the volumetric weight, a
   kilogram to six litres.
   */
  lemma ChargeableIsLeast(weight: real, quantity: nat, width: real, height: real, depth: real, step: real)
    ensures var kg := ChargeableWeight(weight, quantity, width, height, depth);
            var actual, volume := weight * quantity as real, width * height * depth / 6000.0 * quantity as real;
            && IsHalfStep(kg) && actual <= kg && volume <= kg
            && (IsHalfStep(step) && actual <= step && volume <= step ==> kg <= step)
  {
    hide RoundUpToHalf;
    hide IsHalfStep;
    HalfStepIsLeast(BillableWeight(weight, Volumetric(width, height, depth), quantity), step);
  }

  lemma HalfStepIsLeast(need: real, step: real)
    ensures IsHalfStep(RoundUpToHalf(need)) && need <= RoundUpToHalf(need)
    ensures IsHalfStep(step) && need <= step ==> RoundUpToHalf(need) <= step
  {
    var n := Ceil(need * 2.0);
    assert 2.0 * RoundUpToHalf(need) == n as real;
    if IsHalfStep(step) && need <= step {
      var m := (2.0 * step).Floor;
      assert (n - m) as real < 1.0;
    }
  }

  lemma Product(a: real, b: real, c: real, d: real)
    requires 0.0 <= a <= b && 0.0 <= c <= d
    ensures 0.0 <= a * c <= b * d
  {
    assert a * c <= b * c;
    assert b * c <= b * d;
  }

  /** A parcel: pieces alike, sizes in centimetres. */
  datatype Parcel = Parcel(weight: real, quantity: nat, width: real, height: real, depth: real) {
    function Kg(): real {
      ChargeableWeight(weight, quantity, width, height, depth)
    }

    predicate Fits(p: Parcel) {
      && 0.0 <= weight <= p.weight && quantity <= p.quantity
      && 0.0 <= width <= p.width && 0.0 <= height <= p.height && 0.0 <= depth <= p.depth
    }
  }

  lemma VolumetricMonotone(p: Parcel, q: Parcel)
    requires p.Fits(q)
    ensures 0.0 <= Volumetric(p.width, p.height, p.depth) <= Volumetric(q.width, q.height, q.depth)
  {
    Product(p.width, q.width, p.height, q.height);
    var a, b := p.width * p.height, q.width * q.height;
    Product(a, b, p.depth, q.depth);
    Divided(a * p.depth, b * q.depth);
  }

  lemma Divided(a: real, b: real)
    requires 0.0 <= a <= b
    ensures 0.0 <= a / VOLUMETRIC_DIVISOR <= b / VOLUMETRIC_DIVISOR
  {
  }

  lemma HalfStepMonotone(x: real, y: real)
    requires 0.0 <= x <= y
    ensures 0.0 <= RoundUpToHalf(x) <= RoundUpToHalf(y)
  {
    CeilMonotone(0.0, x * 2.0);
    CeilMonotone(x * 2.0, y * 2.0);
  }

  lemma ChargeableMonotone(p: Parcel, q: Parcel)
    requires p.Fits(q)
    ensures 0.0 <= p.Kg() <= q.Kg()
  {
    hide RoundUpToHalf;
    hide Volumetric;
    hide BillableWeight;
    VolumetricMonotone(p, q);
    var v, w := Volumetric(p.width, p.height, p.depth), Volumetric(q.width, q.height, q.depth);
    BillableMonotone(p.weight, v, p.quantity, q.weight, w, q.quantity);
    HalfStepMonotone(BillableWeight(p.weight, v, p.quantity), BillableWeight(q.weight, w, q.quantity));
  }

  lemma BillableMonotone(a: real, v: real, m: nat, b: real, w: real, n: nat)
    requires 0.0 <= a <= b && 0.0 <= v <= w && m <= n
    ensures 0.0 <= BillableWeight(a, v, m) <= BillableWeight(b, w, n)
  {
    Product(a, b, m as real, n as real);
    Product(v, w, m as real, n as real);
  }

  lemma ScaledBillable(weight: real, volumetric: real, n: nat)
    ensures BillableWeight(weight, volumetric, n) == BillableWeight(weight, volumetric, 1) * n as real
  {
  }

  lemma ScaledCeil(x: real, n: nat)
    ensures Ceil(x * n as real) <= n * Ceil(x)
  {
    assert x * n as real <= Ceil(x) as real * n as real;
    assert Ceil(x) as real * n as real == (n * Ceil(x)) as real;
  }

  lemma ScaledHalfStep(x: real, n: nat)
    ensures RoundUpToHalf(x * n as real) <= n as real * RoundUpToHalf(x)
  {
    var y, z := x * 2.0, x * n as real;
    ScaledCeil(y, n);
    assert z * 2.0 == y * n as real;
    var whole := n as real * Ceil(y) as real;
    assert (n * Ceil(y)) as real == whole;
    assert RoundUpToHalf(z) == Ceil(z * 2.0) as real / 2.0 <= whole / 2.0;
    Halved(n as real, Ceil(y) as real);
    assert RoundUpToHalf(x) == Ceil(y) as real / 2.0;
    assert n as real * RoundUpToHalf(x) == whole / 2.0;
  }

  lemma Halved(a: real, b: real)
    ensures a * b / 2.0 == a * (b / 2.0)
  {
  }

  /** Several pieces together are never charged more than the same pieces one by one. */
  lemma TogetherIsNoDearer(weight: real, quantity: nat, width: real, height: real, depth: real)
    ensures ChargeableWeight(weight, quantity, width, height, depth)
         <= quantity as real * ChargeableWeight(weight, 1, width, height, depth)
  {
    hide RoundUpToHalf;
    hide Volumetric;
    hide BillableWeight;
    var v := Volumetric(width, height, depth);
    ScaledBillable(weight, v, quantity);
    var single := BillableWeight(weight, v, 1);
    ScaledHalfStep(single, quantity);
    assert BillableWeight(weight, v, quantity) == single * quantity as real;
    assert ChargeableWeight(weight, quantity, width, height, depth) == RoundUpToHalf(single * quantity as real);
    assert ChargeableWeight(weight, 1, width, height, depth) == RoundUpToHalf(single);
  }

  // ---- carrier prices ----

  lemma ExtraMonotone(base: int, extra: int, m: int, n: int)
    requires m <= n && 0 <= extra
    ensures base + m * extra <= base + n * extra
  {
  }

  lemma FirstFitMonotone(a: real, b: real)
    requires a <= b && FirstFit(b, 0) <= LAST
    ensures FirstFit(a, 0) <= FirstFit(b, 0)
  {
  }

  lemma FitsTable(kg: real)
    requires kg <= TABLE_END
    ensures FirstFit(kg, 0) <= LAST
  {
    assert STANDARD_RATES[LAST].upTo == TABLE_END;
  }

  lemma TablePriceMonotone(a: real, b: real, c: Column)
    requires a <= b
    ensures TablePrice(a, c) <= TablePrice(b, c)
  {
    if a <= TABLE_END {
      FitsTable(a);
    }
    if b <= TABLE_END {
      FitsTable(b);
      FirstFitMonotone(a, b);
      RatesOrdered(FirstFit(a, 0), FirstFit(b, 0));
    } else if a <= TABLE_END {
      RatesOrdered(FirstFit(a, 0), LAST);
      CeilMonotone(0.0, (b - TABLE_END) / 0.5);
      ExtraMonotone(STANDARD_RATES[LAST].Price(c), EXTRA_PER_HALF_KG.Price(c), 0, Ceil((b - TABLE_END) / 0.5));
    } else {
      CeilMonotone((a - TABLE_END) / 0.5, (b - TABLE_END) / 0.5);
      ExtraMonotone(STANDARD_RATES[LAST].Price(c), EXTRA_PER_HALF_KG.Price(c),
                    Ceil((a - TABLE_END) / 0.5), Ceil((b - TABLE_END) / 0.5));
    }
  }

  predicate NotDearer(c: Column, d: Column) {
    && EXTRA_PER_HALF_KG.Price(c) <= EXTRA_PER_HALF_KG.Price(d)
    && forall i :: 0 <= i < |STANDARD_RATES| ==> STANDARD_RATES[i].Price(c) <= STANDARD_RATES[i].Price(d)
  }

  lemma ZoneColumns(y: int, z: int)
    requires 0 <= y <= z <= 3
    ensures NotDearer(StandardColumn(y), StandardColumn(z))
    ensures NotDearer(ExpressColumn(y), ExpressColumn(z))
  {
  }

  lemma ColumnMonotone(kg: real, c: Column, d: Column)
    requires NotDearer(c, d)
    ensures TablePrice(kg, c) <= TablePrice(kg, d)
  {
    if kg > TABLE_END {
      var n := Ceil((kg - TABLE_END) / 0.5);
      assert n >= 0;
      assert n * EXTRA_PER_HALF_KG.Price(c) <= n * EXTRA_PER_HALF_KG.Price(d);
    }
  }

  lemma EconomyMonotone(a: real, b: real, y: int, z: int)
    requires a <= b && 1 <= y <= z <= 3
    ensures EconomyPrice(a, y) <= EconomyPrice(b, z)
  {
    var m := if a <= TABLE_END then 0 else Ceil(a - TABLE_END);
    var n := if b <= TABLE_END then 0 else Ceil(b - TABLE_END);
    if a > TABLE_END {
      CeilMonotone(a - TABLE_END, b - TABLE_END);
    }
    assert 0 <= m <= n;
    assert m * ECONOMY_EXTRA_PER_KG[y - 1] <= n * ECONOMY_EXTRA_PER_KG[y - 1] <= n * ECONOMY_EXTRA_PER_KG[z - 1];
  }

  // ---- what the customer pays ----

  /** Price list amounts are whole tenge; the markup works in cents. */
  function CustomerTotal(markups: MarkupCalculator, price: int): int {
    price * 100 + markups.MarkupFor("azimuth", price * 100)
  }

  lemma TotalMonotone(markups: MarkupCalculator, p: int, q: int)
    requires markups.NonNegative() && 0 <= p <= q
    ensures CustomerTotal(markups, p) <= CustomerTotal(markups, q)
  {
    MarkupMonotone(markups, "azimuth", p * 100, q * 100);
  }

  lemma TablePricePositive(kg: real, c: Column)
    ensures 0 <= TablePrice(kg, c)
  {
    RatesZones(0);
    RatesOrdered(0, if FirstFit(kg, 0) <= LAST then FirstFit(kg, 0) else LAST);
    RatesOrdered(0, LAST);
    if kg > TABLE_END {
      ExtraMonotone(STANDARD_RATES[LAST].Price(c), EXTRA_PER_HALF_KG.Price(c), 0, Ceil((kg - TABLE_END) / 0.5));
    }
  }

  /**
   A parcel that is no lighter, no smaller and has no fewer pieces, sent no nearer, is never cheaper for
   the customer: standard and express in every zone, economy between cities.
   */
  lemma MoreNeverCostsLess(p: Parcel, q: Parcel, y: int, z: int, markups: MarkupCalculator)
    requires p.Fits(q) && 0 <= y <= z <= 3 && markups.NonNegative()
    ensures CustomerTotal(markups, StandardQuote(y, p.Kg()).price) <= CustomerTotal(markups, StandardQuote(z, q.Kg()).price)
    ensures CustomerTotal(markups, ExpressQuote(y, p.Kg()).price) <= CustomerTotal(markups, ExpressQuote(z, q.Kg()).price)
    ensures 1 <= y ==>
              CustomerTotal(markups, EconomyQuote(y, p.Kg()).price) <= CustomerTotal(markups, EconomyQuote(z, q.Kg()).price)
  {
    hide TablePrice;
    hide EconomyPrice;
    hide CustomerTotal;
    var a, b := p.Kg(), q.Kg();
    ChargeableMonotone(p, q);
    ZoneColumns(y, z);
    TableStep(a, b, StandardColumn(y), StandardColumn(z), markups);
    TableStep(a, b, ExpressColumn(y), ExpressColumn(z), markups);
    if 1 <= y {
      EconomyMonotone(a, b, y, z);
      EconomyPositive(a, y);
      TotalMonotone(markups, EconomyPrice(a, y), EconomyPrice(b, z));
    }
  }

  lemma EconomyPositive(kg: real, zone: int)
    requires 1 <= zone <= 3
    ensures 0 <= EconomyPrice(kg, zone)
  {
    if kg > TABLE_END {
      ExtraMonotone(ECONOMY_BASE[zone - 1], ECONOMY_EXTRA_PER_KG[zone - 1], 0, Ceil(kg - TABLE_END));
    }
  }

  lemma TableStep(a: real, b: real, c: Column, d: Column, markups: MarkupCalculator)
    requires a <= b && NotDearer(c, d) && markups.NonNegative()
    ensures CustomerTotal(markups, TablePrice(a, c)) <= CustomerTotal(markups, TablePrice(b, d))
  {
    hide TablePrice;
    hide CustomerTotal;
    TablePriceMonotone(a, b, c);
    ColumnMonotone(b, c, d);
    TablePricePositive(a, c);
    TotalMonotone(markups, TablePrice(a, c), TablePrice(b, d));
  }
}
