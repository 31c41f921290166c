/**
 Decimal rounding, and the commission arithmetic of `backend/app/modules/commissions/markup.py`
 and of `CommissionsService._calculate`.  Money is whole cents; rates and unrounded amounts are
 exact reals.
 */
module Markup {
  import opened Prelude

  /** `Decimal.quantize` with the default rounding: the nearest integer, a tie going to the even one. */
  function RoundHalfEven(x: real): (n: int)
    ensures n as real - 0.5 <= x <= n as real + 0.5
    ensures x == n as real + 0.5 || x == n as real - 0.5 ==> n % 2 == 0
  {
    var f := x.Floor;
    var d := x - f as real;
    if d < 0.5 then f else if d > 0.5 then f + 1 else if f % 2 == 0 then f else f + 1
  }

  /** The two clauses above leave one integer only. */
  lemma RoundIsUnique(x: real, n: int)
    requires n as real - 0.5 <= x <= n as real + 0.5
    requires x == n as real + 0.5 || x == n as real - 0.5 ==> n % 2 == 0
    ensures n == RoundHalfEven(x)
  {
  }

  lemma RoundMonotone(x: real, y: real)
    requires x <= y
    ensures RoundHalfEven(x) <= RoundHalfEven(y)
  {
  }

  lemma RoundWhole(n: int)
    ensures RoundHalfEven(n as real) == n
  {
  }

  datatype CommissionType = Percentage | Fixed | Combined | Unknown(name: string)

  /** One `carrier_commission_configs` row; both numbers may be NULL. */
  datatype Config = Config(kind: CommissionType, rate: Option<real>, fixed: Option<int>) {
    function Rate(): real {
      if rate.Some? then rate.value else 0.0
    }

    function FixedAmount(): int {
      if fixed.Some? then fixed.value else 0
    }
  }

  function Share(price: int, rate: real): real {
    price as real * rate
  }

  function Percent(price: int, rate: real): int {
    RoundHalfEven(Share(price, rate))
  }

  function Both(price: int, rate: real, fixed: int): int {
    RoundHalfEven(Share(price, rate) + fixed as real)
  }

  /** `MarkupCalculator.markup_for` for a carrier whose config is `config`. */
  function ConfiguredMarkup(config: Config, price: int): int {
    match config.kind
    case Percentage => Percent(price, config.Rate())
    case Fixed => config.FixedAmount()
    case Combined => Both(price, config.Rate(), config.FixedAmount())
    case Unknown(_) => 0
  }

  datatype MarkupCalculator = MarkupCalculator(perCarrier: map<string, Config>, globalRate: real) {
    function MarkupFor(carrier: string, price: int): int {
      if carrier !in perCarrier then Percent(price, globalRate) else ConfiguredMarkup(perCarrier[carrier], price)
    }

    predicate NonNegative() {
      && globalRate >= 0.0
      && forall c :: c in perCarrier ==> perCarrier[c].Rate() >= 0.0 && perCarrier[c].FixedAmount() >= 0
    }
  }

  /** `CommissionsService._calculate`: every kind but the first two is taken as combined. */
  function Calculate(gross: int, kind: CommissionType, rate: real, fixed: int): int {
    match kind
    case Percentage => Percent(gross, rate)
    case Fixed => fixed
    case _ => Both(gross, rate, fixed)
  }

  /** What a kind of commission asks for before rounding; an unknown kind is the ledger's combined one. */
  function ExactShare(amount: int, kind: CommissionType, rate: real, fixed: int): real {
    (if kind == Fixed then 0.0 else amount as real * rate) + (if kind == Percentage then 0.0 else fixed as real)
  }

  /** Both calculators round that to whole cents; a fixed commission is exact. */
  lemma CalculatedExactly(amount: int, kind: CommissionType, rate: real, fixed: int)
    ensures var m := Calculate(amount, kind, rate, fixed);
            m as real - 0.5 <= ExactShare(amount, kind, rate, fixed) <= m as real + 0.5 && (kind == Fixed ==> m == fixed)
  {
  }

  lemma ConfiguredExactly(config: Config, price: int)
    ensures var m, exact := ConfiguredMarkup(config, price), ExactShare(price, config.kind, config.Rate(), config.FixedAmount());
            if config.kind.Unknown? then m == 0
            else m as real - 0.5 <= exact <= m as real + 0.5 && (config.kind == Fixed ==> m == config.FixedAmount())
  {
  }

  /**
   The two calculators agree on every known kind; on any other they agree exactly when the combined
   amount is at most half a cent away from nothing.
   */
  lemma CalculateAgrees(config: Config, price: int)
    ensures Calculate(price, config.kind, config.Rate(), config.FixedAmount()) == ConfiguredMarkup(config, price)
            <==> (config.kind.Unknown? ==>
                    -0.5 <= price as real * config.Rate() + config.FixedAmount() as real <= 0.5)
  {
  }

  lemma ShareMonotone(a: int, b: int, r: real, q: real)
    requires a <= b && 0.0 <= r <= q && 0 <= b
    ensures Share(a, r) <= Share(b, q)
  {
    assert a as real * r <= b as real * r;
    assert b as real * r <= b as real * q;
  }

  lemma ShareOfNothing(rate: real, price: int)
    ensures Share(0, rate) == 0.0 && Share(price, 1.0) == price as real
  {
  }

  lemma PercentBounds(price: int, rate: real)
    requires 0 <= price && 0.0 <= rate <= 1.0
    ensures 0 <= Percent(price, rate) <= price
  {
    hide Share;
    hide RoundHalfEven;
    ShareOfNothing(rate, price);
    ShareMonotone(0, price, rate, rate);
    ShareMonotone(price, price, rate, 1.0);
    RoundWhole(0);
    RoundWhole(price);
    RoundMonotone(0.0, Share(price, rate));
    RoundMonotone(Share(price, rate), price as real);
  }

  /** A percentage markup is off by at most half a cent, and stays between nothing and the price. */
  lemma PercentageMarkup(markups: MarkupCalculator, carrier: string, price: int, rate: real)
    requires carrier in markups.perCarrier ==>
               markups.perCarrier[carrier].kind == Percentage && markups.perCarrier[carrier].Rate() == rate
    requires carrier !in markups.perCarrier ==> markups.globalRate == rate
    ensures var m := markups.MarkupFor(carrier, price);
            && m as real - 0.5 <= price as real * rate <= m as real + 0.5
            && (0 <= price && 0.0 <= rate <= 1.0 ==> 0 <= m <= price)
  {
    if 0 <= price && 0.0 <= rate <= 1.0 {
      PercentBounds(price, rate);
    }
  }

  lemma RoundedSums(x: real, y: real, fixed: int)
    requires 0.0 <= x <= y && 0 <= fixed
    ensures 0 <= RoundHalfEven(x + fixed as real) <= RoundHalfEven(y + fixed as real)
    ensures 0 <= RoundHalfEven(x) <= RoundHalfEven(y)
  {
    hide RoundHalfEven;
    RoundWhole(0);
    RoundMonotone(0.0, x);
    RoundMonotone(x, y);
    RoundMonotone(0.0, x + fixed as real);
    RoundMonotone(x + fixed as real, y + fixed as real);
  }

  lemma BothMonotone(p: int, q: int, rate: real, fixed: int)
    requires 0 <= p <= q && 0.0 <= rate && 0 <= fixed
    ensures 0 <= Both(p, rate, fixed) <= Both(q, rate, fixed)
    ensures 0 <= Percent(p, rate) <= Percent(q, rate)
  {
    hide Share;
    hide RoundHalfEven;
    ShareOfNothing(rate, p);
    ShareMonotone(0, p, rate, rate);
    ShareMonotone(p, q, rate, rate);
    RoundedSums(Share(p, rate), Share(q, rate), fixed);
  }

  /** A dearer carrier price never gets a smaller markup, so the customer's total never falls. */
  lemma MarkupMonotone(markups: MarkupCalculator, carrier: string, p: int, q: int)
    requires markups.NonNegative() && 0 <= p <= q
    ensures 0 <= markups.MarkupFor(carrier, p) <= markups.MarkupFor(carrier, q)
  {
    if carrier in markups.perCarrier {
      var config := markups.perCarrier[carrier];
      BothMonotone(p, q, config.Rate(), config.FixedAmount());
    } else {
      BothMonotone(p, q, markups.globalRate, 0);
    }
  }
}
