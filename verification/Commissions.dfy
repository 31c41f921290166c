/**
 The double-entry commission ledger: rows of `commissions`, the amounts `record_commission`
 settles on, `reverse_for_order`, and the totals of `CommissionsRepository.summary`.
 A row's id is its position.
 */
module Commissions {
  import opened Prelude
  import opened Markup

  datatype RowStatus = Active | Reversed | Reversal

  datatype Row = Row(
    order: int, carrier: string, gross: int, rate: real, amount: int, currency: string,
    payout: Option<int>, status: RowStatus, reverses: Option<nat>, reason: Option<string>,
    reversedAt: Option<int>)

  /** What `record_commission` is told, and what it reads from the settings when not told. */
  datatype Terms = Terms(
    gross: int, currency: string, markup: Option<int>, payout: Option<int>,
    config: Option<Config>, globalRate: Option<real>, defaultRate: real)

  function EffectiveRate(t: Terms): real {
    if t.markup.Some? then
      if t.gross > 0 then RoundHalfEven(t.markup.value as real / t.gross as real * 10000.0) as real / 10000.0
      else 0.0
    else if t.config.Some? then t.config.value.Rate()
    else if t.globalRate.Some? then t.globalRate.value
    else t.defaultRate
  }

  function CommissionAmount(t: Terms): int {
    if t.markup.Some? then t.markup.value
    else if t.config.Some? then
      Calculate(t.gross, t.config.value.kind, t.config.value.Rate(), t.config.value.FixedAmount())
    else Percent(t.gross, EffectiveRate(t))
  }

  function RecordedRow(order: int, carrier: string, t: Terms): Row {
    var amount := CommissionAmount(t);
    var payout := if t.payout.Some? then t.payout.value else t.gross - amount;
    Row(order, carrier, t.gross, EffectiveRate(t), amount, t.currency, Some(payout), Active, None, None, None)
  }

  predicate IsActive(r: Row, order: int) {
    r.order == order && r.status == Active
  }

  /** `get_active_for_order`, taking the oldest row should there be several. */
  function FindActive(rows: seq<Row>, order: int): (found: Option<nat>)
    ensures found.Some? ==> found.value < |rows| && IsActive(rows[found.value], order)
    ensures found.None? ==> forall k :: 0 <= k < |rows| ==> !IsActive(rows[k], order)
  {
    if rows == [] then None
    else
      var n := |rows| - 1;
      var earlier := FindActive(rows[..n], order);
      if earlier.Some? then earlier else if IsActive(rows[n], order) then Some(n) else None
  }

  lemma {:induction false} FindActiveIsFirst(rows: seq<Row>, order: int, i: nat)
    requires i < |rows| && IsActive(rows[i], order)
    requires forall k :: 0 <= k < i ==> !IsActive(rows[k], order)
    ensures FindActive(rows, order) == Some(i)
  {
    if i < |rows| - 1 {
      FindActiveIsFirst(rows[..|rows| - 1], order, i);
    }
  }

  function MirrorRow(original: Row, id: nat, reason: string): Row {
    Row(original.order, original.carrier, -original.gross, original.rate, -original.amount, original.currency,
        if original.payout.Some? then Some(-original.payout.value) else None,
        Reversal, Some(id), Some(reason), None)
  }

  /** `reverse_for_order`. */
  function Reverse(rows: seq<Row>, order: int, reason: string, now: int): seq<Row> {
    match FindActive(rows, order)
    case None => rows
    case Some(i) =>
      rows[i := rows[i].(status := Reversed, reversedAt := Some(now), reason := Some(reason))]
      + [MirrorRow(rows[i], i, reason)]
  }

  // ---- totals ----

  datatype Measure = Gross | Commission | Payout | One | Tally

  datatype Filter = Filter(order: Option<int>, carrier: Option<string>, status: Option<RowStatus>)

  /** Payout is `coalesce(carrier_payout, gross_amount - commission_amount)`; Tally is the `count` delta. */
  function ValueOf(r: Row, m: Measure): int {
    match m
    case Gross => r.gross
    case Commission => r.amount
    case Payout => if r.payout.Some? then r.payout.value else r.gross - r.amount
    case One => 1
    case Tally => if r.status == Active then 1 else if r.status == Reversal then -1 else 0
  }

  predicate Matches(r: Row, f: Filter) {
    && (f.order.Some? ==> r.order == f.order.value)
    && (f.carrier.Some? ==> r.carrier == f.carrier.value)
    && (f.status.Some? ==> r.status == f.status.value)
  }

  function Weight(r: Row, m: Measure, f: Filter): int {
    if Matches(r, f) then ValueOf(r, m) else 0
  }

  function Total(rows: seq<Row>, m: Measure, f: Filter): int {
    if rows == [] then 0
    else Total(rows[..|rows| - 1], m, f) + Weight(rows[|rows| - 1], m, f)
  }

  datatype Summary = Summary(gross: int, payout: int, commission: int, count: int)

  /** `summary` without dates; an empty carrier code is no filter. */
  function Summarize(rows: seq<Row>, carrier: Option<string>): Summary {
    var f := Filter(None, if carrier == Some("") then None else carrier, None);
    Summary(Total(rows, Gross, f), Total(rows, Payout, f), Total(rows, Commission, f), Max(Total(rows, Tally, f), 0))
  }

  lemma {:induction false} TotalUpdate(rows: seq<Row>, i: nat, r: Row, m: Measure, f: Filter)
    requires i < |rows|
    ensures Total(rows[i := r], m, f) == Total(rows, m, f) - Weight(rows[i], m, f) + Weight(r, m, f)
  {
    var n := |rows| - 1;
    if i == n {
      assert rows[i := r][..n] == rows[..n];
    } else {
      TotalUpdate(rows[..n], i, r, m, f);
      assert rows[i := r][..n] == rows[..n][i := r];
    }
  }

  /** The rows a filter takes: those of the order, of the carrier, and in the status it names. */
  predicate Takes(f: Filter, r: Row) {
    && (f.order.None? || f.order.value == r.order) && (f.carrier.None? || f.carrier.value == r.carrier)
    && (f.status.None? || f.status.value == r.status)
  }

  /** A new row adds its own amounts to exactly the sums that take it; a legacy row pays out gross less commission. */
  lemma NewRowCounts(rows: seq<Row>, r: Row, f: Filter)
    ensures Total([], Gross, f) == Total([], Payout, f) == Total([], Commission, f) == Total([], Tally, f) == 0
    ensures Total(rows + [r], Gross, f) == Total(rows, Gross, f) + if Takes(f, r) then r.gross else 0
    ensures Total(rows + [r], Commission, f) == Total(rows, Commission, f) + if Takes(f, r) then r.amount else 0
    ensures Total(rows + [r], Payout, f) - Total(rows, Payout, f)
         == if !Takes(f, r) then 0 else if r.payout == None then r.gross - r.amount else r.payout.value
    ensures Total(rows + [r], Tally, f) - Total(rows, Tally, f)
         == if Takes(f, r) && r.status == Active then 1 else if Takes(f, r) && r.status == Reversal then -1 else 0
  {
    assert (rows + [r])[..|rows|] == rows;
  }

  /** The sum of the totals carrier by carrier. */
  function SumOver(rows: seq<Row>, m: Measure, f: Filter, carriers: seq<string>): int {
    if carriers == [] then 0
    else
      var n := |carriers| - 1;
      SumOver(rows, m, f, carriers[..n]) + Total(rows, m, f.(carrier := Some(carriers[n])))
  }

  lemma {:induction false} OneMoreRow(rows: seq<Row>, m: Measure, f: Filter, carriers: seq<string>)
    requires rows != [] && f.carrier == None
    requires forall i, j :: 0 <= i < j < |carriers| ==> carriers[i] != carriers[j]
    ensures SumOver(rows, m, f, carriers) == SumOver(rows[..|rows| - 1], m, f, carriers)
            + if rows[|rows| - 1].carrier in carriers then Weight(rows[|rows| - 1], m, f) else 0
  {
    if carriers != [] {
      var n := |carriers| - 1;
      OneMoreRow(rows, m, f, carriers[..n]);
      assert carriers == carriers[..n] + [carriers[n]];
      OwnCarrierOnly(rows, m, f, carriers[n]);
      hide Total;
      hide Weight;
    }
  }

  lemma OwnCarrierOnly(rows: seq<Row>, m: Measure, f: Filter, carrier: string)
    requires rows != [] && f.carrier == None
    ensures Total(rows, m, f.(carrier := Some(carrier))) == Total(rows[..|rows| - 1], m, f.(carrier := Some(carrier)))
            + if rows[|rows| - 1].carrier == carrier then Weight(rows[|rows| - 1], m, f) else 0
  {
  }

  /** Carrier by carrier the sums add up to the sum over all, if every row's carrier is there once. */
  lemma {:induction false} CarriersAddUp(rows: seq<Row>, m: Measure, f: Filter, carriers: seq<string>)
    requires f.carrier == None && forall i, j :: 0 <= i < j < |carriers| ==> carriers[i] != carriers[j]
    requires forall i :: 0 <= i < |rows| ==> rows[i].carrier in carriers
    ensures SumOver(rows, m, f, carriers) == Total(rows, m, f)
  {
    if rows == [] {
      NothingToAdd(m, f, carriers);
    } else {
      OneMoreRow(rows, m, f, carriers);
      CarriersAddUp(rows[..|rows| - 1], m, f, carriers);
    }
  }

  lemma {:induction false} NothingToAdd(m: Measure, f: Filter, carriers: seq<string>)
    ensures SumOver([], m, f, carriers) == 0
  {
    if carriers != [] {
      NothingToAdd(m, f, carriers[..|carriers| - 1]);
    }
  }

  /** The summary is over all rows without a carrier or with an empty one, else over the carrier's rows. */
  lemma SummaryOf(rows: seq<Row>, carrier: string)
    ensures Summarize(rows, Some("")) == Summarize(rows, None)
    ensures var s, f := Summarize(rows, Some(carrier)), Filter(None, if carrier == "" then None else Some(carrier), None);
            && s.gross == Total(rows, Gross, f) && s.payout == Total(rows, Payout, f)
            && s.commission == Total(rows, Commission, f)
            && (s.count == Total(rows, Tally, f) || (s.count == 0 && Total(rows, Tally, f) < 0))
  {
  }

  lemma {:induction false} TotalOfNothing(rows: seq<Row>, m: Measure, f: Filter)
    requires forall k :: 0 <= k < |rows| ==> !Matches(rows[k], f)
    ensures Total(rows, m, f) == 0
  {
    if rows != [] {
      TotalOfNothing(rows[..|rows| - 1], m, f);
    }
  }

  /** How one reversal moves any total. */
  lemma ReverseTotal(rows: seq<Row>, order: int, reason: string, now: int, m: Measure, f: Filter)
    requires FindActive(rows, order).Some?
    ensures var i := FindActive(rows, order).value;
            var closed := rows[i].(status := Reversed, reversedAt := Some(now), reason := Some(reason));
            Total(Reverse(rows, order, reason, now), m, f)
            == Total(rows, m, f) - Weight(rows[i], m, f) + Weight(closed, m, f)
               + Weight(MirrorRow(rows[i], i, reason), m, f)
  {
  }

  /**
   The order's first active row is closed, with reason and time, and its mirror image appended, all amounts
   negated; without an active row nothing changes.
   */
  ghost predicate ReversedOnce(rows: seq<Row>, after: seq<Row>, order: int, reason: string, now: int) {
    || (after == rows && forall i :: 0 <= i < |rows| ==> !IsActive(rows[i], order))
    || exists i :: 0 <= i < |rows| && ReversedAt(rows, after, order, reason, now, i)
  }

  ghost predicate ReversedAt(rows: seq<Row>, after: seq<Row>, order: int, reason: string, now: int, i: nat)
    requires i < |rows|
  {
    && rows[i].order == order && rows[i].status == Active
    && (forall k :: 0 <= k < i ==> !(rows[k].order == order && rows[k].status == Active))
    && |after| == |rows| + 1 && after[..|rows|] == rows[i := after[i]]
    && after[i] == rows[i].(status := Reversed, reversedAt := Some(now), reason := Some(reason))
    && var storno := after[|rows|];
       && storno.order == order && storno.carrier == rows[i].carrier && storno.currency == rows[i].currency
       && storno.rate == rows[i].rate && storno.gross + rows[i].gross == 0 && storno.amount + rows[i].amount == 0
       && (rows[i].payout == None ==> storno.payout == None)
       && (rows[i].payout != None ==> storno.payout == Some(-rows[i].payout.value))
       && storno.status == Reversal && storno.reverses == Some(i) && storno.reason == Some(reason)
       && storno.reversedAt == None
  }

  lemma ReverseIsOnce(rows: seq<Row>, order: int, reason: string, now: int)
    ensures ReversedOnce(rows, Reverse(rows, order, reason, now), order, reason, now)
  {
    if FindActive(rows, order).Some? {
      var i := FindActive(rows, order).value;
      FoundIsFirst(rows, order);
      assert ReversedAt(rows, Reverse(rows, order, reason, now), order, reason, now, i);
    }
  }

  lemma {:induction false} FoundIsFirst(rows: seq<Row>, order: int)
    requires FindActive(rows, order).Some?
    ensures forall k :: 0 <= k < FindActive(rows, order).value ==> !IsActive(rows[k], order)
  {
    if rows != [] && FindActive(rows[..|rows| - 1], order).Some? {
      FoundIsFirst(rows[..|rows| - 1], order);
    }
  }

  // ---- the ledger laws ----

  /** Row `j` is the storno of row `i`: same order and carrier, every amount negated. */
  predicate IsStornoOf(rows: seq<Row>, i: nat, j: nat)
    requires i < |rows| && j < |rows|
  {
    && i < j && rows[i].status == Reversed && rows[j].status == Reversal && rows[j].reverses == Some(i)
    && rows[j].order == rows[i].order && rows[j].carrier == rows[i].carrier
    && rows[j].currency == rows[i].currency
    && rows[j].gross == -rows[i].gross && rows[j].amount == -rows[i].amount
    && ValueOf(rows[j], Payout) == -ValueOf(rows[i], Payout)
  }

  /** Reversed rows and reversal rows correspond one to one. */
  ghost predicate Paired(rows: seq<Row>) {
    && (forall j :: 0 <= j < |rows| && rows[j].status == Reversal ==>
          rows[j].reverses.Some? && rows[j].reverses.value < |rows| && IsStornoOf(rows, rows[j].reverses.value, j))
    && (forall j, k :: 0 <= j < k < |rows| && rows[j].status == Reversal && rows[k].status == Reversal ==>
          rows[j].reverses != rows[k].reverses)
    && (forall i :: 0 <= i < |rows| && rows[i].status == Reversed ==>
          exists j :: 0 <= j < |rows| && IsStornoOf(rows, i, j))
  }

  predicate IsMoney(m: Measure) {
    m == Gross || m == Commission || m == Payout
  }

  /** All rows of an order and a carrier add up to what the active ones alone add up to. */
  ghost predicate Netted(rows: seq<Row>) {
    forall m, f: Filter :: IsMoney(m) && f.status == None ==>
      Total(rows, m, f) == Total(rows, m, f.(status := Some(Active)))
  }

  ghost predicate AtMostOneActive(rows: seq<Row>, order: int) {
    forall i, j :: 0 <= i < j < |rows| && IsActive(rows[i], order) ==> !IsActive(rows[j], order)
  }

  lemma ReverseKeepsNetted(rows: seq<Row>, order: int, reason: string, now: int)
    requires Netted(rows)
    ensures Netted(Reverse(rows, order, reason, now))
  {
    if FindActive(rows, order).Some? {
      forall m, f: Filter | IsMoney(m) && f.status == None
        ensures Total(Reverse(rows, order, reason, now), m, f)
             == Total(Reverse(rows, order, reason, now), m, f.(status := Some(Active)))
      {
        ReverseTotal(rows, order, reason, now, m, f);
        ReverseTotal(rows, order, reason, now, m, f.(status := Some(Active)));
      }
    }
  }

  lemma RecordKeepsNetted(rows: seq<Row>, r: Row)
    requires Netted(rows) && r.status == Active
    ensures Netted(rows + [r])
  {
  }

  lemma RecordKeepsPaired(rows: seq<Row>, r: Row)
    requires Paired(rows) && r.status == Active
    ensures Paired(rows + [r])
  {
    var after := rows + [r];
    forall i | 0 <= i < |after| && after[i].status == Reversed
      ensures exists j :: 0 <= j < |after| && IsStornoOf(after, i, j)
    {
      var j :| 0 <= j < |rows| && IsStornoOf(rows, i, j);
      assert IsStornoOf(after, i, j);
    }
  }

  lemma ReverseKeepsPaired(rows: seq<Row>, order: int, reason: string, now: int)
    requires Paired(rows)
    ensures Paired(Reverse(rows, order, reason, now))
  {
    var after := Reverse(rows, order, reason, now);
    if FindActive(rows, order).Some? {
      var a := FindActive(rows, order).value;
      assert IsStornoOf(after, a, |rows|);
      forall i | 0 <= i < |after| && after[i].status == Reversed
        ensures exists j :: 0 <= j < |after| && IsStornoOf(after, i, j)
      {
        if i != a {
          var j :| 0 <= j < |rows| && IsStornoOf(rows, i, j);
          assert IsStornoOf(after, i, j);
        }
      }
    }
  }

  /** Once its only active row is reversed, an order's money is zero in every column. */
  lemma ReversedOrderIsZero(rows: seq<Row>, order: int, reason: string, now: int, m: Measure)
    requires Netted(rows) && AtMostOneActive(rows, order) && IsMoney(m)
    ensures Total(Reverse(rows, order, reason, now), m, Filter(Some(order), None, None)) == 0
  {
    var after := Reverse(rows, order, reason, now);
    ReverseKeepsNetted(rows, order, reason, now);
    TotalOfNothing(after, m, Filter(Some(order), None, Some(Active)));
    assert Total(after, m, Filter(Some(order), None, None))
        == Total(after, m, Filter(Some(order), None, None).(status := Some(Active)));
  }

  lemma ReverseKeepsOtherOrders(rows: seq<Row>, order: int, reason: string, now: int, m: Measure, f: Filter)
    requires f.order.Some? && f.order.value != order
    ensures Total(Reverse(rows, order, reason, now), m, f) == Total(rows, m, f)
  {
    if FindActive(rows, order).Some? {
      ReverseTotal(rows, order, reason, now, m, f);
    }
  }

  /** A second reversal changes nothing exactly when the order had at most one active row. */
  lemma ReverseTwice(rows: seq<Row>, order: int, r1: string, t1: int, r2: string, t2: int)
    ensures Reverse(Reverse(rows, order, r1, t1), order, r2, t2) == Reverse(rows, order, r1, t1)
            <==> AtMostOneActive(rows, order)
  {
  }

  // ---- any sequence of ledger operations ----

  datatype Op = Record(order: int, carrier: string, terms: Terms) | Storno(order: int, reason: string, now: int)

  function Apply(rows: seq<Row>, op: Op): seq<Row> {
    match op
    case Record(order, carrier, terms) => rows + [RecordedRow(order, carrier, terms)]
    case Storno(order, reason, now) => Reverse(rows, order, reason, now)
  }

  function ApplyAll(ops: seq<Op>): seq<Row> {
    if ops == [] then [] else Apply(ApplyAll(ops[..|ops| - 1]), ops[|ops| - 1])
  }

  lemma {:induction false} LedgerLaw(ops: seq<Op>)
    ensures Paired(ApplyAll(ops)) && Netted(ApplyAll(ops))
  {
    if ops != [] {
      var before := ApplyAll(ops[..|ops| - 1]);
      LedgerLaw(ops[..|ops| - 1]);
      match ops[|ops| - 1]
      case Record(order, carrier, terms) =>
        RecordKeepsPaired(before, RecordedRow(order, carrier, terms));
        RecordKeepsNetted(before, RecordedRow(order, carrier, terms));
      case Storno(order, reason, now) =>
        ReverseKeepsPaired(before, order, reason, now);
        ReverseKeepsNetted(before, order, reason, now);
    }
  }

  predicate ConsistentTerms(t: Terms) {
    t.payout.Some? ==> t.payout.value == t.gross - CommissionAmount(t)
  }

  ghost predicate RowsSplit(rows: seq<Row>) {
    forall i :: 0 <= i < |rows| ==> rows[i].gross == ValueOf(rows[i], Payout) + rows[i].amount
  }

  lemma {:induction false} ConsistentTermsSplit(ops: seq<Op>)
    requires forall i :: 0 <= i < |ops| && ops[i].Record? ==> ConsistentTerms(ops[i].terms)
    ensures RowsSplit(ApplyAll(ops))
  {
    if ops != [] {
      ConsistentTermsSplit(ops[..|ops| - 1]);
    }
  }

  /** Turnover splits exactly into payout and commission over rows that each split. */
  lemma {:induction false} TurnoverSplits(rows: seq<Row>, f: Filter)
    requires RowsSplit(rows)
    ensures Total(rows, Gross, f) == Total(rows, Payout, f) + Total(rows, Commission, f)
  {
    if rows != [] {
      TurnoverSplits(rows[..|rows| - 1], f);
    }
  }

  lemma {:induction false} TallySplits(rows: seq<Row>, f: Filter)
    requires f.status == None
    ensures Total(rows, Tally, f)
         == Total(rows, One, f.(status := Some(Active))) - Total(rows, One, f.(status := Some(Reversal)))
    ensures Total(rows, One, f.(status := Some(Active))) >= 0
    ensures Total(rows, One, f.(status := Some(Reversal))) >= 0
  {
    if rows != [] {
      TallySplits(rows[..|rows| - 1], f);
    }
  }

  /**
   The reported `count` is the number of active rows exactly when nothing was ever reversed or
   nothing is active: an order reversed and another still active are counted as none.
   */
  lemma CountIsActiveRows(rows: seq<Row>, carrier: Option<string>)
    ensures var f := Filter(None, if carrier == Some("") then None else carrier, None);
            var active := Total(rows, One, f.(status := Some(Active)));
            var reversals := Total(rows, One, f.(status := Some(Reversal)));
            Summarize(rows, carrier).count == active <==> reversals == 0 || active == 0
  {
    TallySplits(rows, Filter(None, if carrier == Some("") then None else carrier, None));
  }

  /** The summary of any run is the summary of its active rows, and it splits. */
  lemma SummaryIsActive(ops: seq<Op>, carrier: Option<string>)
    requires forall i :: 0 <= i < |ops| && ops[i].Record? ==> ConsistentTerms(ops[i].terms)
    ensures var s := Summarize(ApplyAll(ops), carrier);
            var active := Filter(None, if carrier == Some("") then None else carrier, Some(Active));
            && s.gross == Total(ApplyAll(ops), Gross, active)
            && s.payout == Total(ApplyAll(ops), Payout, active)
            && s.commission == Total(ApplyAll(ops), Commission, active)
            && s.gross == s.payout + s.commission
  {
    var f := Filter(None, if carrier == Some("") then None else carrier, None);
    var rows := ApplyAll(ops);
    LedgerLaw(ops);
    ConsistentTermsSplit(ops);
    TurnoverSplits(rows, f);
    assert forall m :: IsMoney(m) ==> Total(rows, m, f) == Total(rows, m, f.(status := Some(Active)));
  }

  // ---- from quote to ledger ----

  /**
   Recording what the customer was quoted pays the carrier exactly its price, and stores a rate
   within half a unit of the fourth decimal.
   */
  lemma QuoteToLedger(order: int, carrier: string, price: int, markups: MarkupCalculator, currency: string, terms: Terms)
    requires terms.gross == price + markups.MarkupFor(carrier, price)
    requires terms.markup == Some(markups.MarkupFor(carrier, price)) && terms.payout == None
    ensures var r := RecordedRow(order, carrier, terms);
            && r.payout == Some(price)
            && r.amount == markups.MarkupFor(carrier, price)
            && (r.gross > 0 ==>
                  r.rate - 0.00005 <= r.amount as real / r.gross as real <= r.rate + 0.00005)
  {
  }

  /**
   Without the stored markup the commission is taken on the customer's total instead of the
   carrier's price, so a non-negative config never pays the carrier more than its price.
   */
  lemma FallbackNeverOverpays(order: int, carrier: string, price: int, config: Config, terms: Terms)
    requires 0 <= price && config.Rate() >= 0.0 && config.FixedAmount() >= 0 && !config.kind.Unknown?
    requires terms.gross == price + ConfiguredMarkup(config, price)
    requires terms.markup == None && terms.payout == None && terms.config == Some(config)
    ensures RecordedRow(order, carrier, terms).payout.value <= price
  {
    BothMonotone(0, price, config.Rate(), config.FixedAmount());
    BothMonotone(price, price, config.Rate(), config.FixedAmount());
    BothMonotone(price, terms.gross, config.Rate(), config.FixedAmount());
  }
}
