/**
 The break-even timeline (apps/web/src/App.tsx): which commitment is shown, in which month it has paid
 off, how far the chart reaches and whether it carries a marker.
 */
module BreakEven {
  import opened Wrappers
  import Money

  /** A provider's best commitment, when it has one, beside its on-demand price. */
  datatype Offer = Offer(onDemandMonthly: real, commitment: Option<Commitment>)

  datatype Commitment = Commitment(
    monthlyCostUsd: Option<real>,
    upfrontCostUsd: Option<real>,
    commitmentTermMonths: Option<int>,
    isThreeYear: bool)

  /** The amounts are rounded to cents; the months are reckoned with the exact ones. */
  datatype Timeline = Timeline(
    horizonMonths: int,
    breakEvenMonth: int,
    yMax: real,
    onDemandMonthly: real,
    committedMonthly: real,
    monthlySavings: real,
    upfront: real,
    marker: Option<int>)

  const LONGEST_HORIZON := 36
  const SHORTEST_HORIZON := 12

  function Ceil(x: real): int {
    -((-x).Floor)
  }

  function Max(a: int, b: int): int {
    if a < b then b else a
  }

  function Min(a: int, b: int): int {
    if a < b then a else b
  }

  predicate Saves(offer: Offer) {
    && offer.commitment.Some?
    && offer.commitment.value.monthlyCostUsd.Some?
    && offer.onDemandMonthly > offer.commitment.value.monthlyCostUsd.value
  }

  function Committed(offer: Offer): real
    requires Saves(offer)
  {
    offer.commitment.value.monthlyCostUsd.value
  }

  /** `filter(...).sort(by committed cost)[0]`; the sort is stable, so the first of equals wins. */
  function Selected(offers: seq<Offer>): (r: Option<Offer>)
    ensures r.Some? ==> Saves(r.value)
  {
    if offers == [] then None
    else
      var rest := Selected(offers[1..]);
      if !Saves(offers[0]) then rest
      else if rest.None? || Committed(offers[0]) <= Committed(rest.value) then Some(offers[0])
      else rest
  }

  function TermMonths(commitment: Commitment): int {
    match commitment.commitmentTermMonths
    case Some(months) => months
    case None => if commitment.isThreeYear then 36 else 12
  }

  function BreakEvenMonth(upfront: real, monthlySavings: real): int
    requires monthlySavings > 0.0
  {
    if upfront > 0.0 then Ceil(upfront / monthlySavings) else 0
  }

  function Upfront(offer: Offer): real
    requires Saves(offer)
  {
    match offer.commitment.value.upfrontCostUsd
    case Some(usd) => usd
    case None => 0.0
  }

  function MonthOf(offer: Offer): int
    requires Saves(offer)
  {
    BreakEvenMonth(Upfront(offer), offer.onDemandMonthly - Committed(offer))
  }

  function HorizonOf(offer: Offer): int
    requires Saves(offer)
  {
    Min(LONGEST_HORIZON, Max(Max(TermMonths(offer.commitment.value), MonthOf(offer)), SHORTEST_HORIZON))
  }

  /** What has been paid by a month. */
  function PaidBy(upfront: real, monthly: real, month: int): real {
    upfront + monthly * month as real
  }

  /** The height of the chart, before rounding. */
  function TopOf(offer: Offer): real
    requires Saves(offer)
  {
    var h := HorizonOf(offer);
    var onDemand, committed := PaidBy(0.0, offer.onDemandMonthly, h), PaidBy(Upfront(offer), Committed(offer), h);
    (if onDemand < committed then committed else onDemand) * 1.08
  }

  /** The timeline of the offer shown; rounding an amount that is out of range throws. */
  function BreakEvenTimeline(offers: seq<Offer>): Outcome<Option<Timeline>> {
    match Selected(offers)
    case None => Ok(None)
    case Some(offer) =>
      if offer.onDemandMonthly - Committed(offer) <= 0.0 then Ok(None)
      else
        var month, horizon := MonthOf(offer), HorizonOf(offer);
        var yMax := Money.RoundUsd(TopOf(offer), 2);
        var onDemand := Money.RoundUsd(offer.onDemandMonthly, 2);
        var committed := Money.RoundUsd(Committed(offer), 2);
        var savings := Money.RoundUsd(offer.onDemandMonthly - Committed(offer), 2);
        var upfront := Money.RoundUsd(Upfront(offer), 2);
        if yMax.Ok? && onDemand.Ok? && committed.Ok? && savings.Ok? && upfront.Ok? then
          Ok(Some(Timeline(horizon, month, yMax.value, onDemand.value, committed.value, savings.value, upfront.value,
                           if month > 0 && month <= horizon then Some(month) else None)))
        else RangeError
  }

  // ---- What the chart means ---------------------------------------------------------

  /** After m months the commitment has cost no more than paying on demand. */
  predicate PaidOff(onDemandMonthly: real, committedMonthly: real, upfront: real, m: int) {
    PaidBy(upfront, committedMonthly, m) <= PaidBy(0.0, onDemandMonthly, m)
  }

  /** Offer i saves money, nothing cheaper saves, and nothing as cheap comes before it. */
  ghost predicate IsFirstCheapest(offers: seq<Offer>, i: int) {
    && 0 <= i < |offers|
    && Saves(offers[i])
    && forall j :: 0 <= j < |offers| && Saves(offers[j]) ==>
         Committed(offers[i]) <= Committed(offers[j]) && (j < i ==> Committed(offers[i]) < Committed(offers[j]))
  }

  /** The offer shown is the first of the cheapest commitments that save money; none is shown exactly when none
      saves. */
  lemma {:induction false} SelectedIsFirstCheapest(offers: seq<Offer>)
    ensures Selected(offers).None? <==> forall i :: 0 <= i < |offers| ==> !Saves(offers[i])
    ensures Selected(offers).Some? ==>
              exists i :: IsFirstCheapest(offers, i) && offers[i] == Selected(offers).value
  {
    if offers != [] {
      var rest := offers[1..];
      SelectedIsFirstCheapest(rest);
      if Selected(offers).Some? {
        if Saves(offers[0]) && (Selected(rest).None? || Committed(offers[0]) <= Committed(Selected(rest).value)) {
          assert IsFirstCheapest(offers, 0);
        } else {
          var i :| IsFirstCheapest(rest, i) && rest[i] == Selected(rest).value;
          assert IsFirstCheapest(offers, i + 1);
        }
      } else {
        assert forall i :: 0 < i < |offers| ==> offers[i] == rest[i - 1];
      }
    }
  }

  /** With positive savings, being paid off is a threshold on the month. */
  lemma PaidOffThreshold(onDemandMonthly: real, committedMonthly: real, upfront: real, m: int)
    requires onDemandMonthly > committedMonthly
    ensures PaidOff(onDemandMonthly, committedMonthly, upfront, m) <==>
            m as real >= upfront / (onDemandMonthly - committedMonthly)
  {
    var s, x := onDemandMonthly - committedMonthly, m as real;
    var q := upfront / s;
    assert q * s == upfront;
    assert onDemandMonthly * x - committedMonthly * x == x * s;
    if x >= q {
      Money.ProductOrder(q, x, s);
    } else {
      Money.ProductOrder(x, q, s);
      assert (q - x) * s > 0.0;
    }
  }

  /** The break-even month is the first month, from 0 on, in which the commitment has paid off,
      and it stays paid off ever after. */
  lemma BreakEvenMonthIsLeast(onDemandMonthly: real, committedMonthly: real, upfront: real, m: nat)
    requires onDemandMonthly > committedMonthly
    ensures BreakEvenMonth(upfront, onDemandMonthly - committedMonthly) >= 0
    ensures PaidOff(onDemandMonthly, committedMonthly, upfront, m) <==>
            m >= BreakEvenMonth(upfront, onDemandMonthly - committedMonthly)
  {
    var s := onDemandMonthly - committedMonthly;
    var q := upfront / s;
    PaidOffThreshold(onDemandMonthly, committedMonthly, upfront, m);
    assert q * s == upfront;
    assert upfront > 0.0 ==> q > 0.0;
    assert upfront <= 0.0 ==> q <= 0.0;
  }

  /** The timeline shows a month that means what it says of the offer's exact prices; the horizon stays within 12 to
      36 months and covers the pay-off whenever 36 months can; the marker is there exactly when the first pay-off falls
      in months 1 to 36. */
  lemma TimelineIsTruthful(offers: seq<Offer>, offer: Offer, t: Timeline, m: nat)
    requires Selected(offers) == Some(offer) && BreakEvenTimeline(offers) == Ok(Some(t))
    ensures var onDemand, commitment := offer.onDemandMonthly, offer.commitment.value;
            var committed := commitment.monthlyCostUsd.value;
            var upfront := if commitment.upfrontCostUsd.Some? then commitment.upfrontCostUsd.value else 0.0;
            && (PaidOff(onDemand, committed, upfront, m) <==> m >= t.breakEvenMonth)
            && t.breakEvenMonth >= 0 && SHORTEST_HORIZON <= t.horizonMonths <= LONGEST_HORIZON
            && (t.breakEvenMonth <= t.horizonMonths || t.horizonMonths == LONGEST_HORIZON)
            && t.marker == (if 0 < t.breakEvenMonth <= LONGEST_HORIZON then Some(t.breakEvenMonth) else None)
            && (t.marker.Some? <==>
                  !PaidOff(onDemand, committed, upfront, 0) && PaidOff(onDemand, committed, upfront, LONGEST_HORIZON))
  {
    hide Money.RoundUsd;
    BreakEvenMonthIsLeast(offer.onDemandMonthly, Committed(offer), Upfront(offer), m);
    BreakEvenMonthIsLeast(offer.onDemandMonthly, Committed(offer), Upfront(offer), 0);
    BreakEvenMonthIsLeast(offer.onDemandMonthly, Committed(offer), Upfront(offer), LONGEST_HORIZON);
  }

  /** The horizon is the shortest of 12 to 36 months that covers both the term and the pay-off, or 36 when none does. */
  lemma HorizonIsShortest(offers: seq<Offer>, offer: Offer, t: Timeline, h: int)
    requires Selected(offers) == Some(offer) && BreakEvenTimeline(offers) == Ok(Some(t))
    requires SHORTEST_HORIZON <= h <= LONGEST_HORIZON
    ensures var commitment := offer.commitment.value;
            h >= t.horizonMonths <==>
            || h == LONGEST_HORIZON
            || (&& h >= t.breakEvenMonth
                && (commitment.commitmentTermMonths.Some? ==> h >= commitment.commitmentTermMonths.value)
                && (commitment.commitmentTermMonths.None? && commitment.isThreeYear ==> h >= 36))
  {
    hide Money.RoundUsd;
  }

  /** Two amounts that are the same up to rounding to cents. */
  predicate SameToTheCent(shown: real, exact: real) {
    Money.Abs(shown - exact) <= 0.0050005
  }

  /** Every amount shown is the exact one to the cent; so the savings shown are within a cent and a half of the
      difference of the prices shown. */
  lemma AmountsAreShown(offers: seq<Offer>, offer: Offer, t: Timeline)
    requires Selected(offers) == Some(offer) && BreakEvenTimeline(offers) == Ok(Some(t))
    ensures SameToTheCent(t.onDemandMonthly, offer.onDemandMonthly)
    ensures var commitment := offer.commitment.value;
            && SameToTheCent(t.committedMonthly, commitment.monthlyCostUsd.value)
            && SameToTheCent(t.monthlySavings, offer.onDemandMonthly - commitment.monthlyCostUsd.value)
            && SameToTheCent(t.upfront,
                             if commitment.upfrontCostUsd.Some? then commitment.upfrontCostUsd.value else 0.0)
    ensures Money.Abs(t.monthlySavings - (t.onDemandMonthly - t.committedMonthly)) <= 0.0150015
    ensures t.monthlySavings >= 0.0 && t.onDemandMonthly >= t.committedMonthly
  {
    hide Money.RoundUsd;
    Money.CentsError(offer.onDemandMonthly, t.onDemandMonthly);
    Money.CentsError(Committed(offer), t.committedMonthly);
    Money.CentsError(offer.onDemandMonthly - Committed(offer), t.monthlySavings);
    Money.CentsError(Upfront(offer), t.upfront);
    Money.RoundUsdIsMonotone(Committed(offer), offer.onDemandMonthly, 2);
    NothingIsNothing();
    Money.RoundUsdIsMonotone(0.0, offer.onDemandMonthly - Committed(offer), 2);
  }

  /** Half a cent apart, a chart of this height shows both amounts, and is no more than 8 percent higher than the higher
      of the two amounts it ends with. */
  predicate ShowsBoth(yMax: real, onDemand: real, committed: real, onDemandEnd: real, committedEnd: real) {
    && onDemand <= yMax + 0.0050005
    && committed <= yMax + 0.0050005
    && (yMax <= onDemandEnd * 1.08 + 0.0050005 || yMax <= committedEnd * 1.08 + 0.0050005)
  }

  /** The chart is high enough for both lines in every month it shows, and not much higher. */
  lemma ChartIsHighEnough(offers: seq<Offer>, offer: Offer, t: Timeline, m: nat)
    requires Selected(offers) == Some(offer) && BreakEvenTimeline(offers) == Ok(Some(t))
    requires offer.commitment.value.monthlyCostUsd.value >= 0.0 && m <= t.horizonMonths
    ensures var onDemand, commitment, end := offer.onDemandMonthly, offer.commitment.value, t.horizonMonths;
            var committed := commitment.monthlyCostUsd.value;
            var upfront := if commitment.upfrontCostUsd.Some? then commitment.upfrontCostUsd.value else 0.0;
            ShowsBoth(t.yMax, PaidBy(0.0, onDemand, m), PaidBy(upfront, committed, m),
                      PaidBy(0.0, onDemand, end), PaidBy(upfront, committed, end))
  {
    hide Money.RoundUsd, MonthOf, HorizonOf, ShowsBoth, SameToTheCent, PaidBy;
    var onDemand, committed, upfront, end := offer.onDemandMonthly, Committed(offer), Upfront(offer), t.horizonMonths;
    TopIsToTheCent(offer, t.yMax);
    PaidByRises(0.0, onDemand, m, end);
    PaidByRises(upfront, committed, m, end);
    TopShowsBoth(t.yMax, TopOf(offer), PaidBy(0.0, onDemand, m), PaidBy(upfront, committed, m),
                 PaidBy(0.0, onDemand, end), PaidBy(upfront, committed, end));
  }

  lemma TopIsToTheCent(offer: Offer, yMax: real)
    requires Saves(offer) && Money.RoundUsd(TopOf(offer), 2) == Ok(yMax)
    ensures SameToTheCent(yMax, TopOf(offer))
  {
    hide TopOf;
    Money.CentsError(TopOf(offer), yMax);
  }

  lemma TopShowsBoth(
    yMax: real, top: real, onDemand: real, committed: real, onDemandEnd: real, committedEnd: real)
    requires onDemand <= onDemandEnd && committed <= committedEnd && onDemandEnd >= 0.0
    requires top == (if onDemandEnd < committedEnd then committedEnd else onDemandEnd) * 1.08
    requires SameToTheCent(yMax, top)
    ensures ShowsBoth(yMax, onDemand, committed, onDemandEnd, committedEnd)
  {
  }

  lemma PaidByRises(upfront: real, monthly: real, month: nat, end: int)
    requires monthly >= 0.0 && month <= end
    ensures upfront <= PaidBy(upfront, monthly, month) <= PaidBy(upfront, monthly, end)
  {
    Money.ProductOrder(0.0, month as real, monthly);
    Money.ProductOrder(month as real, end as real, monthly);
    assert month as real * monthly == monthly * month as real && end as real * monthly == monthly * end as real;
  }

  lemma NothingIsNothing()
    ensures Money.RoundUsd(0.0, 2) == Ok(0.0)
  {
  }

  /** A timeline appears exactly when some provider's commitment is cheaper than its on-demand price and all amounts
      are in range; there is an error exactly when one is not, and no timeline exactly when nothing saves. */
  lemma TimelineAppears(offers: seq<Offer>)
    ensures BreakEvenTimeline(offers) == Ok(None) <==> forall i :: 0 <= i < |offers| ==> !Saves(offers[i])
    ensures BreakEvenTimeline(offers) == RangeError <==>
            && Selected(offers).Some?
            && var offer := Selected(offers).value;
               !(&& Money.InRange(TopOf(offer))
                 && Money.InRange(offer.onDemandMonthly)
                 && Money.InRange(Committed(offer))
                 && Money.InRange(offer.onDemandMonthly - Committed(offer))
                 && Money.InRange(Upfront(offer)))
  {
    hide TopOf, MonthOf, HorizonOf, Money.MicrosOf, Money.Units, Money.Shift;
    SelectedIsFirstCheapest(offers);
  }
}
