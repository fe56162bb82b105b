/**
 Fixed-point dollars (apps/api/src/money.ts).

 Dollars are exact reals; every operation first moves to whole micro-dollars.
 A RangeError is an `Outcome` the caller sees.
 */
module Money {
  import opened Wrappers

  const MICROS_PER_USD := 1_000_000.0
  const MAX_SAFE_INTEGER := 9_007_199_254_740_991
  const MAX_ABS_USD := MAX_SAFE_INTEGER as real / MICROS_PER_USD

  function Abs(x: real): real {
    if x < 0.0 then -x else x
  }

  /** JavaScript's Math.round: halves go up. */
  function MathRound(x: real): int {
    (x + 0.5).Floor
  }

  /** Math.sign(x) * Math.round(Math.abs(x)): halves go away from zero. */
  function RoundHalfAway(x: real): int {
    if x < 0.0 then -MathRound(-x) else MathRound(x)
  }

  predicate InRange(usd: real) {
    Abs(usd) <= MAX_ABS_USD
  }

  /** Whole micro-dollars, before the range check. */
  function MicrosOf(usd: real): int {
    RoundHalfAway(usd * MICROS_PER_USD)
  }

  function ToMicros(usd: real): Outcome<int> {
    if InRange(usd) then Ok(MicrosOf(usd)) else RangeError
  }

  function FromMicros(micros: int): real {
    micros as real / MICROS_PER_USD
  }

  /** x / 10 ** n, for the exponents 0 to 6 that the code uses. */
  function Shift(x: real, n: nat): real
    requires n <= 6
  {
    match n
    case 0 => x
    case 1 => x / 10.0
    case 2 => x / 100.0
    case 3 => x / 1000.0
    case 4 => x / 10000.0
    case 5 => x / 100000.0
    case 6 => x / 1000000.0
  }

  /** The number of 10^-decimals units nearest to `micros`. */
  function Units(micros: int, decimals: nat): int
    requires decimals <= 6
  {
    RoundHalfAway(Shift(micros as real, 6 - decimals))
  }

  function RoundUsd(usd: real, decimals: int): Outcome<real> {
    if decimals < 0 || decimals > 6 || !InRange(usd) then RangeError
    else Ok(Shift(Units(MicrosOf(usd), decimals) as real, decimals))
  }

  function RoundRateUsd(usd: real): Outcome<real> {
    RoundUsd(usd, 6)
  }

  function AddUsd(a: real, b: real): Outcome<real> {
    if InRange(a) && InRange(b) then Ok(FromMicros(MicrosOf(a) + MicrosOf(b))) else RangeError
  }

  /** The accumulator of the `reduce` in sumUsd, as an exact integer. */
  function TotalMicros(amounts: seq<real>): Outcome<int> {
    if amounts == [] then Ok(0)
    else
      match TotalMicros(amounts[..|amounts| - 1])
      case RangeError => RangeError
      case Ok(total) =>
        match ToMicros(amounts[|amounts| - 1])
        case RangeError => RangeError
        case Ok(micros) => Ok(total + micros)
  }

  function SumUsd(amounts: seq<real>): Outcome<real> {
    match TotalMicros(amounts)
    case RangeError => RangeError
    case Ok(total) => Ok(FromMicros(total))
  }

  /** `reduce((sum, x) => addUsd(sum, x), 0)`, the running total the code replaces by hand-written sums. */
  function FoldAddUsd(amounts: seq<real>): Outcome<real> {
    if amounts == [] then Ok(0.0)
    else
      match FoldAddUsd(amounts[..|amounts| - 1])
      case RangeError => RangeError
      case Ok(sum) => AddUsd(sum, amounts[|amounts| - 1])
  }

  function RoundPercent(percent: real): Outcome<real> {
    RoundUsd(percent, 4)
  }

  /** Ok(None) is the code's `null`. */
  function PercentChange(value: real, base: real): Outcome<Option<real>> {
    if !InRange(value) || !InRange(base) then RangeError
    else
      var v, b := MicrosOf(value), MicrosOf(base);
      if b == 0 then Ok(if v == 0 then Some(0.0) else None)
      else
        match RoundPercent((v - b) as real / b as real * 100.0)
        case RangeError => RangeError
        case Ok(percent) => Ok(Some(percent))
  }

  // ---- Rounding to a whole number -------------------------------------------------

  function Distance(x: real, k: int): real {
    Abs(x - k as real)
  }

  /** Rounding finds the nearest whole number, and on a tie the one further from zero; no other number qualifies. */
  lemma RoundHalfAwayIsNearest(x: real, n: int)
    ensures RoundHalfAway(x) == n <==>
            forall k: int :: Distance(x, n) <= Distance(x, k) &&
                             (Distance(x, n) == Distance(x, k) ==> Abs(k as real) <= Abs(n as real))
  {
    var r := RoundHalfAway(x);
    assert Distance(x, r) <= 0.5;
    forall k: int | k != r
      ensures Distance(x, r) < Distance(x, k) ||
              (Distance(x, r) == Distance(x, k) && Abs(k as real) < Abs(r as real))
    {
      assert k <= r - 1 || k >= r + 1;
    }
  }

  lemma RoundHalfAwayLaws(x: real, y: real)
    ensures RoundHalfAway(-x) == -RoundHalfAway(x)
    ensures x <= y ==> RoundHalfAway(x) <= RoundHalfAway(y)
    ensures Abs(RoundHalfAway(x) as real - x) <= 0.5
  {
  }

  lemma MathRoundOfWhole(n: int)
    ensures MathRound(n as real) == n
  {
    var m := (n as real + 0.5).Floor;
    assert m as real <= n as real + 0.5 < m as real + 1.0;
    assert m == n;
  }

  lemma RoundHalfAwayOfWhole(n: int)
    ensures RoundHalfAway(n as real) == n
  {
    hide MathRound;
    MathRoundOfWhole(n);
    MathRoundOfWhole(-n);
    assert (-n) as real == -(n as real);
  }

  lemma MicrosOfFromMicros(n: int)
    ensures MicrosOf(FromMicros(n)) == n
  {
    RoundHalfAwayOfWhole(n);
  }

  /** A whole number of micro-dollars is in range exactly when it is a safe integer. */
  lemma FromMicrosInRange(n: int)
    ensures InRange(FromMicros(n)) <==> -MAX_SAFE_INTEGER <= n <= MAX_SAFE_INTEGER
  {
  }

  /** The range check makes every micro-dollar count a safe integer. */
  lemma MicrosOfInRange(usd: real)
    requires InRange(usd)
    ensures -MAX_SAFE_INTEGER <= MicrosOf(usd) <= MAX_SAFE_INTEGER
  {
    RoundHalfAwayOfWhole(MAX_SAFE_INTEGER);
    RoundHalfAwayOfWhole(-MAX_SAFE_INTEGER);
    RoundHalfAwayLaws(usd * MICROS_PER_USD, MAX_SAFE_INTEGER as real);
    RoundHalfAwayLaws(-MAX_SAFE_INTEGER as real, usd * MICROS_PER_USD);
  }

  // ---- roundUsd -------------------------------------------------------------------

  lemma ShiftLaws(x: real, y: real, n: nat)
    requires n <= 6
    ensures Shift(-x, n) == -Shift(x, n)
    ensures x <= y ==> Shift(x, n) <= Shift(y, n)
  {
  }

  /** The laws of RoundHalfAway, carried to units of 10^-decimals. */
  lemma UnitsLaws(m: int, n: int, decimals: nat)
    requires decimals <= 6
    ensures Units(-m, decimals) == -Units(m, decimals)
    ensures m <= n ==> Units(m, decimals) <= Units(n, decimals)
  {
    ShiftLaws(m as real, n as real, 6 - decimals);
    RoundHalfAwayLaws(Shift(m as real, 6 - decimals), Shift(n as real, 6 - decimals));
  }

  /** Rounding is odd, errors included. */
  lemma RoundUsdIsOdd(usd: real, decimals: int)
    ensures RoundUsd(-usd, decimals) ==
            match RoundUsd(usd, decimals)
            case RangeError => RangeError
            case Ok(r) => Ok(-r)
  {
    if 0 <= decimals <= 6 {
      RoundHalfAwayLaws(usd * MICROS_PER_USD, 0.0);
      UnitsLaws(MicrosOf(usd), 0, decimals);
      ShiftLaws(Units(MicrosOf(usd), decimals) as real, 0.0, decimals);
    }
  }

  lemma RoundUsdIsMonotone(a: real, b: real, decimals: int)
    requires a <= b
    requires RoundUsd(a, decimals).Ok? && RoundUsd(b, decimals).Ok?
    ensures RoundUsd(a, decimals).value <= RoundUsd(b, decimals).value
  {
    RoundHalfAwayLaws(a * MICROS_PER_USD, b * MICROS_PER_USD);
    UnitsLaws(MicrosOf(a), MicrosOf(b), decimals);
    ShiftLaws(Units(MicrosOf(a), decimals) as real, Units(MicrosOf(b), decimals) as real, decimals);
  }

  /** u units of 10^-decimals are a whole number of micro-dollars, and rounding them gives u back. */
  lemma UnitsSurvive(u: int, decimals: nat)
    requires decimals <= 6
    ensures Units(MicrosOf(Shift(u as real, decimals)), decimals) == u
  {
    var micros := match decimals
      case 0 => u * 1000000
      case 1 => u * 100000
      case 2 => u * 10000
      case 3 => u * 1000
      case 4 => u * 100
      case 5 => u * 10
      case 6 => u;
    RoundHalfAwayOfWhole(micros);
    RoundHalfAwayOfWhole(u);
  }

  /** Rounding what is already rounded changes nothing; only the range check can still refuse it. */
  lemma RoundUsdIsIdempotent(usd: real, decimals: int)
    requires RoundUsd(usd, decimals).Ok?
    ensures var r := RoundUsd(usd, decimals).value;
            RoundUsd(r, decimals) == if InRange(r) then Ok(r) else RangeError
  {
    UnitsSurvive(Units(MicrosOf(usd), decimals), decimals);
  }

  /** A rate is the micro-dollar amount itself: the second rounding does nothing. */
  lemma RateIsMicros(usd: real)
    requires InRange(usd)
    ensures RoundRateUsd(usd) == Ok(FromMicros(MicrosOf(usd)))
  {
    RoundHalfAwayOfWhole(MicrosOf(usd));
  }

  /** Rounding to a rate first is invisible to any later, coarser rounding, and never leaves the range. */
  lemma RateThenCoarser(usd: real, decimals: int)
    requires InRange(usd)
    ensures RoundRateUsd(usd).Ok? && InRange(RoundRateUsd(usd).value)
    ensures RoundUsd(RoundRateUsd(usd).value, decimals) == RoundUsd(usd, decimals)
  {
    var m := MicrosOf(usd);
    RateIsMicros(usd);
    MicrosOfFromMicros(m);
    MicrosOfInRange(usd);
    FromMicrosInRange(m);
  }

  /** Double rounding costs at most half a unit plus half a micro-dollar. */
  lemma RoundUsdError(usd: real, decimals: int)
    requires RoundUsd(usd, decimals).Ok?
    ensures Abs(RoundUsd(usd, decimals).value - usd) <= Shift(0.5, decimals) + 0.5 / MICROS_PER_USD
  {
    var m := MicrosOf(usd);
    RoundHalfAwayLaws(usd * MICROS_PER_USD, 0.0);
    RoundHalfAwayLaws(Shift(m as real, 6 - decimals), 0.0);
    ErrorsAdd(usd, m as real, Units(m, decimals) as real, decimals);
  }

  lemma CentsError(usd: real, r: real)
    requires RoundUsd(usd, 2) == Ok(r)
    ensures Abs(r - usd) <= 0.0050005
  {
    RoundUsdError(usd, 2);
  }

  lemma ErrorsAdd(usd: real, m: real, u: real, decimals: nat)
    requires decimals <= 6
    requires Abs(m - usd * MICROS_PER_USD) <= 0.5
    requires Abs(u - Shift(m, 6 - decimals)) <= 0.5
    ensures Abs(Shift(u, decimals) - usd) <= Shift(0.5, decimals) + 0.5 / MICROS_PER_USD
  {
  }

  // ---- Rounding twice --------------------------------------------------------------

  function PowerOfTen(n: nat): (power: int)
    requires n <= 6
    ensures power > 0
  {
    match n
    case 0 => 1
    case 1 => 10
    case 2 => 100
    case 3 => 1000
    case 4 => 10000
    case 5 => 100000
    case 6 => 1000000
  }

  /** The multiple of 10^-decimals nearest to the amount itself, with no stop at whole micro-dollars. */
  function RoundedAtOnce(usd: real, decimals: nat): real
    requires decimals <= 6
  {
    Shift(RoundHalfAway(usd * PowerOfTen(decimals) as real) as real, decimals)
  }

  /** Rounding to a multiple of the unit, without the division. */
  lemma RoundsTo(x: real, unit: int, u: int)
    requires unit in {10, 100, 1000, 10000, 100000, 1000000}
    ensures MathRound(x / unit as real) == u <==>
            (u * unit) as real <= x + (unit / 2) as real < ((u + 1) * unit) as real
  {
    var m := (x / unit as real + 0.5).Floor;
    assert m as real <= x / unit as real + 0.5 < m as real + 1.0;
    if unit == 10 {
    } else if unit == 100 {
    } else if unit == 1000 {
    } else if unit == 10000 {
    } else if unit == 100000 {
    } else {
    }
  }

  lemma TieRemainder(m: int, unit: int, u: int)
    requires unit > 0 && unit % 2 == 0 && u * unit <= m + unit / 2 < (u + 1) * unit
    ensures m % unit == unit / 2 <==> m + unit / 2 == u * unit
  {
    var q := m / unit;
    assert m == q * unit + m % unit;
    Ordered(q, u + 1, unit);
    Ordered(u, q + 2, unit);
    assert (u + 1) * unit == u * unit + unit && (q + 2) * unit == q * unit + unit + unit;
    assert q == u || q + 1 == u;
    assert (q + 1) * unit == q * unit + unit;
  }

  lemma Ordered(a: int, b: int, unit: int)
    requires unit > 0 && a * unit < b * unit
    ensures a < b
  {
    assert b <= a ==> (a - b) * unit >= 0;
  }

  /** For a positive amount in micro-dollars. */
  lemma TieAppears(x: real, unit: int)
    requires x >= 0.0 && unit in {10, 100, 1000, 10000, 100000, 1000000}
    ensures var m := MathRound(x);
            MathRound(m as real / unit as real) != MathRound(x / unit as real) <==>
            m % unit == unit / 2 && x < m as real
  {
    var m := MathRound(x);
    assert m as real <= x + 0.5 < m as real + 1.0;
    var u := MathRound(m as real / unit as real);
    RoundsTo(m as real, unit, u);
    RoundsTo(x, unit, u);
    TieRemainder(m, unit, u);
    assert (u + 1) * unit == u * unit + unit;
    TieIsLeft(x, m, unit / 2, u * unit, unit);
  }

  lemma TieIsLeft(x: real, m: int, half: int, low: int, unit: int)
    requires m as real - 0.5 <= x < m as real + 0.5 && low <= m + half < low + unit
    ensures low as real <= x + half as real < (low + unit) as real <==> !(m + half == low && x < m as real)
  {
  }

  lemma ShiftDivides(x: real, decimals: nat)
    requires decimals <= 6
    ensures Shift(x, 6 - decimals) == x / PowerOfTen(6 - decimals) as real
    ensures x * PowerOfTen(decimals) as real == x * MICROS_PER_USD / PowerOfTen(6 - decimals) as real
  {
    match decimals {
      case 0 =>
      case 1 =>
      case 2 =>
      case 3 =>
      case 4 =>
      case 5 =>
      case 6 =>
    }
  }

  lemma RoundedAtOnceIsOdd(usd: real, decimals: nat)
    requires decimals <= 6
    ensures RoundedAtOnce(-usd, decimals) == -RoundedAtOnce(usd, decimals)
  {
    hide RoundHalfAway, Shift;
    var direct := usd * PowerOfTen(decimals) as real;
    assert -usd * PowerOfTen(decimals) as real == -direct;
    RoundHalfAwayLaws(direct, 0.0);
    ShiftLaws(RoundHalfAway(direct) as real, 0.0, decimals);
  }

  lemma ShiftTellsApart(a: int, b: int, decimals: nat)
    requires decimals <= 6
    ensures Shift(a as real, decimals) == Shift(b as real, decimals) <==> a == b
  {
  }

  lemma PositiveRounding(usd: real, decimals: nat)
    requires usd >= 0.0 && decimals <= 6
    ensures var micros := MicrosOf(usd);
            var unit := PowerOfTen(6 - decimals);
            && micros >= 0
            && (Shift(Units(micros, decimals) as real, decimals) != RoundedAtOnce(usd, decimals) <==>
                decimals < 6 && micros % unit == unit / 2 && usd * MICROS_PER_USD < micros as real)
  {
    hide MathRound, Shift;
    var micros := MicrosOf(usd);
    RoundHalfAwayLaws(0.0, usd * MICROS_PER_USD);
    ShiftDivides(usd, decimals);
    ShiftDivides(micros as real, decimals);
    MathRoundOfWhole(0);
    ShiftTellsApart(Units(micros, decimals), RoundHalfAway(usd * PowerOfTen(decimals) as real), decimals);
    if decimals < 6 {
      TieAppears(usd * MICROS_PER_USD, PowerOfTen(6 - decimals));
    } else {
      MathRoundOfWhole(micros);
    }
  }

  /** The stop at whole micro-dollars changes the result exactly when it lifts the amount onto a tie: the micro-dollars
      are half a unit past a multiple of the unit, and the amount is closer to zero than they are. */
  lemma DoubleRoundingShows(usd: real, decimals: int)
    requires RoundUsd(usd, decimals).Ok?
    ensures var micros := if MicrosOf(usd) < 0 then -MicrosOf(usd) else MicrosOf(usd);
            var unit := PowerOfTen(6 - decimals);
            RoundUsd(usd, decimals).value != RoundedAtOnce(usd, decimals) <==>
            decimals < 6 && micros % unit == unit / 2 && Abs(usd) * MICROS_PER_USD < micros as real
  {
    hide RoundHalfAway, MathRound, Shift, PowerOfTen, RoundedAtOnce, Units;
    RoundHalfAwayLaws(usd * MICROS_PER_USD, 0.0);
    PositiveRounding(Abs(usd), decimals);
    if usd < 0.0 {
      RoundedAtOnceIsOdd(usd, decimals);
      RoundUsdIsOdd(usd, decimals);
    }
  }

  /** Just under one and a half cents, and two cents charged. */
  lemma HalfACentMore()
    ensures RoundUsd(0.0149995, 2) == Ok(0.02) && RoundedAtOnce(0.0149995, 2) == 0.01
  {
  }

  // ---- Sums -----------------------------------------------------------------------

  ghost function Plus(a: Outcome<int>, b: Outcome<int>): Outcome<int> {
    if a.Ok? && b.Ok? then Ok(a.value + b.value) else RangeError
  }

  lemma {:induction false} TotalMicrosConcat(a: seq<real>, b: seq<real>)
    ensures TotalMicros(a + b) == Plus(TotalMicros(a), TotalMicros(b))
  {
    if b == [] {
      assert a + b == a;
    } else {
      assert (a + b)[..|a + b| - 1] == a + b[..|b| - 1];
      TotalMicrosConcat(a, b[..|b| - 1]);
    }
  }

  /** A sum splits over concatenation, in whole micro-dollars. */
  lemma SumUsdSplits(a: seq<real>, b: seq<real>)
    requires SumUsd(a).Ok? && SumUsd(b).Ok?
    ensures SumUsd(a + b) == Ok(SumUsd(a).value + SumUsd(b).value)
  {
    hide TotalMicros;
    TotalMicrosConcat(a, b);
    var x, y := TotalMicros(a).value, TotalMicros(b).value;
    assert (x + y) as real == x as real + y as real;
  }

  lemma TotalMicrosSnoc(init: seq<real>, x: real)
    ensures TotalMicros(init + [x]) == Plus(TotalMicros(init), ToMicros(x))
  {
    assert (init + [x])[..|init + [x]| - 1] == init;
  }

  /** An amount can be taken out of any position and added last. */
  lemma TotalMicrosMoveToEnd(left: seq<real>, x: real, right: seq<real>)
    ensures TotalMicros(left + [x] + right) == Plus(TotalMicros(left + right), ToMicros(x))
  {
    TotalMicrosConcat(left + [x], right);
    TotalMicrosSnoc(left, x);
    TotalMicrosConcat(left, right);
  }

  /** Order does not matter: every permutation of the amounts gives the same outcome, error or total. */
  lemma {:induction false} SumUsdIgnoresOrder(a: seq<real>, b: seq<real>)
    requires multiset(a) == multiset(b)
    ensures TotalMicros(a) == TotalMicros(b)
    ensures SumUsd(a) == SumUsd(b)
    decreases |a|
  {
    if a == [] {
      assert |multiset(b)| == 0;
    } else {
      var init, x := a[..|a| - 1], a[|a| - 1];
      assert a == init + [x];
      assert x in multiset(b);
      var i :| 0 <= i < |b| && b[i] == x;
      var left, right := b[..i], b[i + 1..];
      assert b == left + [x] + right;
      SamePermutation(init, left, x, right);
      SumUsdIgnoresOrder(init, left + right);
      TotalMicrosSnoc(init, x);
      TotalMicrosMoveToEnd(left, x, right);
    }
  }

  lemma SamePermutation(init: seq<real>, left: seq<real>, x: real, right: seq<real>)
    requires multiset(init + [x]) == multiset(left + [x] + right)
    ensures multiset(init) == multiset(left + right)
  {
    assert multiset(init) == multiset(init + [x]) - multiset{x};
    assert multiset(left + right) == multiset(left + [x] + right) - multiset{x};
  }

  function SumOfInts(ks: seq<int>): int {
    if ks == [] then 0 else SumOfInts(ks[..|ks| - 1]) + ks[|ks| - 1]
  }

  /** Float noise of less than half a micro-dollar per amount never reaches the total. */
  lemma {:induction false} SumUsdAbsorbsNoise(amounts: seq<real>, ks: seq<int>)
    requires |amounts| == |ks|
    requires forall i :: 0 <= i < |ks| ==> InRange(amounts[i])
    requires forall i :: 0 <= i < |ks| ==> Abs(amounts[i] * MICROS_PER_USD - ks[i] as real) < 0.5
    ensures TotalMicros(amounts) == Ok(SumOfInts(ks))
    ensures SumUsd(amounts) == Ok(FromMicros(SumOfInts(ks)))
  {
    if ks != [] {
      var n := |ks| - 1;
      SumUsdAbsorbsNoise(amounts[..n], ks[..n]);
      assert MicrosOf(amounts[n]) == ks[n];
    }
  }

  /** The running total is defined exactly while every amount and every earlier partial sum is in range,
      and then it is the sum. */
  lemma {:induction false} FoldAddUsdIsSum(amounts: seq<real>)
    ensures FoldAddUsd(amounts).Ok? <==>
            SumUsd(amounts).Ok? &&
            forall i :: 0 <= i < |amounts| ==> SumUsd(amounts[..i]).Ok? && InRange(SumUsd(amounts[..i]).value)
    ensures FoldAddUsd(amounts).Ok? ==> FoldAddUsd(amounts) == SumUsd(amounts)
  {
    if amounts != [] {
      var n := |amounts| - 1;
      FoldAddUsdIsSum(amounts[..n]);
      assert forall i :: 0 <= i <= n ==> amounts[..n][..i] == amounts[..i];
      if TotalMicros(amounts[..n]).Ok? {
        MicrosOfFromMicros(TotalMicros(amounts[..n]).value);
      }
    }
  }

  // ---- percentChange --------------------------------------------------------------

  /** No percentage exactly for a change from nothing to something. */
  lemma PercentChangeNull(value: real, base: real)
    ensures PercentChange(value, base) == Ok(None) <==>
            InRange(value) && InRange(base) && MicrosOf(base) == 0 && MicrosOf(value) != 0
  {
  }

  /** There is a percentage, or null, exactly when both amounts are in range and so is the exact percentage. */
  lemma PercentChangeDefined(value: real, base: real)
    ensures PercentChange(value, base).Ok? <==>
            && InRange(value) && InRange(base)
            && (MicrosOf(base) == 0 ||
                  InRange((MicrosOf(value) - MicrosOf(base)) as real / MicrosOf(base) as real * 100.0))
  {
  }

  /** The percentage is 0 exactly for a change of less than 0.0000495 percent: for equal amounts, but not for them
      alone. */
  lemma PercentChangeIsZero(value: real, base: real)
    requires InRange(value) && InRange(base)
    ensures PercentChange(value, base) == Ok(Some(0.0)) <==>
            var v, b := MicrosOf(value) as real, MicrosOf(base) as real;
            v == b || (b != 0.0 && Abs(v - b) * 100000000.0 < 49.5 * Abs(b))
  {
    hide RoundHalfAway;
    var v, b := MicrosOf(value), MicrosOf(base);
    if b != 0 {
      var d := (v - b) as real;
      assert v as real - b as real == d;
      RoundsToZero(d / b as real * 100.0);
      SmallQuotient(d, b as real);
    }
  }

  lemma RoundsToZero(p: real)
    ensures RoundPercent(p) == Ok(0.0) <==> Abs(p) * 1000000.0 < 49.5
  {
    var m := MicrosOf(p);
    assert m == 0 || Abs(m as real) >= 1.0;
    assert Abs(m as real) < 50.0 <==> Abs(p) * 1000000.0 < 49.5;
    assert Units(m, 4) == 0 <==> Abs(m as real) < 50.0;
  }

  lemma SmallQuotient(d: real, b: real)
    requires b != 0.0
    ensures Abs(d / b * 100.0) * 1000000.0 < 49.5 <==> Abs(d) * 100000000.0 < 49.5 * Abs(b)
  {
    var q := Abs(d / b);
    assert Abs(d / b * 100.0) == q * 100.0;
    assert Abs(d) == q * Abs(b) by {
      assert d / b * b == d;
    }
    SmallProduct(q, Abs(b), Abs(d));
  }

  lemma SmallProduct(q: real, size: real, d: real)
    requires size > 0.0 && d == q * size
    ensures q * 100000000.0 < 49.5 <==> d * 100000000.0 < 49.5 * size
  {
    var gap := 49.5 - q * 100000000.0;
    assert gap * size == 49.5 * size - d * 100000000.0;
    assert gap > 0.0 ==> gap * size > 0.0;
    assert gap <= 0.0 ==> gap * size <= 0.0;
  }

  /** A micro-dollar more on a thousand dollars is no change. */
  lemma TinyChangeIsNone()
    ensures PercentChange(1000.000001, 1000.0) == Ok(Some(0.0)) && MicrosOf(1000.000001) != MicrosOf(1000.0)
  {
    PercentChangeIsZero(1000.000001, 1000.0);
  }

  /** Adding p percent to b lands within 5.05e-7 of |b| from v. */
  ghost predicate Recovers(b: real, p: real, v: real) {
    Abs(b * (1.0 + p / 100.0) - v) <= 0.000000505 * Abs(b)
  }

  /** Applying the percentage to the base gives the value back, in micro-dollars. */
  lemma PercentChangeInverts(value: real, base: real, p: real)
    requires PercentChange(value, base) == Ok(Some(p))
    ensures Recovers(MicrosOf(base) as real, p, MicrosOf(value) as real)
  {
    var v, b := MicrosOf(value), MicrosOf(base);
    if b != 0 {
      var exact := (v - b) as real / b as real * 100.0;
      PercentError(exact, p);
      ScaledError(b as real, v as real, exact, p);
    }
  }

  lemma PercentError(exact: real, p: real)
    requires RoundPercent(exact) == Ok(p)
    ensures Abs(p - exact) <= 0.0000505
  {
    RoundUsdError(exact, 4);
  }

  lemma ProductOrder(x: real, y: real, c: real)
    requires x <= y && c >= 0.0
    ensures x * c <= y * c
  {
  }

  lemma ProductBound(b: real, e: real, bound: real)
    requires Abs(e) <= bound
    ensures Abs(b * e) <= bound * Abs(b)
  {
    ProductOrder(Abs(e), bound, Abs(b));
    assert Abs(b * e) == Abs(e) * Abs(b) by {
      if e < 0.0 {
        assert b * e == -(b * -e);
      }
      if b < 0.0 {
        assert b * Abs(e) == -((-b) * Abs(e));
      }
    }
  }

  lemma ScaledError(b: real, v: real, exact: real, p: real)
    requires b != 0.0 && exact == (v - b) / b * 100.0
    requires Abs(p - exact) <= 0.0000505
    ensures Recovers(b, p, v)
  {
    var e, q := (p - exact) / 100.0, (v - b) / b;
    assert b * q == v - b;
    assert p / 100.0 == q + e;
    assert b * (1.0 + (q + e)) == b + b * q + b * e;
    ProductBound(b, e, 0.000000505);
  }

  /** More value is a larger percentage over a positive base and a smaller one over a negative base. */
  lemma PercentChangeIsMonotone(v1: real, v2: real, base: real, p1: real, p2: real)
    requires v1 <= v2 && MicrosOf(base) != 0
    requires PercentChange(v1, base) == Ok(Some(p1)) && PercentChange(v2, base) == Ok(Some(p2))
    ensures MicrosOf(base) > 0 ==> p1 <= p2
    ensures MicrosOf(base) < 0 ==> p2 <= p1
  {
    RoundHalfAwayLaws(v1 * MICROS_PER_USD, v2 * MICROS_PER_USD);
    var b := MicrosOf(base) as real;
    var d1, d2 := (MicrosOf(v1) - MicrosOf(base)) as real, (MicrosOf(v2) - MicrosOf(base)) as real;
    QuotientOrder(d1, d2, b);
    if b > 0.0 {
      RoundUsdIsMonotone(d1 / b * 100.0, d2 / b * 100.0, 4);
    } else {
      RoundUsdIsMonotone(d2 / b * 100.0, d1 / b * 100.0, 4);
    }
  }

  lemma QuotientOrder(x: real, y: real, b: real)
    requires x <= y && b != 0.0
    ensures b > 0.0 ==> x / b <= y / b
    ensures b < 0.0 ==> y / b <= x / b
  {
    var q := (y - x) / b;
    assert q * b == y - x;
    assert q == y / b - x / b;
  }
}
