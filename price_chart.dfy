/** The static price charts of the dashboard: the synthetic price walk that
    seeds each chart (public/app.js, generateStaticPriceData), the two-decimal
    rounding applied to every pushed value, and the hour labels of the x axis
    (public/app.js, loadStaticChartData). */
module PriceChart {
  import opened Snapshot

  /** Number of points on every chart (public/app.js:13). */
  const MaxDataPoints: nat := 12

  /** One hour in milliseconds, the step between two chart labels. */
  const HourMillis: int := 3600000

  function Abs(x: real): real { if x < 0.0 then -x else x }

  // ---------------------------------------------------------------------------
  // One step of the walk
  // ---------------------------------------------------------------------------

  /** Fractional volatility by price tier of the base price: smaller
      denominations move more. */
  function Volatility(basePrice: real): real
  {
    if basePrice < 1000.0 then 0.03 else if basePrice < 100000.0 then 0.02 else 0.01
  }

  /** The three volatility tiers, and no other value. */
  lemma VolatilityTiers(basePrice: real)
    ensures var v := Volatility(basePrice);
            (v == 0.01 || v == 0.02 || v == 0.03) &&
            (basePrice < 1000.0 <==> v == 0.03) &&
            (1000.0 <= basePrice < 100000.0 <==> v == 0.02) &&
            (100000.0 <= basePrice <==> v == 0.01)
  {
  }

  /** The symmetric percentage change drawn from one call of Math.random. */
  function ChangePercent(draw: real, volatility: real): real
  {
    (draw - 0.5) * volatility * 2.0
  }

  /** A draw of Math.random lies in [0, 1). */
  predicate ValidDraw(r: real) { 0.0 <= r < 1.0 }

  predicate ValidDraws(draws: seq<real>)
  {
    forall k :: 0 <= k < |draws| ==> ValidDraw(draws[k])
  }

  /** The drift test `Math.abs(p - base) / base > 0.1`. A zero base makes the
      quotient NaN when p is zero and Infinity otherwise, so the test then
      holds exactly when p is not zero; a negative base never passes it. */
  predicate Drifted(basePrice: real, p: real)
  {
    if basePrice == 0.0 then p != 0.0 else Abs(p - basePrice) / basePrice > 0.1
  }

  /** The value the clamp snaps to: 8% above or below the base, on the side
      of the drifted price. */
  function Snap(basePrice: real, p: real): real
  {
    basePrice * (1.0 + (if p > basePrice then 0.08 else -0.08))
  }

  /** `price * (1 + changePercent)`. */
  function Scale(price: real, changePercent: real): real
  {
    price * (1.0 + changePercent)
  }

  /** `current` moved by the change percent of one draw. */
  function Perturb(basePrice: real, current: real, draw: real): real
  {
    Scale(current, ChangePercent(draw, Volatility(basePrice)))
  }

  /** A quotient of at most 0.1 by a positive divisor bounds the dividend. */
  lemma QuotientBound(a: real, b: real)
    requires b > 0.0 && !(a / b > 0.1)
    ensures a <= b / 10.0
  {
    var q := a / b;
    assert a == q * b;
    assert q * b <= 0.1 * b;
  }

  /** The loop body of the generator at iteration `i`: perturb the current
      price, then pull it back if it has drifted too far (never on the first
      iteration). */
  function Step(basePrice: real, current: real, i: nat, draw: real): real
  {
    var next := Perturb(basePrice, current, draw);
    if i > 0 && Drifted(basePrice, next) then Snap(basePrice, next) else next
  }

  /** After any iteration but the first, the price is within 10% of a
      positive base, whatever the previous price and the draw. */
  lemma StepBounded(basePrice: real, current: real, i: nat, draw: real)
    requires i > 0 && basePrice > 0.0
    ensures Abs(Step(basePrice, current, i, draw) - basePrice) <= basePrice / 10.0
  {
    var next := Perturb(basePrice, current, draw);
    if !Drifted(basePrice, next) {
      QuotientBound(Abs(next - basePrice), basePrice);
    }
  }

  // ---------------------------------------------------------------------------
  // The whole walk, as a specification
  // ---------------------------------------------------------------------------

  /** Prices held in `currentPrice` after each of the iterations `i`,
      `i + 1`, ... that consume `draws`, starting from `current`. */
  function TraceFrom(basePrice: real, current: real, i: nat, draws: seq<real>): (t: seq<real>)
    ensures |t| == |draws|
    decreases |draws|
  {
    if draws == [] then []
    else
      var p := Step(basePrice, current, i, draws[0]);
      [p] + TraceFrom(basePrice, p, i + 1, draws[1..])
  }

  /** Internal prices of the generator, one per iteration. */
  function Trace(basePrice: real, draws: seq<real>): seq<real>
  {
    TraceFrom(basePrice, basePrice, 0, draws)
  }

  /** One more iteration moves one price from the rest of the walk to the
      part already done. */
  lemma TraceFromStep(basePrice: real, current: real, i: nat, draws: seq<real>, done: seq<real>)
    requires i < |draws|
    ensures var p := Step(basePrice, current, i, draws[i]);
            done + TraceFrom(basePrice, current, i, draws[i..]) == (done + [p]) + TraceFrom(basePrice, p, i + 1, draws[i + 1..])
  {
    assert draws[i..][0] == draws[i] && draws[i..][1..] == draws[i + 1..];
  }

  // ---------------------------------------------------------------------------
  // Two-decimal rounding: parseFloat(x.toFixed(2))
  // ---------------------------------------------------------------------------

  /** `toFixed(2)` on the exact value: the nearest multiple of 0.01, the one
      farther from zero on a tie; from 1e21 on toFixed prints the number
      unchanged. Read back by parseFloat. */
  function Round2(x: real): real
  {
    if Abs(x) >= 1000000000000000000000.0 then x
    else if x < 0.0 then -RoundNonNegative(-x)
    else RoundNonNegative(x)
  }

  /** The pushed value is within half a cent of the price, has at most two
      decimals below 1e21, and keeps the sign of a non-negative price. */
  lemma Round2Bounds(x: real)
    ensures Abs(Round2(x) - x) <= 0.005
    ensures Abs(x) < 1000000000000000000000.0 ==> IsHundredths(Round2(x))
    ensures x >= 0.0 ==> Round2(x) >= 0.0
  {
    if Abs(x) < 1000000000000000000000.0 && x < 0.0 {
      var r := RoundNonNegative(-x);
      assert (-r * 100.0).Floor == -((r * 100.0).Floor);
    }
  }

  /** `y` has at most two decimals. */
  predicate IsHundredths(y: real)
  {
    (y * 100.0).Floor as real == y * 100.0
  }

  /** Rounding of a non-negative value to the nearest hundredth, half up. */
  function RoundNonNegative(x: real): (y: real)
    requires x >= 0.0
    ensures -0.005 < y - x <= 0.005
    ensures y >= 0.0
    ensures IsHundredths(y)
  {
    var n := (x * 100.0 + 0.5).Floor;
    assert n as real <= x * 100.0 + 0.5 < n as real + 1.0;
    var y := n as real / 100.0;
    assert y * 100.0 == n as real;
    y
  }

  // ---------------------------------------------------------------------------
  // The generator
  // ---------------------------------------------------------------------------

  /** generateStaticPriceData: twelve rounded prices of a mean-reverting walk
      around `basePrice`, one Math.random draw per point. */
  method GenerateStaticPriceData(basePrice: real, draws: seq<real>) returns (data: seq<real>)
    requires |draws| == MaxDataPoints
    ensures |data| == MaxDataPoints
    ensures forall k :: 0 <= k < |data| ==> data[k] == Round2(Trace(basePrice, draws)[k])
    ensures basePrice > 0.0 && ValidDraws(draws) ==>
              forall k :: 0 <= k < |data| ==> Abs(data[k] - basePrice) <= basePrice / 10.0 + 0.005
  {
    data := [];
    var currentPrice := basePrice;
    ghost var trace: seq<real> := [];
    var i: nat := 0;
    while i < MaxDataPoints
      invariant i <= MaxDataPoints
      invariant |trace| == i && |data| == i
      invariant trace + TraceFrom(basePrice, currentPrice, i, draws[i..]) == Trace(basePrice, draws)
      invariant forall k :: 0 <= k < i ==> data[k] == Round2(trace[k])
    {
      ghost var previous := currentPrice;
      var volatility := Volatility(basePrice);
      var changePercent := ChangePercent(draws[i], volatility);
      currentPrice := Scale(currentPrice, changePercent);
      if i > 0 && Drifted(basePrice, currentPrice) {
        currentPrice := Snap(basePrice, currentPrice);
      }
      assert currentPrice == Step(basePrice, previous, i, draws[i]);
      TraceFromStep(basePrice, previous, i, draws, trace);
      trace := trace + [currentPrice];
      data := data + [Round2(currentPrice)];
      i := i + 1;
    }
    assert draws[MaxDataPoints..] == [];
    if basePrice > 0.0 && ValidDraws(draws) {
      PushedBounded(basePrice, draws);
    }
  }

  // ---------------------------------------------------------------------------
  // Properties of the walk
  // ---------------------------------------------------------------------------

  /** The volatility never grows with the base price. */
  lemma VolatilityNonIncreasing(a: real, b: real)
    requires a <= b
    ensures Volatility(b) <= Volatility(a)
  {
  }

  /** Volatility of the fallback snapshot's coins. */
  lemma FallbackVolatility()
    ensures Volatility(FallbackSnapshot.bitcoin) == 0.01
    ensures Volatility(FallbackSnapshot.ethereum) == 0.01
    ensures Volatility(FallbackSnapshot.dogecoin) == 0.02
  {
  }

  /** A draw in [0, 1) gives a change percent in [-volatility, volatility). */
  lemma ChangePercentBounds(draw: real, volatility: real)
    requires ValidDraw(draw) && volatility > 0.0
    ensures -volatility <= ChangePercent(draw, volatility) < volatility
  {
    assert ChangePercent(draw, volatility) == 2.0 * draw * volatility - volatility;
    assert 0.0 <= draw * volatility < volatility;
  }

  /** The first iteration starts from the base itself and moves it by at most
      the volatility fraction of the base. */
  lemma FirstStepBounded(basePrice: real, draw: real)
    requires basePrice > 0.0 && ValidDraw(draw)
    ensures Abs(Step(basePrice, basePrice, 0, draw) - basePrice) <= Volatility(basePrice) * basePrice
  {
    var v := Volatility(basePrice);
    var c := ChangePercent(draw, v);
    ChangePercentBounds(draw, v);
    assert Step(basePrice, basePrice, 0, draw) == basePrice * (1.0 + c);
    ScaledMoveBound(basePrice, c, v);
  }

  /** Scaling a positive value by `1 + c` with `|c| <= v` moves it by at most
      `v` times the value. */
  lemma ScaledMoveBound(b: real, c: real, v: real)
    requires b > 0.0 && -v <= c <= v
    ensures Abs(b * (1.0 + c) - b) <= v * b
  {
    assert b * (1.0 + c) - b == b * c;
    if c >= 0.0 {
      assert b * c <= b * v;
    } else {
      assert b * -c <= b * v;
    }
  }

  /** For a positive base the drift test is `|p - base| > base / 10`, and a
      negative base never drifts. */
  lemma DriftedMeaning(basePrice: real, p: real)
    ensures basePrice > 0.0 ==> (Drifted(basePrice, p) <==> Abs(p - basePrice) > basePrice / 10.0)
    ensures basePrice < 0.0 ==> !Drifted(basePrice, p)
  {
    var a := Abs(p - basePrice);
    if basePrice > 0.0 {
      if a / basePrice > 0.1 {
        QuotientAbove(a, basePrice);
      } else {
        QuotientBound(a, basePrice);
      }
    } else if basePrice < 0.0 {
      assert a / basePrice <= 0.0;
    }
  }

  /** A quotient above 0.1 by a positive divisor bounds the dividend from
      below. */
  lemma QuotientAbove(a: real, b: real)
    requires b > 0.0 && a / b > 0.1
    ensures a > b / 10.0
  {
    var q := a / b;
    assert a == q * b;
    assert q * b - 0.1 * b == (q - 0.1) * b;
  }

  /** What one step does with the perturbed price: the clamp fires exactly
      when the step changes it (for a positive base), and then lands exactly
      8% from the base on the side of the perturbed price; otherwise the step
      is the plain perturbation. */
  lemma StepClamp(basePrice: real, current: real, i: nat, draw: real)
    ensures var next := Perturb(basePrice, current, draw);
            var p := Step(basePrice, current, i, draw);
            var fires := i > 0 && Drifted(basePrice, next);
            (!fires ==> p == next) &&
            (fires ==> (next > basePrice ==> p == basePrice * 1.08) && (next <= basePrice ==> p == basePrice * 0.92)) &&
            (basePrice > 0.0 && fires ==> (p > basePrice <==> next > basePrice) && Abs(p - basePrice) == basePrice * 0.08) &&
            (basePrice > 0.0 ==> (p != next <==> fires))
  {
    var next := Perturb(basePrice, current, draw);
    DriftedMeaning(basePrice, next);
  }

  /** From the base, or from any later iteration, every internal price stays
      within 10% of a positive base. */
  lemma {:induction false} TraceFromBounded(basePrice: real, current: real, i: nat, draws: seq<real>)
    requires basePrice > 0.0 && ValidDraws(draws)
    requires i > 0 || current == basePrice
    ensures forall k :: 0 <= k < |draws| ==> Abs(TraceFrom(basePrice, current, i, draws)[k] - basePrice) <= basePrice / 10.0
    decreases |draws|
  {
    if draws != [] {
      var p := Step(basePrice, current, i, draws[0]);
      if i == 0 {
        assert ValidDraw(draws[0]);
        FirstStepBounded(basePrice, draws[0]);
      }
      if i > 0 {
        StepBounded(basePrice, current, i, draws[0]);
      }
      assert Abs(p - basePrice) <= basePrice / 10.0;
      assert ValidDraws(draws[1..]) by {
        forall k | 0 <= k < |draws[1..]| ensures ValidDraw(draws[1..][k]) {
          assert draws[1..][k] == draws[k + 1];
        }
      }
      TraceFromBounded(basePrice, p, i + 1, draws[1..]);
      var t := TraceFrom(basePrice, current, i, draws);
      assert t == [p] + TraceFrom(basePrice, p, i + 1, draws[1..]);
      forall k | 0 <= k < |draws| ensures Abs(t[k] - basePrice) <= basePrice / 10.0 {
        if k > 0 {
          assert t[k] == TraceFrom(basePrice, p, i + 1, draws[1..])[k - 1];
        }
      }
    }
  }

  /** The bounded-drift invariant of the generator: for a positive base and
      draws in [0, 1), every internal price is within 10% of the base. */
  lemma TraceBounded(basePrice: real, draws: seq<real>)
    requires basePrice > 0.0 && ValidDraws(draws)
    ensures |Trace(basePrice, draws)| == |draws|
    ensures forall k :: 0 <= k < |draws| ==> Abs(Trace(basePrice, draws)[k] - basePrice) <= basePrice / 10.0
  {
    TraceFromBounded(basePrice, basePrice, 0, draws);
  }

  /** Every pushed (rounded) value of the walk is within 10% of a positive
      base, plus the half-cent of rounding. */
  lemma PushedBounded(basePrice: real, draws: seq<real>)
    requires basePrice > 0.0 && ValidDraws(draws)
    ensures forall k :: 0 <= k < |draws| ==>
              Abs(Round2(Trace(basePrice, draws)[k]) - basePrice) <= basePrice / 10.0 + 0.005
  {
    TraceBounded(basePrice, draws);
    forall k | 0 <= k < |draws|
      ensures Abs(Round2(Trace(basePrice, draws)[k]) - basePrice) <= basePrice / 10.0 + 0.005
    {
      var p := Trace(basePrice, draws)[k];
      assert Abs(p - basePrice) <= basePrice / 10.0;
      Round2Bounds(p);
    }
  }

  /** With a positive base every internal price is positive: at least 90% of
      the base. */
  lemma TracePositive(basePrice: real, draws: seq<real>)
    requires basePrice > 0.0 && ValidDraws(draws)
    ensures forall k :: 0 <= k < |draws| ==> Trace(basePrice, draws)[k] >= basePrice * 0.9 > 0.0
  {
    TraceBounded(basePrice, draws);
  }

  // ---------------------------------------------------------------------------
  // Hour labels and the three charts
  // ---------------------------------------------------------------------------

  /** Time of the label at chart position `k`: `MaxDataPoints - 1 - k` hours
      before `now`. */
  function LabelTime(now: int, k: int): int
  {
    now - (MaxDataPoints - 1 - k) * HourMillis
  }

  /** The labels are one hour apart, oldest first, and the last is `now`. */
  lemma LabelTimesAscending(now: int, j: int, k: int)
    requires j < k
    ensures LabelTime(now, j) < LabelTime(now, k)
    ensures LabelTime(now, k) - LabelTime(now, j) == (k - j) * HourMillis
    ensures LabelTime(now, MaxDataPoints - 1) == now
  {
  }

  /** The label loop of loadStaticChartData: hour offsets MaxDataPoints - 1
      down to 0, each time printed by `format` (toLocaleTimeString). */
  method HourLabels(now: int, format: int -> string) returns (labels: seq<string>)
    ensures |labels| == MaxDataPoints
    ensures forall k :: 0 <= k < |labels| ==> labels[k] == format(LabelTime(now, k))
  {
    labels := [];
    var i: int := MaxDataPoints - 1;
    while i >= 0
      invariant -1 <= i <= MaxDataPoints - 1
      invariant |labels| == MaxDataPoints - 1 - i
      invariant forall k :: 0 <= k < |labels| ==> labels[k] == format(LabelTime(now, k))
    {
      var time := now - i * HourMillis;
      labels := labels + [format(time)];
      i := i - 1;
    }
  }

  /** Series of the three charts, all sharing one label axis. */
  datatype ChartData = ChartData(labels: seq<string>, bitcoin: seq<real>, ethereum: seq<real>, dogecoin: seq<real>)

  /** loadStaticChartData: one label axis and one generated series per coin,
      each seeded from that coin's price in the snapshot. */
  method LoadStaticChartData(priceData: PriceSnapshot, now: int, format: int -> string,
                             btcDraws: seq<real>, ethDraws: seq<real>, dogeDraws: seq<real>)
    returns (charts: ChartData)
    requires |btcDraws| == MaxDataPoints && |ethDraws| == MaxDataPoints && |dogeDraws| == MaxDataPoints
    ensures |charts.labels| == |charts.bitcoin| == |charts.ethereum| == |charts.dogecoin| == MaxDataPoints
    ensures forall k :: 0 <= k < MaxDataPoints ==>
              charts.labels[k] == format(LabelTime(now, k)) &&
              charts.bitcoin[k] == Round2(Trace(priceData.bitcoin, btcDraws)[k]) &&
              charts.ethereum[k] == Round2(Trace(priceData.ethereum, ethDraws)[k]) &&
              charts.dogecoin[k] == Round2(Trace(priceData.dogecoin, dogeDraws)[k])
  {
    var labels := HourLabels(now, format);
    var btc := GenerateStaticPriceData(priceData.bitcoin, btcDraws);
    var eth := GenerateStaticPriceData(priceData.ethereum, ethDraws);
    var doge := GenerateStaticPriceData(priceData.dogecoin, dogeDraws);
    charts := ChartData(labels, btc, eth, doge);
  }
}
