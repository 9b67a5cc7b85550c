/** What the indicators compute, against definitions that do not recurse bar by bar: averages as decayed sums,
    the true range as the span of a bar and the close before it, relative strength as a share, the session
    average price as turnover over volume. */
module IndicatorLaws {
  import opened Common
  import opened Indicators

  // ---------------------------------------------------------------- usable bars

  /** All four prices are there and positive, and the high is not below the low. */
  predicate HasPrices(r: RawBar) {
    && r.open != None && r.high != None && r.low != None && r.close != None
    && r.open.value > 0.0 && r.high.value > 0.0 && r.low.value > 0.0 && r.close.value > 0.0
    && !(r.high.value < r.low.value)
  }

  predicate SameBar(r: RawBar, b: Bar) {
    && r.ts == b.ts && r.open == Some(b.open) && r.high == Some(b.high) && r.low == Some(b.low)
    && r.close == Some(b.close) && r.volume == b.volume
  }

  /** The clean window is the raw one without the bars that lack a price, nothing else changed. */
  lemma {:induction false} DropsExactlyUnusable(raw: seq<RawBar>)
    ensures
      var kept := Filter(raw, (r: RawBar) => HasPrices(r));
      |DropInvalid(raw)| == |kept| && forall i :: 0 <= i < |kept| ==> SameBar(kept[i], DropInvalid(raw)[i])
  {
    if |raw| > 0 {
      DropsExactlyUnusable(raw[..|raw| - 1]);
    }
  }

  // ---------------------------------------------------------------- exponential averages

  /** A product, kept symbolic in the proofs below. */
  function Times(a: real, b: real): real { a * b }

  lemma TimesAdds(a: real, x: real, y: real)
    ensures Times(a, x + y) == Times(a, x) + Times(a, y)
  {
  }

  lemma TimesGroups(a: real, b: real, x: real)
    ensures Times(Times(a, b), x) == Times(a, Times(b, x))
    ensures Times(a, Times(b, x)) == Times(b, Times(a, x))
  {
    assert a * b * x == a * (b * x) == b * (a * x);
  }

  function Power(x: real, n: nat): real { if n == 0 then 1.0 else Times(x, Power(x, n - 1)) }

  lemma PowerCases(x: real, n: nat, y: real)
    ensures n > 0 ==> Power(x, n) == Times(x, Power(x, n - 1))
    ensures Times(Power(x, 0), y) == y
  {
  }

  /** The values from lo to i, each of weight alpha when new and keeping a part of it every bar. */
  function Decayed(xs: seq<real>, alpha: real, keep: real, lo: nat, i: nat): real
    requires i < |xs|
    decreases i + 1 - lo
  {
    if lo > i then 0.0
    else Times(Power(keep, i - lo), Times(alpha, xs[lo])) + Decayed(xs, alpha, keep, lo + 1, i)
  }

  lemma DecayedCases(xs: seq<real>, alpha: real, keep: real, lo: nat, i: nat)
    requires i < |xs|
    ensures Decayed(xs, alpha, keep, lo, i) ==
      if lo > i then 0.0
      else Times(Power(keep, i - lo), Times(alpha, xs[lo])) + Decayed(xs, alpha, keep, lo + 1, i)
  {
  }

  /** One bar later everything weighs that part of it, and the new value alpha. */
  lemma {:induction false} DecayedStep(xs: seq<real>, alpha: real, keep: real, lo: nat, i: nat)
    requires 0 < i < |xs| && lo <= i
    ensures Decayed(xs, alpha, keep, lo, i) == Times(keep, Decayed(xs, alpha, keep, lo, i - 1)) + Times(alpha, xs[i])
    decreases i - lo
  {
    hide Decayed, Power, Times;
    var x := Times(alpha, xs[lo]);
    DecayedCases(xs, alpha, keep, lo, i);
    DecayedCases(xs, alpha, keep, lo, i - 1);
    PowerCases(keep, i - lo, x);
    if lo == i {
      DecayedCases(xs, alpha, keep, lo + 1, i);
      TimesNothing(keep);
    } else {
      DecayedStep(xs, alpha, keep, lo + 1, i);
      var older, rest := Power(keep, i - 1 - lo), Decayed(xs, alpha, keep, lo + 1, i - 1);
      TimesGroups(keep, older, x);
      TimesAdds(keep, Times(older, x), rest);
    }
  }

  lemma TimesNothing(a: real)
    ensures Times(a, 0.0) == 0.0
  {
  }

  /** One step of an average that keeps a part of itself, on a decayed sum. */
  lemma SumStep(xs: seq<real>, alpha: real, keep: real, seed: real, age: nat, lo: nat, i: nat, prev: real)
    requires 0 < i < |xs| && lo <= i && age > 0
    requires prev == Times(Power(keep, age - 1), seed) + Decayed(xs, alpha, keep, lo, i - 1)
    ensures Times(keep, prev) + Times(alpha, xs[i])
         == Times(Power(keep, age), seed) + Decayed(xs, alpha, keep, lo, i)
  {
    hide Decayed, Power, Times;
    DecayedStep(xs, alpha, keep, lo, i);
    PowerCases(keep, age, seed);
    TimesGroups(keep, Power(keep, age - 1), seed);
    TimesAdds(keep, Times(Power(keep, age - 1), seed), Decayed(xs, alpha, keep, lo, i - 1));
  }

  predicate IsExponential(length: nat, alpha: real, keep: real) {
    alpha == 2.0 / (length as real + 1.0) && keep == 1.0 - alpha
  }

  lemma EmaCases(xs: seq<real>, length: nat, i: nat, alpha: real, keep: real)
    requires i < |xs| && IsExponential(length, alpha, keep)
    ensures EmaAt(xs, length, i) ==
      if i == 0 then xs[0] else Times(keep, EmaAt(xs, length, i - 1)) + Times(alpha, xs[i])
  {
  }

  /** The exponential average as a sum: with alpha = 2 / (length + 1) the first value weighs (1 - alpha)^i and
      every later one alpha (1 - alpha)^age. */
  lemma {:induction false} EmaIsDecayedSum(xs: seq<real>, length: nat, i: nat, alpha: real, keep: real)
    requires i < |xs| && IsExponential(length, alpha, keep)
    ensures EmaAt(xs, length, i) == Times(Power(keep, i), xs[0]) + Decayed(xs, alpha, keep, 1, i)
  {
    hide Decayed, Power, Times, EmaAt, IsExponential;
    EmaCases(xs, length, i, alpha, keep);
    if i == 0 {
      PowerCases(keep, 0, xs[0]);
      DecayedCases(xs, alpha, keep, 1, 0);
    } else {
      EmaIsDecayedSum(xs, length, i - 1, alpha, keep);
      SumStep(xs, alpha, keep, xs[0], i, 1, i, EmaAt(xs, length, i - 1));
    }
  }

  /** So it stays within any range its values stay in. */
  lemma {:induction false} EmaInRange(xs: seq<real>, length: nat, i: nat, lo: real, hi: real)
    requires i < |xs| && length >= 1 && forall j :: 0 <= j <= i ==> lo <= xs[j] <= hi
    ensures lo <= EmaAt(xs, length, i) <= hi
  {
    if i > 0 {
      EmaInRange(xs, length, i - 1, lo, hi);
      var n := length as real + 1.0;
      Share(n);
      Mixed(2.0 / n, EmaAt(xs, length, i - 1), xs[i], lo, hi);
    }
  }

  lemma Share(n: real)
    requires n >= 2.0
    ensures 0.0 <= 2.0 / n <= 1.0
  {
  }

  lemma Scale(x: real, n: real)
    requires x > 0.0 && n > 0.0
    ensures x * n > 0.0
  {
  }

  lemma Mixed(alpha: real, a: real, b: real, lo: real, hi: real)
    requires 0.0 <= alpha <= 1.0 && lo <= a <= hi && lo <= b <= hi
    ensures lo <= (1.0 - alpha) * a + alpha * b <= hi
  {
    assert (1.0 - alpha) * (a - lo) >= 0.0 && alpha * (b - lo) >= 0.0;
    assert (1.0 - alpha) * (hi - a) >= 0.0 && alpha * (hi - b) >= 0.0;
  }

  // ---------------------------------------------------------------- Wilder's average

  function Plain(xs: seq<real>): (r: seq<Option<real>>) {
    seq(|xs|, i requires 0 <= i < |xs| => Some(xs[i]))
  }

  function Total(xs: seq<real>): real { if |xs| == 0 then 0.0 else xs[0] + Total(xs[1..]) }

  lemma {:induction false} TotalSnoc(xs: seq<real>, x: real)
    ensures Total(xs + [x]) == Total(xs) + x
  {
    if |xs| == 0 {
      assert [x][1..] == [] && [] + [x] == [x];
    } else {
      assert (xs + [x])[1..] == xs[1..] + [x];
      TotalSnoc(xs[1..], x);
    }
  }

  lemma {:induction false} PresentTotal(xs: seq<real>)
    ensures SumPresent(Plain(xs)) == Total(xs) && CountPresent(Plain(xs)) == |xs|
  {
    if |xs| > 0 {
      var n := |xs| - 1;
      PresentTotal(xs[..n]);
      TotalSnoc(xs[..n], xs[n]);
      assert xs == xs[..n] + [xs[n]];
      assert Plain(xs)[..n] == Plain(xs[..n]);
    }
  }

  /** The mean of the first `length` values, the weight of a new value, and what is kept of the old. */
  predicate IsWilder(xs: seq<real>, length: nat, mean: real, alpha: real, keep: real)
    requires 1 <= length <= |xs|
  {
    mean == Total(xs[..length]) / length as real && alpha == 1.0 / length as real && keep == 1.0 - alpha
  }

  /** Wilder's average as a sum: the mean of the first `length` values decays by 1 - 1/length a bar, and every
      later value weighs 1/length when new. */
  lemma {:induction false} RmaIsDecayedSum(xs: seq<real>, length: nat, i: nat, mean: real, alpha: real, keep: real)
    requires 1 <= length && length - 1 <= i < |xs|
    requires IsWilder(xs, length, mean, alpha, keep)
    ensures RmaAt(Plain(xs), length, i).Some?
    ensures RmaAt(Plain(xs), length, i).value
         == Times(Power(keep, i - (length - 1)), mean) + Decayed(xs, alpha, keep, length, i)
  {
    hide Decayed, Power, Times, Total, RmaAt, MeanPresent, Smooth, IsWilder;
    RmaCases(Plain(xs), length, i);
    if i == length - 1 {
      SeedIsMean(xs, length, mean, alpha, keep);
      PowerCases(keep, 0, mean);
      DecayedCases(xs, alpha, keep, length, i);
    } else {
      RmaIsDecayedSum(xs, length, i - 1, mean, alpha, keep);
      var prev := RmaAt(Plain(xs), length, i - 1).value;
      SumStep(xs, alpha, keep, mean, i - (length - 1), length, i, prev);
      WilderStep(xs, length, mean, prev, xs[i], alpha, keep);
      assert Plain(xs)[i] == Some(xs[i]);
    }
  }

  lemma SmoothTimes(prev: real, x: real, length: nat)
    requires length >= 1
    ensures Smooth(Some(prev), Some(x), length).Some?
    ensures Smooth(Some(prev), Some(x), length).value * length as real == prev * (length as real - 1.0) + x
  {
  }

  lemma SeedIsMean(xs: seq<real>, length: nat, mean: real, alpha: real, keep: real)
    requires 1 <= length <= |xs| && IsWilder(xs, length, mean, alpha, keep)
    ensures MeanPresent(Plain(xs)[..length]) == Some(mean)
  {
    assert Plain(xs)[..length] == Plain(xs[..length]);
    PresentTotal(xs[..length]);
  }

  lemma WilderStep(
      xs: seq<real>, length: nat, mean: real, prev: real, x: real, alpha: real, keep: real)
    requires 1 <= length <= |xs| && IsWilder(xs, length, mean, alpha, keep)
    ensures Smooth(Some(prev), Some(x), length).Some?
    ensures Smooth(Some(prev), Some(x), length).value == Times(keep, prev) + Times(alpha, x)
  {
    hide Smooth;
    SmoothTimes(prev, x, length);
    Weights(Smooth(Some(prev), Some(x), length).value, prev, x, length as real, alpha, keep);
  }

  lemma Weights(r: real, prev: real, x: real, n: real, alpha: real, keep: real)
    requires n >= 1.0 && alpha == 1.0 / n && keep == 1.0 - alpha && r * n == prev * (n - 1.0) + x
    ensures r == keep * prev + alpha * x
  {
    assert alpha * n == 1.0;
    assert keep * n == n - 1.0;
    var s := keep * prev + alpha * x;
    assert s * n == keep * n * prev + alpha * n * x;
    assert (r - s) * n == 0.0;
  }

  // ---------------------------------------------------------------- range and relative strength

  /** The true range is the span of the bar together with the close before it. */
  lemma TrueRangeIsSpan(bars: seq<Bar>, i: nat)
    requires i < |bars| && bars[i].high >= bars[i].low
    ensures TrueRangeAt(bars, i) ==
      if i == 0 then bars[0].high - bars[0].low
      else Max(bars[i].high, bars[i - 1].close) - Min(bars[i].low, bars[i - 1].close)
  {
  }

  /** A change is its gain less its loss, and only one of them is not zero. */
  lemma ChangeSplits(bars: seq<Bar>, i: nat)
    requires 0 < i < |bars|
    ensures Gains(bars)[i].Some? && Losses(bars)[i].Some?
    ensures Gains(bars)[i].value - Losses(bars)[i].value == bars[i].close - bars[i - 1].close
    ensures Gains(bars)[i].value >= 0.0 && Losses(bars)[i].value >= 0.0
    ensures Gains(bars)[i].value == 0.0 || Losses(bars)[i].value == 0.0
  {
  }

  /** Relative strength is the gains' share of all movement, in percent; above 50 exactly when the average gain
      exceeds the average loss. */
  lemma RsiIsShare(gain: real, loss: real)
    requires gain >= 0.0 && loss >= 0.0 && gain + loss > 0.0
    ensures
      var r := RsiOf(Some(gain), Some(loss));
      && r.Some? && r.value * (gain + loss) == 100.0 * gain
      && (r.value > 50.0 <==> gain > loss)
  {
    if gain > 0.0 && loss > 0.0 {
      var q := gain / loss;
      assert q * loss == gain;
      assert q > 0.0;
      var h := 100.0 / (1.0 + q);
      assert h * (1.0 + q) == 100.0;
      assert h * (1.0 + q) * loss == h * (loss + gain);
      assert (100.0 - h) * (gain + loss) == 100.0 * gain;
      Halves(100.0 - h, gain, loss);
    }
  }

  lemma Halves(r: real, gain: real, loss: real)
    requires gain > 0.0 && loss > 0.0 && r * (gain + loss) == 100.0 * gain
    ensures r > 50.0 <==> gain > loss
  {
    assert (r - 50.0) * (gain + loss) == 50.0 * (gain - loss);
    var d, n := r - 50.0, gain + loss;
    assert d * n == 50.0 * (gain - loss);
    if d > 0.0 {
      Scale(d, n);
    } else if d < 0.0 {
      Scale(-d, n);
      assert d * n == -(-d * n);
    }
  }

  // ---------------------------------------------------------------- session average price

  /** The first bar of bar i's day without another day in between. */
  function DayStart(bars: seq<Bar>, i: nat): (k: nat)
    requires i < |bars|
    ensures k <= i && (forall j :: k <= j <= i ==> Day(bars[j].ts) == Day(bars[i].ts))
    ensures k > 0 ==> Day(bars[k - 1].ts) != Day(bars[i].ts)
  {
    if i == 0 || Day(bars[i - 1].ts) != Day(bars[i].ts) then i else DayStart(bars, i - 1)
  }

  function Volumes(bars: seq<Bar>): seq<real> {
    seq(|bars|, i requires 0 <= i < |bars| => if bars[i].volume.Some? then bars[i].volume.value else 0.0)
  }

  /** Typical price times volume. */
  function Turnover(b: Bar): real {
    if b.volume.None? then 0.0 else b.volume.value * ((b.high + b.low + b.close) / 3.0)
  }

  function Turnovers(bars: seq<Bar>): seq<real> {
    seq(|bars|, i requires 0 <= i < |bars| => Turnover(bars[i]))
  }

  lemma SameTurnover(b: Bar)
    ensures Turnover(b) == PriceVolume(b)
  {
  }

  lemma {:induction false} DaySums(bars: seq<Bar>, i: nat)
    requires i < |bars|
    ensures DaySum(bars, Volume, i) == Total(Volumes(bars[DayStart(bars, i)..i + 1]))
    ensures DaySum(bars, PriceVolume, i) == Total(Turnovers(bars[DayStart(bars, i)..i + 1]))
  {
    hide Turnover, PriceVolume, Total;
    var k := DayStart(bars, i);
    var day := bars[k..i + 1];
    SameTurnover(bars[i]);
    NoTotal();
    assert day == bars[k..i] + [bars[i]];
    assert Volumes(day) == Volumes(bars[k..i]) + [Volume(bars[i])];
    assert Turnovers(day) == Turnovers(bars[k..i]) + [PriceVolume(bars[i])];
    TotalSnoc(Volumes(bars[k..i]), Volume(bars[i]));
    TotalSnoc(Turnovers(bars[k..i]), PriceVolume(bars[i]));
    if k < i {
      DaySums(bars, i - 1);
    }
  }

  lemma NoTotal()
    ensures Total([]) == 0.0
  {
  }

  /** v is a over b, where it is present and b is not zero. */
  predicate IsQuotient(v: Option<real>, present: bool, a: real, b: real) {
    (v.Some? <==> present && b != 0.0) && (v.Some? ==> v.value * b == a)
  }

  /** The session average price is the day's turnover over the day's volume so far, and exists exactly where the
      bar has a volume and the day's is not zero. */
  lemma VwapIsTurnoverOverVolume(bars: seq<Bar>, i: nat)
    requires i < |bars|
    ensures
      var day := bars[DayStart(bars, i)..i + 1];
      IsQuotient(VwapAt(bars, i), bars[i].volume.Some?, Total(Turnovers(day)), Total(Volumes(day)))
  {
    hide Total, Turnovers, Volumes, DaySum, VwapAt, DayStart, IsQuotient;
    DaySums(bars, i);
    VwapCases(bars, i);
    var day := bars[DayStart(bars, i)..i + 1];
    Undone(VwapAt(bars, i), bars[i].volume.Some?, Total(Turnovers(day)), Total(Volumes(day)));
  }

  lemma VwapCases(bars: seq<Bar>, i: nat)
    requires i < |bars|
    ensures
      var volume, turnover := DaySum(bars, Volume, i), DaySum(bars, PriceVolume, i);
      VwapAt(bars, i) == if bars[i].volume.None? || volume == 0.0 then None else Some(turnover / volume)
  {
    hide DaySum;
  }

  lemma Undone(v: Option<real>, present: bool, a: real, b: real)
    requires v == if !present || b == 0.0 then None else Some(a / b)
    ensures IsQuotient(v, present, a, b)
  {
  }

  // ---------------------------------------------------------------- bands

  /** The basic bands lie the same multiple of the average true range above and below the middle of the bar, and
      tracking starts on the upper one. */
  lemma BandsAroundMiddle(bars: seq<Bar>, length: nat, multiplier: real, i: nat)
    requires length >= 1 && i < |bars|
    ensures
      var x, atr := BandInputOf(bars, length, multiplier), RmaAt(TrueRanges(bars), length, i);
      && x.close[i] == bars[i].close && x.atr[i] == atr
      && (x.basicUpper[i].Some? <==> atr.Some?) && (x.basicLower[i].Some? <==> atr.Some?)
      && (atr.Some? ==>
            && x.basicUpper[i].value + x.basicLower[i].value == bars[i].high + bars[i].low
            && x.basicUpper[i].value - x.basicLower[i].value == 2.0 * multiplier * atr.value)
      && (i <= length - 1 ==> SupertrendAt(x, i).down && SupertrendAt(x, i).line == x.basicUpper[i])
  {
    hide RmaAt, SupertrendAt;
    BandCases(BandInputOf(bars, length, multiplier), i);
    if i > 0 {
      AverageRangeStarts(bars, length, i - 1);
    }
  }
}
