/** Whole-series indicators: each takes the complete series and returns a series of the same
    length, as the strategy computes them over the fetched window. The lemmas at the end show
    that none of them looks ahead: a value depends only on the bars up to its own. */
module Indicators {
  import opened Common

  datatype RawBar = RawBar(
    ts: int, open: Option<real>, high: Option<real>, low: Option<real>, close: Option<real>, volume: Option<real>)

  datatype Bar = Bar(ts: int, open: real, high: real, low: real, close: real, volume: Option<real>)

  /** Every strategy and risk parameter. Lengths below 1 and a zero stop multiplier make the
      program's own arithmetic undefined, so they are excluded. */
  datatype Settings = Settings(
    emaFast: nat, emaSlow: nat, rsiLength: nat, rsiBull: real, rsiBear: real,
    supertrendLength: nat, supertrendMultiplier: real, useVwap: bool,
    atrLength: nat, slMultiplier: real, tpMultiplier: real, minSlPoints: real,
    strikeStep: nat, sessionStart: int, sessionEnd: int)

  const DEFAULTS := Settings(9, 21, 14, 55.0, 45.0, 10, 3.0, false, 14, 1.5, 4.5, 0.0, 50, 33300, 56400)

  type Config = c: Settings |
    c.emaFast >= 1 && c.emaSlow >= 1 && c.rsiLength >= 1 && c.supertrendLength >= 1 && c.atrLength >= 1 &&
    c.slMultiplier != 0.0 && c.strikeStep >= 1
    witness DEFAULTS

  // ---------------------------------------------------------------- invalid bars

  predicate Usable(b: RawBar) {
    b.open.Some? && b.high.Some? && b.low.Some? && b.close.Some? &&
    b.open.value > 0.0 && b.high.value > 0.0 && b.low.value > 0.0 && b.close.value > 0.0 &&
    b.high.value >= b.low.value
  }

  function Clean(b: RawBar): Bar
    requires Usable(b)
  {
    Bar(b.ts, b.open.value, b.high.value, b.low.value, b.close.value, b.volume)
  }

  function DropInvalid(raw: seq<RawBar>): (bars: seq<Bar>)
    ensures |bars| <= |raw|
    ensures forall b :: b in bars ==> b.close > 0.0 && b.high >= b.low
    ensures forall b :: b in bars ==> exists r :: r in raw && r.ts == b.ts
  {
    if |raw| == 0 then []
    else
      var last := raw[|raw| - 1];
      assert raw == raw[..|raw| - 1] + [last];
      DropInvalid(raw[..|raw| - 1]) + (if Usable(last) then [Clean(last)] else [])
  }

  ghost predicate AscendingRaw(raw: seq<RawBar>) {
    forall i, j :: 0 <= i < j < |raw| ==> raw[i].ts < raw[j].ts
  }

  ghost predicate Ascending(bars: seq<Bar>) {
    forall i, j :: 0 <= i < j < |bars| ==> bars[i].ts < bars[j].ts
  }

  /** Dropping bars keeps the time order. */
  lemma {:induction false} DropInvalidAscending(raw: seq<RawBar>)
    requires AscendingRaw(raw)
    ensures Ascending(DropInvalid(raw))
    ensures forall b :: b in DropInvalid(raw) ==> b.ts <= raw[|raw| - 1].ts
  {
    if |raw| > 0 {
      var init := raw[..|raw| - 1];
      DropInvalidAscending(init);
      assert forall b :: b in DropInvalid(init) ==> b.ts < raw[|raw| - 1].ts;
    }
  }

  /** Validity of a bar is decided by that bar alone, so cutting the raw window cuts the clean one. */
  lemma {:induction false} DropInvalidConcat(a: seq<RawBar>, b: seq<RawBar>)
    ensures DropInvalid(a + b) == DropInvalid(a) + DropInvalid(b)
  {
    if |b| == 0 {
      assert a + b == a;
    } else {
      var m := |b| - 1;
      assert (a + b)[..|a + b| - 1] == a + b[..m];
      DropInvalidConcat(a, b[..m]);
    }
  }

  // ---------------------------------------------------------------- moving averages

  function EmaAt(xs: seq<real>, length: nat, i: nat): real
    requires i < |xs|
  {
    var alpha := 2.0 / (length as real + 1.0);
    if i == 0 then xs[0] else (1.0 - alpha) * EmaAt(xs, length, i - 1) + alpha * xs[i]
  }

  function EmaSeries(xs: seq<real>, length: nat): (r: seq<real>) {
    seq(|xs|, i requires 0 <= i < |xs| => EmaAt(xs, length, i))
  }

  function SumPresent(xs: seq<Option<real>>): real {
    if |xs| == 0 then 0.0
    else SumPresent(xs[..|xs| - 1]) + (if xs[|xs| - 1].Some? then xs[|xs| - 1].value else 0.0)
  }

  function CountPresent(xs: seq<Option<real>>): nat {
    if |xs| == 0 then 0
    else CountPresent(xs[..|xs| - 1]) + (if xs[|xs| - 1].Some? then 1 else 0)
  }

  /** The mean of the values that are present; missing when none is. */
  function MeanPresent(xs: seq<Option<real>>): Option<real> {
    if CountPresent(xs) == 0 then None else Some(SumPresent(xs) / CountPresent(xs) as real)
  }

  /** One Wilder smoothing step; a missing operand makes the result missing. */
  function Smooth(prev: Option<real>, x: Option<real>, length: nat): Option<real>
    requires length >= 1
  {
    if prev.Some? && x.Some?
    then Some((prev.value * (length as real - 1.0) + x.value) / length as real)
    else None
  }

  /** Wilder's average at bar i, seeded with the mean of the first `length` values. */
  function RmaAt(xs: seq<Option<real>>, length: nat, i: nat): Option<real>
    requires i < |xs| && length >= 1
  {
    if |xs| < length || i < length - 1 then None
    else if i == length - 1 then MeanPresent(xs[..length])
    else Smooth(RmaAt(xs, length, i - 1), xs[i], length)
  }

  function RmaSeries(xs: seq<Option<real>>, length: nat): (r: seq<Option<real>>)
    requires length >= 1
  {
    seq(|xs|, i requires 0 <= i < |xs| => RmaAt(xs, length, i))
  }

  method Rma(values: seq<Option<real>>, length: nat) returns (r: seq<Option<real>>)
    requires length >= 1
    ensures r == RmaSeries(values, length)
  {
    var n := |values|;
    var result := new Option<real>[n](_ => None);
    if n < length {
      return result[..];
    }
    result[length - 1] := MeanPresent(values[..length]);
    var i := length;
    while i < n
      invariant length <= i <= n
      invariant forall j :: 0 <= j < i ==> result[j] == RmaAt(values, length, j)
    {
      result[i] := Smooth(result[i - 1], values[i], length);
      i := i + 1;
    }
    r := result[..];
  }

  // ---------------------------------------------------------------- true range, RSI

  function TrueRangeAt(bars: seq<Bar>, i: nat): real
    requires i < |bars|
  {
    var b := bars[i];
    if i == 0 then b.high - b.low
    else
      var pc := bars[i - 1].close;
      Max(b.high - b.low, Max(Abs(b.high - pc), Abs(b.low - pc)))
  }

  function TrueRanges(bars: seq<Bar>): (r: seq<Option<real>>) {
    seq(|bars|, i requires 0 <= i < |bars| => Some(TrueRangeAt(bars, i)))
  }

  function Gains(bars: seq<Bar>): seq<Option<real>> {
    seq(|bars|, i requires 0 <= i < |bars| =>
      if i == 0 then None else Some(Max(bars[i].close - bars[i - 1].close, 0.0)))
  }

  function Losses(bars: seq<Bar>): seq<Option<real>> {
    seq(|bars|, i requires 0 <= i < |bars| =>
      if i == 0 then None else Some(-Min(bars[i].close - bars[i - 1].close, 0.0)))
  }

  /** Relative strength from the two smoothed averages; no average loss takes precedence.
      Averages of clipped changes are never negative, so the last guard only excludes a
      division the program never performs. */
  function RsiOf(gain: Option<real>, loss: Option<real>): Option<real> {
    if loss == Some(0.0) then Some(100.0)
    else if gain == Some(0.0) then Some(0.0)
    else if gain.Some? && loss.Some? && 1.0 + gain.value / loss.value != 0.0
    then Some(100.0 - 100.0 / (1.0 + gain.value / loss.value))
    else None
  }

  function RsiZip(gain: seq<Option<real>>, loss: seq<Option<real>>): (r: seq<Option<real>>)
    requires |gain| == |loss|
  {
    seq(|gain|, i requires 0 <= i < |gain| => RsiOf(gain[i], loss[i]))
  }

  function RsiSeries(bars: seq<Bar>, length: nat): (r: seq<Option<real>>)
    requires length >= 1
  {
    RsiZip(RmaSeries(Gains(bars), length), RmaSeries(Losses(bars), length))
  }

  // ---------------------------------------------------------------- supertrend

  datatype Band = Band(upper: Option<real>, lower: Option<real>, line: Option<real>, down: bool)

  predicate Less(a: Option<real>, b: Option<real>) { a.Some? && b.Some? && a.value < b.value }

  predicate Same(a: Option<real>, b: Option<real>) { a.Some? && b.Some? && a.value == b.value }

  function BasicBand(b: Bar, atr: Option<real>, multiplier: real): Option<real> {
    if atr.Some? then Some((b.high + b.low) / 2.0 + multiplier * atr.value) else None
  }

  /** hl2 plus a multiple of the average true range; missing while the average is. */
  function BasicBands(bars: seq<Bar>, atr: seq<Option<real>>, multiplier: real): (r: seq<Option<real>>)
    requires |bars| == |atr|
  {
    seq(|bars|, i requires 0 <= i < |bars| => BasicBand(bars[i], atr[i], multiplier))
  }

  /** The series a supertrend is computed from. */
  datatype BandInput = BandInput(
    close: seq<real>, atr: seq<Option<real>>, basicUpper: seq<Option<real>>, basicLower: seq<Option<real>>)
  {
    ghost predicate Valid() { |close| == |atr| == |basicUpper| == |basicLower| }
  }

  function Closes(bars: seq<Bar>): (r: seq<real>) {
    seq(|bars|, i requires 0 <= i < |bars| => bars[i].close)
  }

  function BandInputOf(bars: seq<Bar>, length: nat, multiplier: real): (r: BandInput)
    requires length >= 1
    ensures r.Valid() && |r.close| == |bars|
  {
    var atr := RmaSeries(TrueRanges(bars), length);
    BandInput(Closes(bars), atr, BasicBands(bars, atr, multiplier), BasicBands(bars, atr, -multiplier))
  }

  function NextBand(
      prev: Band, prevClose: real, close: real, basicUpper: Option<real>, basicLower: Option<real>): Band
  {
    var upper :=
      if Less(basicUpper, prev.upper) || Less(prev.upper, Some(prevClose)) then basicUpper else prev.upper;
    var lower :=
      if Less(prev.lower, basicLower) || Less(Some(prevClose), prev.lower) then basicLower else prev.lower;
    var down :=
      if Same(prev.line, prev.upper) then !Less(upper, Some(close)) else Less(Some(close), lower);
    Band(upper, lower, if down then upper else lower, down)
  }

  /** The bands at bar i; they restart while the previous bar has no average true range. */
  function SupertrendAt(x: BandInput, i: nat): Band
    requires x.Valid() && i < |x.close|
  {
    if i == 0 || x.atr[i - 1].None? then Band(x.basicUpper[i], x.basicLower[i], x.basicUpper[i], true)
    else NextBand(SupertrendAt(x, i - 1), x.close[i - 1], x.close[i], x.basicUpper[i], x.basicLower[i])
  }

  function SupertrendSeries(x: BandInput): (r: seq<Band>)
    requires x.Valid()
  {
    seq(|x.close|, i requires 0 <= i < |x.close| => SupertrendAt(x, i))
  }

  /** One bar of the supertrend loop, on its four arrays' previous entries. */
  method BandStep(
      prev: Band, prevClose: real, close: real, basicUpper: Option<real>, basicLower: Option<real>)
    returns (upper: Option<real>, lower: Option<real>, line: Option<real>, down: bool)
    ensures Band(upper, lower, line, down) == NextBand(prev, prevClose, close, basicUpper, basicLower)
  {
    upper := if Less(basicUpper, prev.upper) || Less(prev.upper, Some(prevClose)) then basicUpper else prev.upper;
    lower := if Less(prev.lower, basicLower) || Less(Some(prevClose), prev.lower) then basicLower else prev.lower;
    if Same(prev.line, prev.upper) {
      down := !Less(upper, Some(close));
    } else {
      down := Less(Some(close), lower);
    }
    line := if down then upper else lower;
  }

  /** What a step does to complete bands: each only tightens (the upper one falls, the lower one
      rises) unless the previous close broke through it, when it restarts at the basic band; the
      line is the band of the new direction; and the direction turns exactly on a close beyond the
      band the line was on (the upper one if the two coincide). */
  lemma BandTurns(prev: Band, prevClose: real, close: real, basicUpper: Option<real>, basicLower: Option<real>)
    requires prev.upper.Some? && prev.lower.Some? && basicUpper.Some? && basicLower.Some?
    requires prev.line == if prev.down then prev.upper else prev.lower
    ensures
      var next := NextBand(prev, prevClose, close, basicUpper, basicLower);
      && next.upper == (if prevClose > prev.upper.value then basicUpper
                        else Some(Min(basicUpper.value, prev.upper.value)))
      && next.lower == (if prevClose < prev.lower.value then basicLower
                        else Some(Max(basicLower.value, prev.lower.value)))
      && next.line == (if next.down then next.upper else next.lower)
      && (next.down <==> if prev.down || prev.upper == prev.lower then close <= next.upper.value
                         else close < next.lower.value)
  {
  }

  /** A bar's bands from those of the bar before. */
  lemma BandCases(x: BandInput, i: nat)
    requires x.Valid() && i < |x.close|
    ensures SupertrendAt(x, i) ==
      if i == 0 || x.atr[i - 1].None? then Band(x.basicUpper[i], x.basicLower[i], x.basicUpper[i], true)
      else NextBand(SupertrendAt(x, i - 1), x.close[i - 1], x.close[i], x.basicUpper[i], x.basicLower[i])
  {
  }

  /** The loop body: the restart or the step. */
  method BandsAt(x: BandInput, i: nat, prev: Band)
    returns (upper: Option<real>, lower: Option<real>, line: Option<real>, down: bool)
    requires x.Valid() && i < |x.close| && (i > 0 ==> prev == SupertrendAt(x, i - 1))
    ensures Band(upper, lower, line, down) == SupertrendAt(x, i)
  {
    hide NextBand;
    BandCases(x, i);
    var basicUpper, basicLower := x.basicUpper[i], x.basicLower[i];
    if i == 0 || x.atr[i - 1].None? {
      upper, lower, down := basicUpper, basicLower, true;
      line := upper;
    } else {
      upper, lower, line, down := BandStep(prev, x.close[i - 1], x.close[i], basicUpper, basicLower);
    }
  }

  method Supertrend(x: BandInput) returns (r: seq<Band>)
    requires x.Valid()
    ensures r == SupertrendSeries(x)
  {
    hide NextBand, SupertrendAt;
    var n := |x.close|;
    var upper := new Option<real>[n](_ => None);
    var lower := new Option<real>[n](_ => None);
    var line := new Option<real>[n](_ => None);
    var down := new bool[n](_ => true);
    var prev := Band(None, None, None, true);
    for i := 0 to n
      invariant i > 0 ==> prev == SupertrendAt(x, i - 1)
      invariant forall j :: 0 <= j < i ==> Band(upper[j], lower[j], line[j], down[j]) == SupertrendAt(x, j)
    {
      var u, l, z, d := BandsAt(x, i, prev);
      upper[i], lower[i], line[i], down[i] := u, l, z, d;
      prev := Band(u, l, z, d);
    }
    r := seq(n, j requires 0 <= j < n reads upper, lower, line, down => Band(upper[j], lower[j], line[j], down[j]));
  }

  /** From bar `start` on the average true range and the basic bands exist, and before it not. */
  ghost predicate StartsAt(x: BandInput, start: nat)
    requires x.Valid()
  {
    forall k :: 0 <= k < |x.close| ==>
      (x.atr[k].Some? <==> k >= start) && (x.basicUpper[k].Some? <==> k >= start) &&
      (x.basicLower[k].Some? <==> k >= start)
  }

  lemma {:induction false} BandsTracked(x: BandInput, start: nat, i: nat)
    requires x.Valid() && StartsAt(x, start) && start <= i < |x.close|
    ensures
      var b := SupertrendAt(x, i);
      b.upper.Some? && b.lower.Some? && b.line == if b.down then b.upper else b.lower
  {
    hide SupertrendAt, NextBand;
    BandCases(x, i);
    if i > start {
      BandsTracked(x, start, i - 1);
      BandTurns(SupertrendAt(x, i - 1), x.close[i - 1], x.close[i], x.basicUpper[i], x.basicLower[i]);
    }
  }

  /** While no close breaks above the upper band it never rises, over any stretch of bars; and
      once the line is on it, it stays there until a close does. */
  lemma {:induction false} UpperBandHolds(x: BandInput, start: nat, i: nat, j: nat)
    requires x.Valid() && StartsAt(x, start) && start <= i <= j < |x.close|
    requires forall k :: i < k <= j ==> SupertrendAt(x, k).upper.Some? ==> x.close[k] <= SupertrendAt(x, k).upper.value
    requires SupertrendAt(x, i).upper.Some? ==> x.close[i] <= SupertrendAt(x, i).upper.value
    ensures SupertrendAt(x, i).upper.Some? && SupertrendAt(x, j).upper.Some?
    ensures SupertrendAt(x, j).upper.value <= SupertrendAt(x, i).upper.value
    ensures SupertrendAt(x, i).down ==> SupertrendAt(x, j).down
  {
    hide SupertrendAt, NextBand;
    BandsTracked(x, start, i);
    if j > i {
      UpperBandHolds(x, start, i, j - 1);
      BandsTracked(x, start, j - 1);
      BandsTracked(x, start, j);
      BandCases(x, j);
      BandTurns(SupertrendAt(x, j - 1), x.close[j - 1], x.close[j], x.basicUpper[j], x.basicLower[j]);
    }
  }

  /** The mirror image: while no close breaks below the lower band it never falls, and an uptrend
      whose bands do not meet goes on. */
  lemma {:induction false} LowerBandHolds(x: BandInput, start: nat, i: nat, j: nat)
    requires x.Valid() && StartsAt(x, start) && start <= i <= j < |x.close|
    requires forall k :: i <= k <= j ==>
      SupertrendAt(x, k).lower.Some? ==>
        x.close[k] >= SupertrendAt(x, k).lower.value && SupertrendAt(x, k).upper != SupertrendAt(x, k).lower
    ensures SupertrendAt(x, i).lower.Some? && SupertrendAt(x, j).lower.Some?
    ensures SupertrendAt(x, j).lower.value >= SupertrendAt(x, i).lower.value
    ensures !SupertrendAt(x, i).down ==> !SupertrendAt(x, j).down
  {
    hide SupertrendAt, NextBand;
    BandsTracked(x, start, i);
    if j > i {
      LowerBandHolds(x, start, i, j - 1);
      BandsTracked(x, start, j - 1);
      BandsTracked(x, start, j);
      BandCases(x, j);
      BandTurns(SupertrendAt(x, j - 1), x.close[j - 1], x.close[j], x.basicUpper[j], x.basicLower[j]);
    }
  }

  lemma {:induction false} AverageRangeStarts(bars: seq<Bar>, length: nat, i: nat)
    requires i < |bars| && length >= 1
    ensures RmaAt(TrueRanges(bars), length, i).Some? <==> i >= length - 1
  {
    hide RmaAt, MeanPresent;
    var xs := TrueRanges(bars);
    RmaCases(xs, length, i);
    if i == length - 1 {
      MeanOfFull(xs[..length]);
    } else if i >= length {
      AverageRangeStarts(bars, length, i - 1);
    }
  }

  lemma MeanOfFull(xs: seq<Option<real>>)
    requires AllPresent(xs) && |xs| > 0
    ensures MeanPresent(xs).Some?
  {
    FullCount(xs);
  }

  /** The bands of any window start where its average true range does, so all of the above holds
      of them from there on. */
  lemma WindowBandsStart(bars: seq<Bar>, length: nat, multiplier: real)
    requires length >= 1
    ensures StartsAt(BandInputOf(bars, length, multiplier), length - 1)
  {
    hide RmaAt;
    forall k | 0 <= k < |bars|
      ensures RmaAt(TrueRanges(bars), length, k).Some? <==> k >= length - 1
    {
      AverageRangeStarts(bars, length, k);
    }
  }

  // ---------------------------------------------------------------- session VWAP

  function PriceVolume(b: Bar): real {
    if b.volume.Some? then (b.high + b.low + b.close) / 3.0 * b.volume.value else 0.0
  }

  function Volume(b: Bar): real { if b.volume.Some? then b.volume.value else 0.0 }

  /** Sum of f over the bars of bar i's day, up to bar i. */
  function DaySum(bars: seq<Bar>, f: Bar -> real, i: nat): real
    requires i < |bars|
  {
    if i == 0 || Day(bars[i - 1].ts) != Day(bars[i].ts) then f(bars[i])
    else DaySum(bars, f, i - 1) + f(bars[i])
  }

  function VwapAt(bars: seq<Bar>, i: nat): Option<real>
    requires i < |bars|
  {
    var volume := DaySum(bars, Volume, i);
    if bars[i].volume.None? || volume == 0.0 then None else Some(DaySum(bars, PriceVolume, i) / volume)
  }

  function VwapSeries(bars: seq<Bar>): (r: seq<Option<real>>) {
    seq(|bars|, i requires 0 <= i < |bars| => VwapAt(bars, i))
  }

  // ---------------------------------------------------------------- the indicator frame

  datatype Frame = Frame(
    emaFast: seq<real>, emaSlow: seq<real>, rsi: seq<Option<real>>, atr: seq<Option<real>>,
    supertrend: seq<Band>, vwap: seq<Option<real>>)
  {
    ghost predicate Fits(n: nat) {
      |emaFast| == |emaSlow| == |rsi| == |atr| == |supertrend| == |vwap| == n
    }
  }

  function FrameOf(bars: seq<Bar>, cfg: Config): (f: Frame)
    ensures f.Fits(|bars|)
  {
    Frame(EmaSeries(Closes(bars), cfg.emaFast), EmaSeries(Closes(bars), cfg.emaSlow),
          RsiSeries(bars, cfg.rsiLength), RmaSeries(TrueRanges(bars), cfg.atrLength),
          SupertrendSeries(BandInputOf(bars, cfg.supertrendLength, cfg.supertrendMultiplier)), VwapSeries(bars))
  }

  method ComputeIndicators(bars: seq<Bar>, cfg: Config) returns (f: Frame)
    ensures f == FrameOf(bars, cfg)
  {
    var gain := Rma(Gains(bars), cfg.rsiLength);
    var loss := Rma(Losses(bars), cfg.rsiLength);
    var atr := Rma(TrueRanges(bars), cfg.atrLength);
    var bands := Supertrend(BandInputOf(bars, cfg.supertrendLength, cfg.supertrendMultiplier));
    f := Frame(EmaSeries(Closes(bars), cfg.emaFast), EmaSeries(Closes(bars), cfg.emaSlow),
               RsiZip(gain, loss), atr, bands, VwapSeries(bars));
  }

  // ---------------------------------------------------------------- no look-ahead

  lemma {:induction false} EmaPrefix(xs: seq<real>, length: nat, k: nat, i: nat)
    requires i < k <= |xs|
    ensures EmaAt(xs[..k], length, i) == EmaAt(xs, length, i)
  {
    if i > 0 {
      EmaPrefix(xs, length, k, i - 1);
    }
  }

  /** The seed waits for `length` values, so a short window has no value where a long one
      has none either. */
  lemma {:induction false} RmaPrefix(xs: seq<Option<real>>, length: nat, k: nat, i: nat)
    requires i < k <= |xs| && length >= 1
    ensures RmaAt(xs[..k], length, i) == RmaAt(xs, length, i)
  {
    if length <= k && i >= length - 1 {
      assert xs[..k][..length] == xs[..length];
      if i > length - 1 {
        RmaPrefix(xs, length, k, i - 1);
      }
    }
  }

  /** The first k entries of each input series. */
  ghost function Cut(x: BandInput, k: nat): (r: BandInput)
    requires x.Valid() && k <= |x.close|
    ensures r.Valid() && |r.close| == k
  {
    BandInput(x.close[..k], x.atr[..k], x.basicUpper[..k], x.basicLower[..k])
  }

  lemma {:induction false} SupertrendPrefix(x: BandInput, k: nat, i: nat)
    requires x.Valid() && i < k <= |x.close|
    ensures SupertrendAt(Cut(x, k), i) == SupertrendAt(x, i)
  {
    if i > 0 {
      SupertrendPrefix(x, k, i - 1);
    }
  }

  lemma {:induction false} DaySumPrefix(bars: seq<Bar>, f: Bar -> real, k: nat, i: nat)
    requires i < k <= |bars|
    ensures DaySum(bars[..k], f, i) == DaySum(bars, f, i)
  {
    if i > 0 {
      DaySumPrefix(bars, f, k, i - 1);
    }
  }

  lemma EmaSeriesPrefix(xs: seq<real>, length: nat, k: nat)
    requires k <= |xs|
    ensures EmaSeries(xs[..k], length) == EmaSeries(xs, length)[..k]
  {
    forall i | 0 <= i < k
      ensures EmaSeries(xs[..k], length)[i] == EmaSeries(xs, length)[i]
    {
      EmaPrefix(xs, length, k, i);
    }
  }

  lemma RmaSeriesPrefix(xs: seq<Option<real>>, length: nat, k: nat)
    requires k <= |xs| && length >= 1
    ensures RmaSeries(xs[..k], length) == RmaSeries(xs, length)[..k]
  {
    forall i | 0 <= i < k
      ensures RmaSeries(xs[..k], length)[i] == RmaSeries(xs, length)[i]
    {
      RmaPrefix(xs, length, k, i);
    }
  }

  lemma RsiZipPrefix(gain: seq<Option<real>>, loss: seq<Option<real>>, k: nat)
    requires k <= |gain| == |loss|
    ensures RsiZip(gain[..k], loss[..k]) == RsiZip(gain, loss)[..k]
  {
  }

  lemma RsiSeriesPrefix(bars: seq<Bar>, length: nat, k: nat)
    requires k <= |bars| && length >= 1
    ensures RsiSeries(bars[..k], length) == RsiSeries(bars, length)[..k]
  {
    assert Gains(bars[..k]) == Gains(bars)[..k];
    assert Losses(bars[..k]) == Losses(bars)[..k];
    RmaSeriesPrefix(Gains(bars), length, k);
    RmaSeriesPrefix(Losses(bars), length, k);
    RsiZipPrefix(RmaSeries(Gains(bars), length), RmaSeries(Losses(bars), length), k);
  }

  lemma BasicBandsPrefix(bars: seq<Bar>, atr: seq<Option<real>>, multiplier: real, k: nat)
    requires k <= |bars| == |atr|
    ensures BasicBands(bars[..k], atr[..k], multiplier) == BasicBands(bars, atr, multiplier)[..k]
  {
  }

  lemma SupertrendSeriesPrefix(bars: seq<Bar>, length: nat, multiplier: real, k: nat)
    requires k <= |bars| && length >= 1
    ensures SupertrendSeries(BandInputOf(bars[..k], length, multiplier))
         == SupertrendSeries(BandInputOf(bars, length, multiplier))[..k]
  {
    var x := BandInputOf(bars, length, multiplier);
    assert TrueRanges(bars[..k]) == TrueRanges(bars)[..k];
    RmaSeriesPrefix(TrueRanges(bars), length, k);
    BasicBandsPrefix(bars, x.atr, multiplier, k);
    BasicBandsPrefix(bars, x.atr, -multiplier, k);
    assert Closes(bars[..k]) == Closes(bars)[..k];
    assert BandInputOf(bars[..k], length, multiplier) == Cut(x, k);
    CutSeries(x, k);
  }

  lemma CutSeries(x: BandInput, k: nat)
    requires x.Valid() && k <= |x.close|
    ensures SupertrendSeries(Cut(x, k)) == SupertrendSeries(x)[..k]
  {
    forall i | 0 <= i < k
      ensures SupertrendSeries(Cut(x, k))[i] == SupertrendSeries(x)[i]
    {
      SupertrendPrefix(x, k, i);
    }
  }

  lemma VwapSeriesPrefix(bars: seq<Bar>, k: nat)
    requires k <= |bars|
    ensures VwapSeries(bars[..k]) == VwapSeries(bars)[..k]
  {
    forall i | 0 <= i < k
      ensures VwapSeries(bars[..k])[i] == VwapSeries(bars)[i]
    {
      DaySumPrefix(bars, Volume, k, i);
      DaySumPrefix(bars, PriceVolume, k, i);
    }
  }

  ghost function CutFrame(f: Frame, k: nat): (r: Frame)
    requires exists n :: f.Fits(n) && k <= n
    ensures r.Fits(k)
  {
    Frame(f.emaFast[..k], f.emaSlow[..k], f.rsi[..k], f.atr[..k], f.supertrend[..k], f.vwap[..k])
  }

  /** No look-ahead in any column of the indicator frame. */
  lemma FramePrefix(bars: seq<Bar>, cfg: Config, k: nat)
    requires k <= |bars|
    ensures FrameOf(bars, cfg).Fits(|bars|) && FrameOf(bars[..k], cfg) == CutFrame(FrameOf(bars, cfg), k)
  {
    assert Closes(bars[..k]) == Closes(bars)[..k];
    EmaSeriesPrefix(Closes(bars), cfg.emaFast, k);
    EmaSeriesPrefix(Closes(bars), cfg.emaSlow, k);
    RsiSeriesPrefix(bars, cfg.rsiLength, k);
    assert TrueRanges(bars[..k]) == TrueRanges(bars)[..k];
    RmaSeriesPrefix(TrueRanges(bars), cfg.atrLength, k);
    SupertrendSeriesPrefix(bars, cfg.supertrendLength, cfg.supertrendMultiplier, k);
    VwapSeriesPrefix(bars, k);
  }

  // ---------------------------------------------------------------- Wilder's average against its Pine form

  ghost predicate AllPresent(xs: seq<Option<real>>) {
    forall j :: 0 <= j < |xs| ==> xs[j].Some?
  }

  lemma {:induction false} FullCount(xs: seq<Option<real>>)
    requires AllPresent(xs)
    ensures CountPresent(xs) == |xs|
  {
    if |xs| > 0 {
      FullCount(xs[..|xs| - 1]);
    }
  }

  /** Wilder's recurrence, bar by bar. */
  lemma RmaCases(xs: seq<Option<real>>, length: nat, i: nat)
    requires i < |xs| && length >= 1
    ensures RmaAt(xs, length, i) ==
      if i < length - 1 then None
      else if i == length - 1 then MeanPresent(xs[..length])
      else Smooth(RmaAt(xs, length, i - 1), xs[i], length)
  {
  }

  /** How many values up to and including i are present without a gap. */
  function Unbroken(xs: seq<Option<real>>, i: nat): (n: nat)
    requires i < |xs|
    ensures n <= i + 1
    ensures forall j :: i - n < j <= i ==> xs[j].Some?
  {
    if xs[i].None? then 0 else if i == 0 then 1 else Unbroken(xs, i - 1) + 1
  }

  /** The research form at bar i: once it has a value it goes on smoothing, and a missing value
      repeats the last result; before that it waits for `length` values without a gap. */
  function PineAt(xs: seq<Option<real>>, length: nat, i: nat): Option<real>
    requires i < |xs| && length >= 1
  {
    var prev := if i == 0 then None else PineAt(xs, length, i - 1);
    if prev.Some? then (if xs[i].Some? then Smooth(prev, xs[i], length) else prev)
    else if Unbroken(xs, i) >= length then MeanPresent(xs[i + 1 - length..i + 1])
    else None
  }

  function PineSeries(xs: seq<Option<real>>, length: nat): (r: seq<Option<real>>)
    requires length >= 1
  {
    seq(|xs|, i requires 0 <= i < |xs| => PineAt(xs, length, i))
  }

  lemma MeanOfUnbroken(xs: seq<Option<real>>, length: nat, i: nat)
    requires i < |xs| && length >= 1 && Unbroken(xs, i) >= length
    ensures MeanPresent(xs[i + 1 - length..i + 1]).Some?
  {
    hide Unbroken;
    FullCount(xs[i + 1 - length..i + 1]);
  }

  lemma UnbrokenStep(xs: seq<Option<real>>, i: nat)
    requires i < |xs|
    ensures Unbroken(xs, i) == if xs[i].None? then 0 else (if i == 0 then 0 else Unbroken(xs, i - 1)) + 1
  {
  }

  /** The research loop's body while it waits for its seed. */
  method PineWait(values: seq<Option<real>>, length: nat, i: nat, run0: nat) returns (run: nat, x: Option<real>)
    requires i < |values| && length >= 1
    requires run0 == if i == 0 then 0 else Unbroken(values, i - 1)
    requires i > 0 ==> PineAt(values, length, i - 1).None?
    ensures run == Unbroken(values, i) && x == PineAt(values, length, i)
    ensures x.Some? <==> run >= length
  {
    hide Unbroken, MeanPresent;
    UnbrokenStep(values, i);
    run := if values[i].Some? then run0 + 1 else 0;
    x := None;
    if run >= length {
      MeanOfUnbroken(values, length, i);
      x := MeanPresent(values[i + 1 - length..i + 1]);
    }
  }

  /** And once it is seeded. */
  method PineStep(values: seq<Option<real>>, length: nat, i: nat, prev: Option<real>) returns (x: Option<real>)
    requires 0 < i < |values| && length >= 1 && prev == PineAt(values, length, i - 1) && prev.Some?
    ensures x == PineAt(values, length, i) && x.Some?
  {
    hide Unbroken, MeanPresent;
    x := if values[i].Some? then Smooth(prev, values[i], length) else prev;
  }

  method PineRma(values: seq<Option<real>>, length: nat) returns (r: seq<Option<real>>)
    requires length >= 1
    ensures r == PineSeries(values, length)
  {
    hide PineAt, Unbroken, MeanPresent, Smooth;
    var n := |values|;
    var result := new Option<real>[n](_ => None);
    var validRun: nat := 0;
    var seeded := false;
    for i := 0 to n
      invariant seeded <==> i > 0 && PineAt(values, length, i - 1).Some?
      invariant !seeded ==> validRun == if i == 0 then 0 else Unbroken(values, i - 1)
      invariant forall j :: 0 <= j < i ==> result[j] == PineAt(values, length, j)
    {
      if !seeded {
        var x: Option<real>;
        validRun, x := PineWait(values, length, i, validRun);
        result[i] := x;
        seeded := x.Some?;
      } else {
        result[i] := PineStep(values, length, i, result[i - 1]);
      }
    }
    r := result[..];
  }

  /** The research form has a value exactly from the end of the first `length` values without a
      gap on, and then never loses it again: a later gap repeats the last result. */
  lemma {:induction false} PineStartsIff(xs: seq<Option<real>>, length: nat, i: nat)
    requires i < |xs| && length >= 1
    ensures PineAt(xs, length, i).Some? <==> exists j :: 0 <= j <= i && Unbroken(xs, j) >= length
    ensures 0 < i && xs[i].None? ==> PineAt(xs, length, i) == PineAt(xs, length, i - 1)
  {
    hide Unbroken, MeanPresent;
    if i > 0 {
      PineStartsIff(xs, length, i - 1);
    }
    if Unbroken(xs, i) >= length {
      MeanOfUnbroken(xs, length, i);
    }
  }

  lemma {:induction false} FullRun(xs: seq<Option<real>>, i: nat)
    requires AllPresent(xs) && i < |xs|
    ensures Unbroken(xs, i) == i + 1
  {
    if i > 0 {
      FullRun(xs, i - 1);
    }
  }

  /** On a series without a missing value the research form is the canonical one. */
  lemma {:induction false} PineIsRma(xs: seq<Option<real>>, length: nat, i: nat)
    requires AllPresent(xs) && i < |xs| && length >= 1
    ensures PineAt(xs, length, i) == RmaAt(xs, length, i)
    ensures PineAt(xs, length, i).Some? <==> i >= length - 1
  {
    hide Unbroken, MeanPresent, RmaAt;
    RmaCases(xs, length, i);
    FullRun(xs, i);
    if i > 0 {
      PineIsRma(xs, length, i - 1);
    }
    if i == length - 1 {
      MeanOfUnbroken(xs, length, i);
    }
  }

  // ---------------------------------------------------------------- the range of the relative strength

  ghost predicate NoneNegative(xs: seq<Option<real>>) {
    forall j :: 0 <= j < |xs| && xs[j].Some? ==> xs[j].value >= 0.0
  }

  lemma {:induction false} MeanNotNegative(xs: seq<Option<real>>)
    requires NoneNegative(xs)
    ensures SumPresent(xs) >= 0.0
    ensures MeanPresent(xs).Some? ==> MeanPresent(xs).value >= 0.0
  {
    if |xs| > 0 {
      MeanNotNegative(xs[..|xs| - 1]);
    }
    if CountPresent(xs) > 0 {
      QuotientNotNegative(SumPresent(xs), CountPresent(xs) as real);
    }
  }

  lemma QuotientNotNegative(x: real, y: real)
    requires x >= 0.0 && y > 0.0
    ensures x / y >= 0.0
  {
  }

  lemma SmoothNotNegative(prev: Option<real>, x: Option<real>, length: nat)
    requires length >= 1
    requires (prev.Some? ==> prev.value >= 0.0) && (x.Some? ==> x.value >= 0.0)
    ensures Smooth(prev, x, length).Some? ==> Smooth(prev, x, length).value >= 0.0
  {
  }

  /** Smoothing values that are not negative never gives a negative one. */
  lemma {:induction false} RmaNotNegative(xs: seq<Option<real>>, length: nat, i: nat)
    requires NoneNegative(xs) && i < |xs| && length >= 1
    ensures RmaAt(xs, length, i).Some? ==> RmaAt(xs, length, i).value >= 0.0
  {
    hide MeanPresent, Smooth;
    RmaCases(xs, length, i);
    if i == length - 1 {
      MeanNotNegative(xs[..length]);
    } else if i >= length {
      RmaNotNegative(xs, length, i - 1);
      SmoothNotNegative(RmaAt(xs, length, i - 1), xs[i], length);
    }
  }

  lemma StrengthInRange(gain: real, loss: real)
    requires gain >= 0.0 && loss >= 0.0
    ensures
      var r := RsiOf(Some(gain), Some(loss));
      r.Some? && 0.0 <= r.value <= 100.0 && (r.value == 100.0 <==> loss == 0.0)
  {
  }

  /** Relative strength is a value from 0 to 100 wherever both averages exist, and 100 exactly
      when there is no average loss, even if there is no average gain either. */
  lemma RsiInRange(bars: seq<Bar>, length: nat, i: nat)
    requires i < |bars| && length >= 1
    ensures
      var gain, loss := RmaAt(Gains(bars), length, i), RmaAt(Losses(bars), length, i);
      var r := RsiSeries(bars, length)[i];
      gain.Some? && loss.Some? ==> r.Some? && 0.0 <= r.value <= 100.0 && (r.value == 100.0 <==> loss.value == 0.0)
  {
    hide RmaAt, RsiOf;
    RmaNotNegative(Gains(bars), length, i);
    RmaNotNegative(Losses(bars), length, i);
    var gain, loss := RmaAt(Gains(bars), length, i), RmaAt(Losses(bars), length, i);
    if gain.Some? && loss.Some? {
      StrengthInRange(gain.value, loss.value);
    }
  }
}
