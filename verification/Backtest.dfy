/** Round-trip trades paired from strategy events, and the one-pass metrics over them, each
    proved against the definition it stands for. */
module Backtest {
  import opened Common
  import opened Strategy
  import opened StrategyTheorems
  import opened Account

  datatype Trade = Trade(
    entryTime: int, exitTime: int, side: Side, entryPrice: real, exitPrice: real, reason: Kind, points: real,
    strike: int)

  predicate ClosesTrade(e: Event, squareOffs: bool) { IsExit(e) || (squareOffs && e.kind.SquareOff?) }

  function LevelOr(e: Event): real { if e.exitLevel.Some? then e.exitLevel.value else 0.0 }

  /** The round trip of an entry and the event that closes it; slippage worsens the exit. */
  function TradeOf(entry: Event, exit: Event, slippage: real): Trade
    requires IsEntry(entry)
  {
    var side := EntrySide(entry.kind);
    var level := if side.Call? then LevelOr(exit) - slippage else LevelOr(exit) + slippage;
    var points := if side.Call? then level - entry.price else entry.price - level;
    Trade(entry.ts, exit.ts, side, entry.price, level, exit.kind, points,
          if entry.strike.Some? then entry.strike.value else 0)
  }

  /** The pairing so far and the entry still open. */
  datatype Pairing = Pairing(trades: seq<Trade>, open: Option<Event>) {
    ghost predicate Valid() { open.Some? ==> IsEntry(open.value) }
  }

  function PairAll(es: seq<Event>, slippage: real, squareOffs: bool): (r: Pairing)
    ensures r.Valid()
  {
    if |es| == 0 then Pairing([], None)
    else
      var e, r := es[|es| - 1], PairAll(es[..|es| - 1], slippage, squareOffs);
      if IsEntry(e) then Pairing(r.trades, Some(e))
      else if ClosesTrade(e, squareOffs) && r.open.Some?
      then Pairing(r.trades + [TradeOf(r.open.value, e, slippage)], None)
      else r
  }

  /** Pairing in one pass; with square-offs it is the research form, without the production one. */
  method Pair(events: seq<Event>, slippage: real, squareOffs: bool) returns (trades: seq<Trade>)
    ensures trades == PairAll(events, slippage, squareOffs).trades
  {
    trades := [];
    var open: Option<Event> := None;
    for i := 0 to |events|
      invariant Pairing(trades, open) == PairAll(events[..i], slippage, squareOffs)
    {
      var e := events[i];
      assert events[..i + 1][..i] == events[..i];
      if IsEntry(e) {
        open := Some(e);
      } else if ClosesTrade(e, squareOffs) && open.Some? {
        trades := trades + [TradeOf(open.value, e, slippage)];
        open := None;
      }
    }
    assert events[..|events|] == events;
  }

  /** Entries at even places, each closed by the event after it. */
  ghost predicate Zigzag(es: seq<Event>, squareOffs: bool) {
    forall i :: 0 <= i < |es| ==>
      if i % 2 == 0 then IsEntry(es[i]) else !IsEntry(es[i]) && ClosesTrade(es[i], squareOffs)
  }

  lemma {:induction false} AlternatingIsZigzag(es: seq<Event>)
    requires Alternates(es, Flat)
    ensures Zigzag(es, false)
  {
    if |es| > 0 {
      var n := |es| - 1;
      forall i | 0 <= i < n
        ensures Before(es[..n], i, Flat) == Before(es, i, Flat)
      {
      }
      AlternatingIsZigzag(es[..n]);
      assert forall i :: 0 <= i < n ==> es[..n][i] == es[i];
      assert Follows(es[n], Before(es, n, Flat));
      if n > 0 {
        assert Follows(es[n - 1], Before(es, n - 1, Flat));
      }
    }
  }

  /** Every exit closes the entry just before it: one trade per exit, in order, and nothing
      else; an entry left open at the end makes no trade. */
  lemma {:induction false} OneTradePerExit(es: seq<Event>, slippage: real, squareOffs: bool)
    requires Zigzag(es, squareOffs)
    ensures
      var trades := PairAll(es, slippage, squareOffs).trades;
      && |trades| == |es| / 2
      && forall k :: 0 <= k < |trades| ==>
           IsEntry(es[2 * k]) && trades[k] == TradeOf(es[2 * k], es[2 * k + 1], slippage)
    ensures PairAll(es, slippage, squareOffs).open == if |es| % 2 == 1 then Some(es[|es| - 1]) else None
  {
    if |es| > 0 {
      var n := |es| - 1;
      var init := es[..n];
      assert forall i :: 0 <= i < n ==> init[i] == es[i];
      OneTradePerExit(init, slippage, squareOffs);
      if n % 2 == 1 {
        assert n == 2 * (n / 2) + 1;
      }
    }
  }

  /** The strategy's own event lists qualify, whatever the window. */
  lemma RunTrades(rows: seq<Row>, slippage: real)
    ensures |PairAll(Events(rows, Flat), slippage, false).trades| == |Events(rows, Flat)| / 2
  {
    EventsAlternate(rows, Flat);
    AlternatingIsZigzag(Events(rows, Flat));
    OneTradePerExit(Events(rows, Flat), slippage, false);
  }

  /** Entered one after the other. */
  ghost predicate EnteredInOrder(trades: seq<Trade>) {
    forall i, j :: 0 <= i < j < |trades| ==> trades[i].entryTime < trades[j].entryTime
  }

  /** So are the trades paired from any alternating event list in time order. */
  lemma PairedInOrder(es: seq<Event>, slippage: real, squareOffs: bool)
    requires Zigzag(es, squareOffs) && AscendingEvents(es)
    ensures EnteredInOrder(PairAll(es, slippage, squareOffs).trades)
  {
    hide PairAll, Zigzag;
    OneTradePerExit(es, slippage, squareOffs);
  }

  /** A round trip is its entry's price against its exit's level, worsened by the slippage, in the direction of
      the entry; and it carries the entry's time and strike and the exit's time and kind. */
  lemma TripOfPair(es: seq<Event>, slippage: real, squareOffs: bool, k: nat)
    requires Zigzag(es, squareOffs) && k < |PairAll(es, slippage, squareOffs).trades|
    ensures 2 * k + 1 < |es| && IsEntry(es[2 * k])
    ensures
      var entry, exit, t := es[2 * k], es[2 * k + 1], PairAll(es, slippage, squareOffs).trades[k];
      var sign := if entry.kind.EntryCall? then 1.0 else -1.0;
      && t.entryTime == entry.ts && t.exitTime == exit.ts && t.reason == exit.kind && t.entryPrice == entry.price
      && (t.side.Call? <==> entry.kind.EntryCall?)
      && (entry.strike.Some? ==> t.strike == entry.strike.value)
      && (exit.exitLevel.Some? ==> t.exitPrice == exit.exitLevel.value - sign * slippage)
      && t.points == sign * (t.exitPrice - t.entryPrice)
  {
    hide PairAll;
    OneTradePerExit(es, slippage, squareOffs);
  }

  /** A trade of the strategy loses exactly the stop distance of its entry bar or gains exactly its
      target distance, by the way it ended; the walk from flat determines both. */
  ghost predicate StopOrTarget(entry: Event, t: Trade) {
    && entry.stop.Some? && entry.target.Some?
    && t.points == (if t.reason.ExitSl? then -Abs(entry.price - entry.stop.value)
                    else Abs(entry.price - entry.target.value))
    && (t.reason.ExitSl? ==> t.points < 0.0) && (!t.reason.ExitSl? ==> t.points > 0.0 && t.reason.ExitTarget?)
  }

  lemma TradesAreStopOrTarget(rows: seq<Row>, k: nat)
    requires k < |PairAll(Events(rows, Flat), 0.0, false).trades|
    ensures
      var es := Events(rows, Flat);
      2 * k + 1 < |es| && StopOrTarget(es[2 * k], PairAll(es, 0.0, false).trades[k])
  {
    var es := Events(rows, Flat);
    EventsAlternate(rows, Flat);
    AlternatingIsZigzag(es);
    OneTradePerExit(es, 0.0, false);
    assert Follows(es[2 * k], Before(es, 2 * k, Flat));
    assert Follows(es[2 * k + 1], Before(es, 2 * k + 1, Flat));
  }

  // ---------------------------------------------------------------- sums

  function Points(trades: seq<Trade>): (r: seq<real>)
  {
    seq(|trades|, i requires 0 <= i < |trades| => trades[i].points)
  }

  function Sum(xs: seq<real>): real {
    if |xs| == 0 then 0.0 else Sum(xs[..|xs| - 1]) + xs[|xs| - 1]
  }

  lemma SumSnoc(xs: seq<real>, x: real)
    ensures Sum(xs + [x]) == Sum(xs) + x
  {
  }

  /** One more round trip costs one more slippage. */
  lemma SlippedTrade(slipped: seq<Trade>, plain: seq<Trade>, entry: Event, exit: Event, slippage: real)
    requires IsEntry(entry) && |slipped| == |plain|
    requires Sum(Points(slipped)) == Sum(Points(plain)) - slippage * |plain| as real
    ensures
      var a, b := slipped + [TradeOf(entry, exit, slippage)], plain + [TradeOf(entry, exit, 0.0)];
      Sum(Points(a)) == Sum(Points(b)) - slippage * |b| as real
  {
    PointsSnoc(slipped, TradeOf(entry, exit, slippage));
    PointsSnoc(plain, TradeOf(entry, exit, 0.0));
    assert slippage * (|plain| + 1) as real == slippage * |plain| as real + slippage;
  }

  /** Slippage lowers the net result by exactly its size times the number of trades. */
  lemma {:induction false} SlippageCost(es: seq<Event>, slippage: real, squareOffs: bool)
    ensures
      var slipped, plain := PairAll(es, slippage, squareOffs), PairAll(es, 0.0, squareOffs);
      && |slipped.trades| == |plain.trades| && slipped.open == plain.open
      && Sum(Points(slipped.trades)) == Sum(Points(plain.trades)) - slippage * |plain.trades| as real
  {
    hide TradeOf, Sum, Points;
    if |es| == 0 {
      EmptySum();
    } else {
      var init, e := es[..|es| - 1], es[|es| - 1];
      SlippageCost(init, slippage, squareOffs);
      var slipped, plain := PairAll(init, slippage, squareOffs), PairAll(init, 0.0, squareOffs);
      if !IsEntry(e) && ClosesTrade(e, squareOffs) && plain.open.Some? {
        SlippedTrade(slipped.trades, plain.trades, plain.open.value, e, slippage);
      }
    }
  }

  lemma EmptySum()
    ensures Points([]) == [] && Sum([]) == 0.0
  {
  }

  lemma PointsSnoc(trades: seq<Trade>, t: Trade)
    ensures Sum(Points(trades + [t])) == Sum(Points(trades)) + t.points
  {
    assert Points(trades + [t]) == Points(trades) + [t.points];
    SumSnoc(Points(trades), t.points);
  }

  // ---------------------------------------------------------------- drawdown and losing runs

  /** The equity after the first i trades. */
  function Equity(points: seq<real>, i: nat): real
    requires i <= |points|
  {
    Sum(points[..i])
  }

  /** A fall from an earlier (or the same) point of the equity curve, the start included. */
  ghost predicate IsFall(points: seq<real>, d: real, i: nat, j: nat) {
    i <= j <= |points| && d == Equity(points, i) - Equity(points, j)
  }

  lemma EquitySteps(points: seq<real>, k: nat)
    requires k <= |points|
    ensures Equity(points, 0) == 0.0
    ensures k < |points| ==> Equity(points, k + 1) == Equity(points, k) + points[k]
  {
    if k < |points| {
      assert points[..k + 1][..k] == points[..k];
    }
  }

  /** The one-pass drawdown is the largest fall of the equity curve. */
  method MaxDrawdown(points: seq<real>) returns (worst: real)
    ensures exists i: nat, j: nat :: IsFall(points, worst, i, j)
    ensures forall i: nat, j: nat :: i <= j <= |points| ==> Equity(points, i) - Equity(points, j) <= worst
  {
    hide Equity;
    EquitySteps(points, 0);
    var cumulative, peak := 0.0, 0.0;
    worst := 0.0;
    ghost var peakAt, from, to := 0, 0, 0;
    for k := 0 to |points|
      invariant cumulative == Equity(points, k)
      invariant 0 <= peakAt <= k && peak == Equity(points, peakAt)
      invariant forall i: nat :: i <= k ==> Equity(points, i) <= peak
      invariant 0 <= from <= to <= k && IsFall(points, worst, from, to)
      invariant forall i: nat, j: nat :: i <= j <= k ==> Equity(points, i) - Equity(points, j) <= worst
    {
      EquitySteps(points, k);
      cumulative := cumulative + points[k];
      if cumulative > peak {
        peak, peakAt := cumulative, k + 1;
      }
      if peak - cumulative > worst {
        worst, from, to := peak - cumulative, peakAt, k + 1;
      }
    }
  }

  ghost predicate AllLosses(points: seq<real>, i: nat, j: nat)
    requires i <= j <= |points|
  {
    forall k :: i <= k < j ==> points[k] < 0.0
  }

  /** No run of losses that reaches trade k is longer than `current`. */
  ghost predicate LongestEndingAt(points: seq<real>, k: nat, current: nat)
    requires k <= |points|
  {
    forall i: nat :: i <= k && AllLosses(points, i, k) ==> k - i <= current
  }

  lemma ExtendRun(points: seq<real>, k: nat, current: nat)
    requires k < |points| && LongestEndingAt(points, k, current)
    ensures LongestEndingAt(points, k + 1, if points[k] < 0.0 then current + 1 else 0)
  {
    var m := k + 1;
    forall i: nat | i <= m && AllLosses(points, i, m)
      ensures m - i <= if points[k] < 0.0 then current + 1 else 0
    {
      if i <= k {
        assert points[k] < 0.0 && AllLosses(points, i, k);
      }
    }
  }

  /** The longest run of losing trades. */
  method MaxConsecutiveLosses(points: seq<real>) returns (longest: nat)
    ensures exists i: nat, j: nat :: i <= j <= |points| && j - i == longest && AllLosses(points, i, j)
    ensures forall i: nat, j: nat :: i <= j <= |points| && AllLosses(points, i, j) ==> j - i <= longest
  {
    longest := 0;
    var current := 0;
    ghost var at := 0;
    assert AllLosses(points, 0, 0);
    for k := 0 to |points|
      invariant 0 <= current <= k && AllLosses(points, k - current, k)
      invariant LongestEndingAt(points, k, current)
      invariant 0 <= at && at + longest <= k && AllLosses(points, at, at + longest)
      invariant current <= longest
      invariant forall i: nat, j: nat :: i <= j <= k && AllLosses(points, i, j) ==> j - i <= longest
    {
      ExtendRun(points, k, current);
      if points[k] < 0.0 {
        current := current + 1;
        if current > longest {
          longest, at := current, k + 1 - current;
        }
      } else {
        current := 0;
      }
    }
    assert AllLosses(points, at, at + longest);
  }

  // ---------------------------------------------------------------- expectancy

  function Wins(points: seq<real>): seq<real> { Filter(points, (p: real) => p > 0.0) }

  function Losers(points: seq<real>): seq<real> { Filter(points, (p: real) => p < 0.0) }

  function Ratio(a: real, n: nat): real { if n == 0 then 0.0 else a / n as real }

  /** Win rate times average win less loss rate times average loss, as the report computes it. */
  function Expectancy(points: seq<real>): Option<real> {
    if |points| == 0 then None
    else
      var n, wins, losses := |points|, Wins(points), Losers(points);
      var averageWin, averageLoss := Ratio(Sum(wins), |wins|), Ratio(Abs(Sum(losses)), |losses|);
      Some(Weighted(|wins|, n, averageWin) - Weighted(|losses|, n, averageLoss))
  }

  /** A rate times an average. */
  function Weighted(count: nat, n: nat, average: real): real
    requires n > 0
  {
    count as real / n as real * average
  }

  lemma SidesSnoc(points: seq<real>, p: real)
    ensures Wins(points + [p]) == if p > 0.0 then Wins(points) + [p] else Wins(points)
    ensures Losers(points + [p]) == if p < 0.0 then Losers(points) + [p] else Losers(points)
  {
  }

  lemma NoSides()
    ensures Wins([]) == [] == Losers([])
  {
  }

  /** The sums of wins and losses, apart. */
  ghost predicate Apart(points: seq<real>, wins: seq<real>, losses: seq<real>) {
    && Sum(points) == Sum(wins) + Sum(losses)
    && Sum(losses) <= 0.0 <= Sum(wins)
    && (wins == [] ==> Sum(wins) == 0.0)
    && (losses == [] ==> Sum(losses) == 0.0)
  }

  lemma ApartSnoc(points: seq<real>, wins: seq<real>, losses: seq<real>, p: real)
    requires Apart(points, wins, losses)
    ensures Apart(points + [p], if p > 0.0 then wins + [p] else wins, if p < 0.0 then losses + [p] else losses)
  {
  }

  lemma {:induction false} SplitSum(points: seq<real>)
    ensures Apart(points, Wins(points), Losers(points))
  {
    hide Wins, Losers;
    if |points| == 0 {
      NoSides();
    } else {
      hide Apart;
      var init, last := points[..|points| - 1], points[|points| - 1];
      SplitSum(init);
      assert points == init + [last];
      SidesSnoc(init, last);
      ApartSnoc(init, Wins(init), Losers(init), last);
    }
  }

  /** An amount per trade. */
  function Share(total: real, n: nat): real
    requires n > 0
  {
    total / n as real
  }

  lemma ShareOfAverage(total: real, count: nat, n: nat)
    requires n > 0 && (count == 0 ==> total == 0.0)
    ensures Weighted(count, n, Ratio(total, count)) == Share(total, n)
  {
  }

  lemma DifferenceOfShares(w: real, l: real, n: nat)
    requires n > 0
    ensures Share(w, n) - Share(l, n) == Share(w - l, n)
  {
  }

  lemma ExpectancyShares(points: seq<real>)
    requires |points| > 0
    ensures Expectancy(points) == Some(Share(Sum(points), |points|))
  {
    hide Wins, Losers, Sum, Ratio, Weighted, Share;
    var n, wins, losses := |points|, Wins(points), Losers(points);
    SplitSum(points);
    ShareOfAverage(Sum(wins), |wins|, n);
    ShareOfAverage(Abs(Sum(losses)), |losses|, n);
    DifferenceOfShares(Sum(wins), Abs(Sum(losses)), n);
    assert Sum(wins) - Abs(Sum(losses)) == Sum(points);
  }

  /** Expectancy is the average trade, breakeven trades included. */
  lemma ExpectancyIsAverage(points: seq<real>)
    requires |points| > 0
    ensures Expectancy(points) == Some(Sum(points) / |points| as real)
  {
    hide Expectancy, Sum;
    ExpectancyShares(points);
  }

  function OnSide(trades: seq<Trade>, side: Side): seq<Trade> { Filter(trades, (t: Trade) => t.side == side) }

  lemma OnSideSnoc(trades: seq<Trade>, t: Trade, side: Side)
    ensures OnSide(trades + [t], side) == if t.side == side then OnSide(trades, side) + [t] else OnSide(trades, side)
  {
  }

  lemma NoneOnSide()
    ensures OnSide([], Call) == OnSide([], Put) == []
  {
  }

  /** The two directions partition the trades and their net points. */
  lemma {:induction false} DirectionsPartition(trades: seq<Trade>)
    ensures
      var calls, puts := OnSide(trades, Call), OnSide(trades, Put);
      && |calls| + |puts| == |trades|
      && Sum(Points(calls)) + Sum(Points(puts)) == Sum(Points(trades))
  {
    hide Sum, Points, OnSide;
    if |trades| == 0 {
      NoneOnSide();
      EmptySum();
    } else {
      var init, last := trades[..|trades| - 1], trades[|trades| - 1];
      DirectionsPartition(init);
      assert trades == init + [last];
      PointsSnoc(init, last);
      PointsSnoc(OnSide(init, last.side), last);
      OnSideSnoc(init, last, Call);
      OnSideSnoc(init, last, Put);
    }
  }
}
