/** Every entry of a run from raw bars in terms of the bars themselves: what its setup was, and where its stop,
    target and strike lie. */
module EntryRules {
  import opened Common
  import opened Indicators
  import opened Strategy
  import opened StrategyTheorems
  import opened CycleTheorems

  /** What a setup on bar i means: the fast average above the slow one, relative strength above its
      threshold, an uptrend, and with the option on a close above the session's average price; and the mirror
      image for a PUT. */
  ghost predicate SetupOn(bars: seq<Bar>, cfg: Config, i: nat, side: Side)
    requires i < |bars|
  {
    var fast, slow := EmaAt(Closes(bars), cfg.emaFast, i), EmaAt(Closes(bars), cfg.emaSlow, i);
    var rsi, vwap := RsiSeries(bars, cfg.rsiLength)[i], VwapAt(bars, i);
    var down := SupertrendAt(BandInputOf(bars, cfg.supertrendLength, cfg.supertrendMultiplier), i).down;
    match side
    case Call =>
      && fast > slow && rsi.Some? && rsi.value > cfg.rsiBull && !down
      && (cfg.useVwap ==> vwap.Some? && bars[i].close > vwap.value)
    case Put =>
      && fast < slow && rsi.Some? && rsi.value < cfg.rsiBear && down
      && (cfg.useVwap ==> vwap.Some? && bars[i].close < vwap.value)
  }

  /** A setup that did not hold on the bar before. */
  ghost predicate SetupStarts(bars: seq<Bar>, cfg: Config, i: nat, side: Side)
    requires i < |bars|
  {
    SetupOn(bars, cfg, i, side) && (i == 0 || !SetupOn(bars, cfg, i - 1, side))
  }

  lemma SetupIs(bars: seq<Bar>, cfg: Config, i: nat)
    requires i < |bars|
    ensures BullSetup(FrameOf(bars, cfg), i, bars[i].close, cfg) <==> SetupOn(bars, cfg, i, Call)
    ensures BearSetup(FrameOf(bars, cfg), i, bars[i].close, cfg) <==> SetupOn(bars, cfg, i, Put)
  {
    hide EmaAt, SupertrendAt, VwapAt, RsiSeries, RmaSeries, BandInputOf;
  }

  lemma SetupsAre(bars: seq<Bar>, cfg: Config, i: nat)
    requires i < |bars|
    ensures Rows(bars, cfg)[i].bullEdge <==> SetupStarts(bars, cfg, i, Call)
    ensures Rows(bars, cfg)[i].bearEdge <==> SetupStarts(bars, cfg, i, Put)
  {
    hide FrameOf, SetupOn, BullSetup, BearSetup, RiskDistances, RoundToStrike;
    var f := FrameOf(bars, cfg);
    assert Rows(bars, cfg)[i] == RowAt(bars, f, cfg, i);
    SetupIs(bars, cfg, i);
    if i > 0 {
      SetupIs(bars, cfg, i - 1);
    }
  }

  /** The two setups exclude each other, whatever the thresholds. */
  lemma SetupsExclude(bars: seq<Bar>, cfg: Config, i: nat)
    requires i < |bars|
    ensures !(SetupOn(bars, cfg, i, Call) && SetupOn(bars, cfg, i, Put))
  {
  }

  /** Where a stop and a target lie. */
  ghost predicate LevelsFollow(bars: seq<Bar>, cfg: Config, i: nat, stop: real, target: real)
    requires i < |bars|
  {
    var atr := RmaAt(TrueRanges(bars), cfg.atrLength, i);
    && atr.Some? && stop >= cfg.minSlPoints && stop >= cfg.slMultiplier * atr.value
    && (stop == cfg.minSlPoints || stop == cfg.slMultiplier * atr.value)
    && target * cfg.slMultiplier == stop * cfg.tpMultiplier
  }

  /** Stop and target distances exist on a bar exactly from the end of the first average true range on. */
  lemma DistancesFrom(bars: seq<Bar>, cfg: Config, i: nat)
    requires i < |bars|
    ensures Rows(bars, cfg)[i].risk.Some? <==> i >= cfg.atrLength - 1
    ensures Rows(bars, cfg)[i].risk.Some? ==>
      LevelsFollow(bars, cfg, i, Rows(bars, cfg)[i].risk.value.stop, Rows(bars, cfg)[i].risk.value.target)
  {
    hide EmaAt, SupertrendAt, VwapAt, RsiSeries, RmaAt, BullSetup, BearSetup, RoundToStrike, BandInputOf;
    AverageRangeStarts(bars, cfg.atrLength, i);
    var f := FrameOf(bars, cfg);
    assert Rows(bars, cfg)[i] == RowAt(bars, f, cfg, i);
    assert f.atr[i] == RmaAt(TrueRanges(bars), cfg.atrLength, i);
    if f.atr[i].Some? {
      Undivided(Max(f.atr[i].value * cfg.slMultiplier, cfg.minSlPoints), cfg.tpMultiplier, cfg.slMultiplier);
    }
  }

  lemma Undivided(stop: real, tp: real, sl: real)
    requires sl != 0.0
    ensures stop * (tp / sl) * sl == stop * tp
  {
    assert tp / sl * sl == tp;
    assert stop * (tp / sl) * sl == stop * (tp / sl * sl);
  }

  /** An entry on bar i, at the strike that many steps up. */
  ghost predicate EntersOn(bars: seq<Bar>, cfg: Config, i: nat, e: Event, strikes: int)
    requires i < |bars|
  {
    && e.ts == bars[i].ts && e.price == bars[i].close && e.exitLevel.None?
    && cfg.sessionStart <= TimeOfDay(e.ts) <= cfg.sessionEnd
    && SetupStarts(bars, cfg, i, if e.kind.EntryCall? then Call else Put)
    && e.strike == Some(strikes * cfg.strikeStep)
    && -(cfg.strikeStep as real) / 2.0 < e.strike.value as real - e.price <= cfg.strikeStep as real / 2.0
    && e.stop.Some? && e.target.Some?
    && (if e.kind.EntryCall? then e.stop.value < e.price < e.target.value else e.stop.value > e.price > e.target.value)
    && LevelsFollow(bars, cfg, i, Abs(e.price - e.stop.value), Abs(e.target.value - e.price))
  }

  /** Every entry of every run from raw bars, plain or seeded: a setup starts on its bar in session, and its
      stop, target and strike are where the rule puts them. */
  lemma EntryRule(raw: seq<RawBar>, cfg: Config, startAfter: Option<int>, initial: Position, n: nat) 
    returns (i: nat, strikes: int)
    requires RunSpec(raw, cfg, startAfter, initial).Ran? && n < |RunSpec(raw, cfg, startAfter, initial).events|
    requires IsEntry(RunSpec(raw, cfg, startAfter, initial).events[n])
    ensures
      var bars := DropInvalid(raw);
      i < |bars| && EntersOn(bars, cfg, i, RunSpec(raw, cfg, startAfter, initial).events[n], strikes)
  {
    hide DropInvalid, Rows, State, Events, SetupStarts, LevelsFollow;
    var bars := DropInvalid(raw);
    var rows := Rows(bars, cfg);
    var c := Seed(rows, startAfter);
    var d := EventSource(rows[c..], initial, n);
    i := c + d;
    var e := RunSpec(raw, cfg, startAfter, initial).events[n];
    assert EventAt(rows[i], State(rows[c..][..d], initial)) == Some(e);
    EntryOf(rows[i], State(rows[c..][..d], initial));
    SetupsAre(bars, cfg, i);
    DistancesFrom(bars, cfg, i);
    RowBasics(bars, cfg, i);
    strikes := NearestStrike(rows[i].close, cfg.strikeStep);
  }

  lemma RowBasics(bars: seq<Bar>, cfg: Config, i: nat)
    requires i < |bars|
    ensures
      var row := Rows(bars, cfg)[i];
      && row.ts == bars[i].ts && row.high == bars[i].high && row.low == bars[i].low && row.close == bars[i].close
      && row.strike == RoundToStrike(row.close, cfg.strikeStep)
      && (row.inSession <==> cfg.sessionStart <= TimeOfDay(row.ts) <= cfg.sessionEnd)
  {
    hide EmaAt, SupertrendAt, VwapAt, RsiSeries, RmaAt, BullSetup, BearSetup, RoundToStrike, BandInputOf;
    var f := FrameOf(bars, cfg);
    assert Rows(bars, cfg)[i] == RowAt(bars, f, cfg, i);
  }

  lemma EntryOf(row: Row, pos: Position)
    requires EventAt(row, pos).Some? && IsEntry(EventAt(row, pos).value)
    ensures
      var e := EventAt(row, pos).value;
      && e.ts == row.ts && e.price == row.close && e.strike == Some(row.strike) && e.exitLevel.None?
      && row.inSession && row.risk.Some? && e.stop.Some? && e.target.Some?
      && (if e.kind.EntryCall? then row.bullEdge else row.bearEdge)
      && (if e.kind.EntryCall? then e.stop.value < e.price < e.target.value
          else e.stop.value > e.price > e.target.value)
      && Abs(e.price - e.stop.value) == row.risk.value.stop && Abs(e.target.value - e.price) == row.risk.value.target
  {
  }

  // ---------------------------------------------------------------- exits

  /** A bar reaches the stop, or the target, of an entry: a CALL's stop from above with its low and its target
      with its high, a PUT's the other way round, the level itself included. */
  predicate ReachesStop(high: real, low: real, e: Event) {
    e.stop.Some? && if e.kind.EntryCall? then low <= e.stop.value else high >= e.stop.value
  }

  predicate ReachesTarget(high: real, low: real, e: Event) {
    e.target.Some? && if e.kind.EntryCall? then high >= e.target.value else low <= e.target.value
  }

  ghost predicate Untouched(rows: seq<Row>, lo: int, hi: int, e: Event) {
    forall k :: 0 <= lo <= k < hi <= |rows| ==>
      !ReachesStop(rows[k].high, rows[k].low, e) && !ReachesTarget(rows[k].high, rows[k].low, e)
  }

  /** An exit of an entry on a row: at the stop if it is reached, else at the target, which then is. */
  ghost predicate ExitOn(row: Row, entry: Event, exit: Event) {
    && exit.ts == row.ts && exit.price == row.close && (exit.kind.ExitSl? || exit.kind.ExitTarget?)
    && (exit.kind.ExitSl? <==> ReachesStop(row.high, row.low, entry))
    && (exit.kind.ExitTarget? ==> ReachesTarget(row.high, row.low, entry))
    && exit.exitLevel == (if exit.kind.ExitSl? then entry.stop else entry.target)
  }

  /** Entry n lies on row j; the next event is its exit, on the first later row that reaches a level; and
      without a next event no later row does. */
  ghost predicate Lives(rows: seq<Row>, es: seq<Event>, n: nat, j: nat) {
    && n < |es| && j < |rows| && rows[j].ts == es[n].ts
    && (n + 1 == |es| ==> Untouched(rows, j + 1, |rows|, es[n]))
    && (n + 1 < |es| ==> exists i ::
          j < i < |rows| && ExitOn(rows[i], es[n], es[n + 1]) && Untouched(rows, j + 1, i, es[n]))
  }

  lemma LivesOn(rows: seq<Row>, es: seq<Event>, n: nat, j: nat, row: Row, more: seq<Event>)
    requires Lives(rows, es, n, j) && (n + 1 < |es| || more == [])
    requires n + 1 == |es| ==> !ReachesStop(row.high, row.low, es[n]) && !ReachesTarget(row.high, row.low, es[n])
    ensures Lives(rows + [row], es + more, n, j)
  {
    var all := rows + [row];
    if n + 1 < |es| {
      var i :| j < i < |rows| && ExitOn(rows[i], es[n], es[n + 1]) && Untouched(rows, j + 1, i, es[n]);
      assert all[i] == rows[i];
      assert forall k :: j + 1 <= k < i ==> all[k] == rows[k];
      assert Untouched(all, j + 1, i, es[n]);
    } else {
      assert es + more == es;
    }
  }

  lemma ExitsNow(rows: seq<Row>, es: seq<Event>, n: nat, j: nat, row: Row, e: Event)
    requires Lives(rows, es, n, j) && n + 1 == |es| && ExitOn(row, es[n], e)
    ensures Lives(rows + [row], es + [e], n, j)
  {
    var all := rows + [row];
    assert all[|rows|] == row && forall k :: 0 <= k < |rows| ==> all[k] == rows[k];
    assert Untouched(all, j + 1, |rows|, es[n]);
  }

  lemma HeldStep(row: Row, entry: Event)
    requires IsEntry(entry)
    ensures
      var e := EventAt(row, PositionFrom(entry));
      && (e.None? ==> !ReachesStop(row.high, row.low, entry) && !ReachesTarget(row.high, row.low, entry))
      && (e.Some? ==> ExitOn(row, entry, e.value))
  {
  }

  /** Every entry of a walk lives until its first touch. */
  lemma {:induction false} EntriesLive(rows: seq<Row>, pos: Position, n: nat) returns (j: nat)
    requires n < |Events(rows, pos)| && IsEntry(Events(rows, pos)[n])
    ensures Lives(rows, Events(rows, pos), n, j)
  {
    hide Lives, ExitOn, ReachesStop, ReachesTarget, PositionFrom;
    var m := |rows| - 1;
    var init, row := rows[..m], rows[m];
    var before, es := State(init, pos), Events(init, pos);
    var e := EventAt(row, before);
    assert rows == init + [row];
    if n < |es| {
      j := EntriesLive(init, pos, n);
      StateFromEvents(init, pos);
      if n + 1 == |es| {
        HeldStep(row, es[n]);
      }
      if n + 1 == |es| && e.Some? {
        ExitsNow(init, es, n, j, row, e.value);
      } else if e.Some? {
        LivesOn(init, es, n, j, row, [e.value]);
      } else {
        LivesOn(init, es, n, j, row, []);
        assert es + [] == es;
      }
    } else {
      j := m;
      StampedNow(row, before);
      JustEntered(rows, Events(rows, pos), n, m);
    }
  }

  lemma StampedNow(row: Row, pos: Position)
    ensures EventAt(row, pos).Some? ==> EventAt(row, pos).value.ts == row.ts
  {
  }

  lemma JustEntered(rows: seq<Row>, es: seq<Event>, n: nat, m: nat)
    requires m + 1 == |rows| && n + 1 == |es| && es[n].ts == rows[m].ts
    ensures Lives(rows, es, n, m)
  {
  }

  /** The same on the bars themselves. */
  ghost predicate LivesOnBars(bars: seq<Bar>, es: seq<Event>, n: nat, j: nat) {
    && n < |es| && j < |bars| && bars[j].ts == es[n].ts
    && (n + 1 == |es| ==> Quiet(bars, j + 1, |bars|, es[n]))
    && (n + 1 < |es| ==> exists i ::
          && j < i < |bars| && Quiet(bars, j + 1, i, es[n])
          && ExitsOn(bars[i], es[n], es[n + 1]))
  }

  ghost predicate Quiet(bars: seq<Bar>, lo: int, hi: int, e: Event) {
    forall k :: 0 <= lo <= k < hi <= |bars| ==>
      !ReachesStop(bars[k].high, bars[k].low, e) && !ReachesTarget(bars[k].high, bars[k].low, e)
  }

  ghost predicate ExitsOn(b: Bar, entry: Event, exit: Event) {
    && exit.ts == b.ts && exit.price == b.close && (exit.kind.ExitSl? || exit.kind.ExitTarget?)
    && (exit.kind.ExitSl? <==> ReachesStop(b.high, b.low, entry))
    && (exit.kind.ExitTarget? ==> ReachesTarget(b.high, b.low, entry))
    && exit.exitLevel == (if exit.kind.ExitSl? then entry.stop else entry.target)
  }

  /** Every entry of every run from raw bars, plain or seeded: its exit is the next event, on the first later bar
      that reaches its stop or its target, at the stop if that is reached; while no bar does it stays open. */
  lemma ExitIsFirstTouch(
      raw: seq<RawBar>, cfg: Config, startAfter: Option<int>, initial: Position, n: nat) returns (j: nat)
    requires RunSpec(raw, cfg, startAfter, initial).Ran? && n < |RunSpec(raw, cfg, startAfter, initial).events|
    requires IsEntry(RunSpec(raw, cfg, startAfter, initial).events[n])
    ensures LivesOnBars(DropInvalid(raw), RunSpec(raw, cfg, startAfter, initial).events, n, j)
  {
    hide DropInvalid, Rows, State, Events, ReachesStop, ReachesTarget, EventAt;
    var bars := DropInvalid(raw);
    var rows := Rows(bars, cfg);
    var c := Seed(rows, startAfter);
    var d := EntriesLive(rows[c..], initial, n);
    j := c + d;
    forall k | 0 <= k < |bars|
      ensures rows[k].ts == bars[k].ts && rows[k].high == bars[k].high && rows[k].low == bars[k].low
      ensures rows[k].close == bars[k].close
    {
      RowBasics(bars, cfg, k);
    }
    OnBars(bars, rows, c, Events(rows[c..], initial), n, d);
  }

  lemma OnBars(bars: seq<Bar>, rows: seq<Row>, c: nat, es: seq<Event>, n: nat, d: nat)
    requires |rows| == |bars| && c <= |rows| && Lives(rows[c..], es, n, d)
    requires forall k :: 0 <= k < |bars| ==>
      rows[k].ts == bars[k].ts && rows[k].high == bars[k].high && rows[k].low == bars[k].low
      && rows[k].close == bars[k].close
    ensures LivesOnBars(bars, es, n, c + d)
  {
    hide ReachesStop, ReachesTarget;
    var tail := rows[c..];
    if n + 1 < |es| {
      var i :| d < i < |tail| && ExitOn(tail[i], es[n], es[n + 1]) && Untouched(tail, d + 1, i, es[n]);
      assert tail[i] == rows[c + i];
      forall k | c + d + 1 <= k < c + i
        ensures !ReachesStop(bars[k].high, bars[k].low, es[n]) && !ReachesTarget(bars[k].high, bars[k].low, es[n])
      {
        assert tail[k - c] == rows[k];
      }
      assert Quiet(bars, c + d + 1, c + i, es[n]) && ExitsOn(bars[c + i], es[n], es[n + 1]);
    } else {
      forall k | c + d + 1 <= k < |bars|
        ensures !ReachesStop(bars[k].high, bars[k].low, es[n]) && !ReachesTarget(bars[k].high, bars[k].low, es[n])
      {
        assert tail[k - c] == rows[k];
      }
    }
  }
}
