/** The research simulator: the canonical tracker with optional entry filters, session rules
    and exit-fill assumptions. With every option off it must be the canonical strategy. */
module Simulator {
  import opened Common
  import opened Indicators
  import opened Strategy
  import opened StrategyTheorems
  import opened Risk
  import opened Backtest

  datatype ExitFill = AtLevel | GapAware | BarClose

  /** The filter's verdict per bar; `inSetup` makes it part of the setup instead of a gate. */
  datatype AdxFilter = AdxFilter(bull: seq<bool>, bear: seq<bool>, inSetup: bool)

  datatype Variant = Variant(
    adx: Option<AdxFilter>, entryCutoff: Option<int>, squareOff: Option<int>, exitFill: ExitFill, guardRisk: bool)

  const CANONICAL := Variant(None, None, None, AtLevel, true)

  /** A row with what only the simulator reads: the open, the bar's end time of day, its day,
      and the gates on the two entries. */
  datatype SimRow = SimRow(row: Row, open: real, endTime: int, day: int, callGate: bool, putGate: bool)

  ghost predicate Covers(v: Variant, n: nat) {
    v.adx.Some? ==> |v.adx.value.bull| == |v.adx.value.bear| == n
  }

  predicate SimBull(bars: seq<Bar>, f: Frame, cfg: Config, v: Variant, i: nat)
    requires f.Fits(|bars|) && i < |bars| && Covers(v, |bars|)
  {
    BullSetup(f, i, bars[i].close, cfg) && (v.adx.Some? && v.adx.value.inSetup ==> v.adx.value.bull[i])
  }

  predicate SimBear(bars: seq<Bar>, f: Frame, cfg: Config, v: Variant, i: nat)
    requires f.Fits(|bars|) && i < |bars| && Covers(v, |bars|)
  {
    BearSetup(f, i, bars[i].close, cfg) && (v.adx.Some? && v.adx.value.inSetup ==> v.adx.value.bear[i])
  }

  function SimRowAt(bars: seq<Bar>, f: Frame, cfg: Config, v: Variant, barLength: int, i: nat): SimRow
    requires f.Fits(|bars|) && i < |bars| && Covers(v, |bars|)
  {
    var b := bars[i];
    var gate := v.adx.Some? && !v.adx.value.inSetup;
    SimRow(Row(b.ts, b.high, b.low, b.close, RiskDistances(f.atr[i], cfg), RoundToStrike(b.close, cfg.strikeStep),
               cfg.sessionStart <= TimeOfDay(b.ts) <= cfg.sessionEnd,
               SimBull(bars, f, cfg, v, i) && !(i > 0 && SimBull(bars, f, cfg, v, i - 1)),
               SimBear(bars, f, cfg, v, i) && !(i > 0 && SimBear(bars, f, cfg, v, i - 1))),
           b.open, TimeOfDay(b.ts + barLength), Day(b.ts),
           gate ==> v.adx.value.bull[i], gate ==> v.adx.value.bear[i])
  }

  function SimRows(bars: seq<Bar>, f: Frame, cfg: Config, v: Variant, barLength: int): (r: seq<SimRow>)
    requires f.Fits(|bars|) && Covers(v, |bars|)
  {
    seq(|bars|, i requires 0 <= i < |bars| => SimRowAt(bars, f, cfg, v, barLength, i))
  }

  // ---------------------------------------------------------------- one bar

  datatype SimState = SimState(pos: Position, entryDay: int)

  function ExitLevel(v: Variant, b: SimRow, side: Side, stopHit: bool, level: real): real {
    match v.exitFill
    case AtLevel => level
    case BarClose => b.row.close
    case GapAware => if side.Call? == stopHit then Min(level, b.open) else Max(level, b.open)
  }

  function ClosingEvent(b: SimRow, kind: Kind, level: real): Event {
    Event(b.row.ts, kind, b.row.close, None, None, None, Some(level))
  }

  /** An open position is closed on the first bar of another day, or once the square-off time
      is reached. */
  function ForcedLevel(v: Variant, b: SimRow, st: SimState): Option<real> {
    if v.squareOff.None? || st.pos.Flat? then None
    else if b.day != st.entryDay then Some(b.open)
    else if b.endTime >= v.squareOff.value then Some(b.row.close)
    else None
  }

  /** Entering without a usable distance leaves the level missing; only an unguarded variant does. */
  function SimEntry(b: SimRow, side: Side): Event {
    if b.row.risk.Some? then EntryEvent(b.row, side, b.row.risk.value)
    else Event(b.row.ts, if side.Call? then EntryCall else EntryPut, b.row.close, Some(b.row.strike), None, None, None)
  }

  function SimEvent(v: Variant, b: SimRow, st: SimState): Option<Event> {
    if StopHit(b.row, st.pos) then Some(ClosingEvent(b, ExitSl, ExitLevel(v, b, st.pos.side, true, st.pos.stop.value)))
    else if TargetHit(b.row, st.pos)
    then Some(ClosingEvent(b, ExitTarget, ExitLevel(v, b, st.pos.side, false, st.pos.target.value)))
    else if ForcedLevel(v, b, st).Some? then Some(ClosingEvent(b, SquareOff, ForcedLevel(v, b, st).value))
    else if st.pos.Held? || !b.row.inSession || (v.entryCutoff.Some? && b.endTime > v.entryCutoff.value) then None
    else if v.guardRisk && !DistancesUsable(b.row) then None
    else if b.row.bullEdge && b.callGate then Some(SimEntry(b, Call))
    else if b.row.bearEdge && b.putGate then Some(SimEntry(b, Put))
    else None
  }

  function SimNext(v: Variant, b: SimRow, st: SimState): SimState {
    var e := SimEvent(v, b, st);
    if e.None? then st
    else SimState(PositionFrom(e.value), if IsEntry(e.value) then b.day else st.entryDay)
  }

  function SimStateAfter(v: Variant, bs: seq<SimRow>): SimState {
    if |bs| == 0 then SimState(Flat, 0) else SimNext(v, bs[|bs| - 1], SimStateAfter(v, bs[..|bs| - 1]))
  }

  function SimEvents(v: Variant, bs: seq<SimRow>): seq<Event> {
    if |bs| == 0 then []
    else
      var e := SimEvent(v, bs[|bs| - 1], SimStateAfter(v, bs[..|bs| - 1]));
      SimEvents(v, bs[..|bs| - 1]) + (if e.Some? then [e.value] else [])
  }

  // ---------------------------------------------------------------- the program's loop

  method SimulateBar(v: Variant, b: SimRow, pos0: int, stop0: Option<real>, target0: Option<real>, entryDay0: int)
    returns (pos: int, stop: Option<real>, target: Option<real>, entryDay: int, e: Option<Event>)
    requires pos0 == 0 || pos0 == 1 || pos0 == -1
    ensures pos == 0 || pos == 1 || pos == -1
    ensures e == SimEvent(v, b, SimState(Tracked(pos0, stop0, target0), entryDay0))
    ensures SimState(Tracked(pos, stop, target), entryDay)
         == SimNext(v, b, SimState(Tracked(pos0, stop0, target0), entryDay0))
  {
    pos, stop, target, entryDay, e := pos0, stop0, target0, entryDay0, None;
    var row := b.row;
    var stopHit := stop.Some? && ((pos == 1 && row.low <= stop.value) || (pos == -1 && row.high >= stop.value));
    var targetHit := target.Some? && ((pos == 1 && row.high >= target.value) || (pos == -1 && row.low <= target.value));
    if stopHit || targetHit {
      var level := if stopHit then stop.value else target.value;
      if v.exitFill.GapAware? {
        if pos == 1 {
          level := if stopHit then Min(level, b.open) else Max(level, b.open);
        } else {
          level := if stopHit then Max(level, b.open) else Min(level, b.open);
        }
      } else if v.exitFill.BarClose? {
        level := row.close;
      }
      e := Some(ClosingEvent(b, if stopHit then ExitSl else ExitTarget, level));
      pos, stop, target := 0, None, None;
      return;
    }
    if pos != 0 {
      if v.squareOff.Some? && (b.day != entryDay || b.endTime >= v.squareOff.value) {
        e := Some(ClosingEvent(b, SquareOff, if b.day != entryDay then b.open else row.close));
        pos, stop, target := 0, None, None;
      }
      return;
    }
    var canEnter := row.inSession && (v.entryCutoff.Some? ==> b.endTime <= v.entryCutoff.value) &&
      (v.guardRisk ==> DistancesUsable(row));
    var call, put := canEnter && row.bullEdge && b.callGate, canEnter && row.bearEdge && b.putGate;
    if call || put {
      var side := if call then Call else Put;
      var opening := SimEntry(b, side);
      pos, stop, target, entryDay, e := if call then 1 else -1, opening.stop, opening.target, b.day, Some(opening);
    }
  }

  method Simulate(v: Variant, bs: seq<SimRow>) returns (events: seq<Event>)
    ensures events == SimEvents(v, bs)
  {
    hide SimEvent, SimNext;
    events := [];
    var pos, entryDay := 0, 0;
    var stop, target: Option<real> := None, None;
    for i := 0 to |bs|
      invariant pos == 0 || pos == 1 || pos == -1
      invariant SimState(Tracked(pos, stop, target), entryDay) == SimStateAfter(v, bs[..i])
      invariant events == SimEvents(v, bs[..i])
    {
      assert bs[..i + 1][..i] == bs[..i];
      var e: Option<Event>;
      pos, stop, target, entryDay, e := SimulateBar(v, bs[i], pos, stop, target, entryDay);
      if e.Some? {
        events := events + [e.value];
      }
    }
    assert bs[..|bs|] == bs;
  }

  // ---------------------------------------------------------------- refinement of the canonical strategy

  /** The canonical rows under any gate that is open. */
  ghost predicate Plain(bs: seq<SimRow>, rows: seq<Row>) {
    |bs| == |rows| && forall i :: 0 <= i < |bs| ==> bs[i].row == rows[i] && bs[i].callGate && bs[i].putGate
  }

  lemma SameBar(b: SimRow, st: SimState)
    requires b.callGate && b.putGate
    ensures SimEvent(CANONICAL, b, st) == EventAt(b.row, st.pos)
    ensures SimNext(CANONICAL, b, st).pos == Next(b.row, st.pos)
  {
  }

  lemma {:induction false} PlainIsCanonical(bs: seq<SimRow>, rows: seq<Row>)
    requires Plain(bs, rows)
    ensures SimStateAfter(CANONICAL, bs).pos == State(rows, Flat)
    ensures SimEvents(CANONICAL, bs) == Events(rows, Flat)
  {
    hide SimEvent, SimNext, EventAt, Next;
    if |bs| > 0 {
      var n := |bs| - 1;
      PlainIsCanonical(bs[..n], rows[..n]);
      SameBar(bs[n], SimStateAfter(CANONICAL, bs[..n]));
    }
  }

  /** With every option off the simulator emits exactly the canonical strategy's events, on
      every window. */
  lemma SimulateRefinesRun(raw: seq<RawBar>, cfg: Config, barLength: int)
    ensures
      var bars := DropInvalid(raw);
      FrameOf(bars, cfg).Fits(|bars|) &&
      SimEvents(CANONICAL, SimRows(bars, FrameOf(bars, cfg), cfg, CANONICAL, barLength))
        == RunSpec(raw, cfg, None, Flat).events
  {
    var bars := DropInvalid(raw);
    var rows := Rows(bars, cfg);
    PlainRows(bars, FrameOf(bars, cfg), cfg, barLength);
    PlainIsCanonical(SimRows(bars, FrameOf(bars, cfg), cfg, CANONICAL, barLength), rows);
    assert rows[0..] == rows;
  }

  lemma PlainRows(bars: seq<Bar>, f: Frame, cfg: Config, barLength: int)
    requires f.Fits(|bars|)
    ensures Plain(SimRows(bars, f, cfg, CANONICAL, barLength), RowsFrom(bars, f, cfg))
  {
  }

  // ---------------------------------------------------------------- square-off

  /** With a square-off time, a position held after a bar was entered that same day, and if it
      was not entered on this very bar then the bar ended before the square-off time. */
  lemma HeldOnlyToday(v: Variant, bs: seq<SimRow>)
    requires v.squareOff.Some? && |bs| > 0
    ensures
      var last, before, after := bs[|bs| - 1], SimStateAfter(v, bs[..|bs| - 1]), SimStateAfter(v, bs);
      after.pos.Held? ==>
        after.entryDay == last.day && (before.pos.Held? ==> last.endTime < v.squareOff.value)
  {
  }

  /** So a position still open when a new day begins in the data is closed on that day's first
      bar, by its own level or forced at the open, and nothing is reopened on that bar. */
  lemma ClosedByFirstBarOfNextDay(v: Variant, bs: seq<SimRow>, k: nat)
    requires v.squareOff.Some? && 0 < k < |bs| && bs[k].day != bs[k - 1].day
    requires SimStateAfter(v, bs[..k]).pos.Held?
    ensures SimStateAfter(v, bs[..k + 1]).pos == Flat
    ensures
      var e := SimEvent(v, bs[k], SimStateAfter(v, bs[..k]));
      e.Some? && ClosesTrade(e.value, true) && (e.value.kind.SquareOff? ==> e.value.exitLevel == Some(bs[k].open))
  {
    HeldOnlyToday(v, bs[..k]);
    assert bs[..k + 1][..k] == bs[..k];
    assert bs[..k][|bs[..k]| - 1] == bs[k - 1];
  }

  /** The simulator's own events also pair one trade per closing event, square-offs included. */
  lemma {:induction false} SimEventsZigzag(v: Variant, bs: seq<SimRow>)
    ensures Zigzag(SimEvents(v, bs), true)
    ensures SimStateAfter(v, bs).pos.Held? <==> |SimEvents(v, bs)| % 2 == 1
  {
    hide StopHit, TargetHit, ForcedLevel;
    if |bs| > 0 {
      SimEventsZigzag(v, bs[..|bs| - 1]);
      SimEventKind(v, bs[|bs| - 1], SimStateAfter(v, bs[..|bs| - 1]));
    }
  }

  lemma SimEventKind(v: Variant, b: SimRow, st: SimState)
    ensures
      var e := SimEvent(v, b, st);
      e.Some? ==> (if st.pos.Held? then !IsEntry(e.value) && ClosesTrade(e.value, true) else IsEntry(e.value))
  {
  }

  ghost predicate RisingBars(bs: seq<SimRow>) {
    forall i, j :: 0 <= i < j < |bs| ==> bs[i].row.ts < bs[j].row.ts
  }

  lemma SimEventStamp(v: Variant, b: SimRow, st: SimState)
    ensures SimEvent(v, b, st).Some? ==> SimEvent(v, b, st).value.ts == b.row.ts
  {
  }

  lemma {:induction false} SimEventsAscend(v: Variant, bs: seq<SimRow>)
    requires RisingBars(bs)
    ensures AscendingEvents(SimEvents(v, bs))
    ensures forall i :: 0 <= i < |SimEvents(v, bs)| ==> |bs| > 0 && SimEvents(v, bs)[i].ts <= bs[|bs| - 1].row.ts
  {
    hide SimEvent, SimNext;
    if |bs| > 0 {
      var n := |bs| - 1;
      SimEventsAscend(v, bs[..n]);
      SimEventStamp(v, bs[n], SimStateAfter(v, bs[..n]));
    }
  }

  /** So the trades of any variant are entered one after the other. */
  lemma SimTradesInOrder(v: Variant, bs: seq<SimRow>, slippage: real)
    requires RisingBars(bs)
    ensures EnteredInOrder(PairAll(SimEvents(v, bs), slippage, true).trades)
  {
    hide SimEvents;
    SimEventsZigzag(v, bs);
    SimEventsAscend(v, bs);
    PairedInOrder(SimEvents(v, bs), slippage, true);
  }

  // ---------------------------------------------------------------- exit-fill assumptions

  /** Up to the level an exit is filled at. */
  ghost predicate SameUpToFill(a: Event, b: Event) { a.(exitLevel := None) == b.(exitLevel := None) }

  ghost predicate SameEvents(a: seq<Event>, b: seq<Event>) {
    |a| == |b| && forall i :: 0 <= i < |a| ==> SameUpToFill(a[i], b[i])
  }

  lemma SameBarUpToFill(v: Variant, w: Variant, b: SimRow, st: SimState)
    requires w == v.(exitFill := w.exitFill)
    ensures SimEvent(v, b, st).Some? <==> SimEvent(w, b, st).Some?
    ensures SimEvent(v, b, st).Some? ==> SameUpToFill(SimEvent(v, b, st).value, SimEvent(w, b, st).value)
    ensures SimNext(v, b, st) == SimNext(w, b, st)
  {
  }

  /** The fill assumption never changes what is traded or when, only the price of exits. */
  lemma {:induction false} FillModelOnlyMovesLevels(v: Variant, w: Variant, bs: seq<SimRow>)
    requires w == v.(exitFill := w.exitFill)
    ensures SimStateAfter(v, bs) == SimStateAfter(w, bs)
    ensures SameEvents(SimEvents(v, bs), SimEvents(w, bs))
  {
    hide SimEvent, SimNext, SameUpToFill;
    if |bs| > 0 {
      var n := |bs| - 1;
      FillModelOnlyMovesLevels(v, w, bs[..n]);
      SameBarUpToFill(v, w, bs[n], SimStateAfter(v, bs[..n]));
    }
  }

  /** A gap-aware stop never fills better than its level and a gap-aware target never worse. */
  lemma GapAwareIsHonest(v: Variant, b: SimRow, side: Side, stopHit: bool, level: real)
    requires v.exitFill == GapAware
    ensures
      var gain := if side.Call? then ExitLevel(v, b, side, stopHit, level) - level
                  else level - ExitLevel(v, b, side, stopHit, level);
      if stopHit then gain <= 0.0 else gain >= 0.0
  {
  }

  // ---------------------------------------------------------------- the halt count

  /** How often the losing streak reaches three, starting over after each time. */
  method HaltsAtThree(points: seq<real>) returns (halts: nat)
    ensures halts == HaltCount(points).0
  {
    halts := 0;
    var streak := 0;
    for i := 0 to |points|
      invariant streak >= 0 && (halts, streak as nat) == HaltCount(points[..i])
    {
      assert points[..i + 1][..i] == points[..i];
      streak := if points[i] < 0.0 then streak + 1 else if points[i] == 0.0 then streak else 0;
      if streak == 3 {
        halts, streak := halts + 1, 0;
      }
    }
    assert points[..|points|] == points;
  }

  function HaltCount(points: seq<real>): (nat, nat) {
    if |points| == 0 then (0, 0)
    else
      var (halts, streak), p := HaltCount(points[..|points| - 1]), points[|points| - 1];
      var next := if p < 0.0 then streak + 1 else if p == 0.0 then streak else 0;
      if next == 3 then (halts + 1, 0) else (halts, next)
  }

  /** The risk manager fed the same exits, at any times, reset by hand after each halt. */
  ghost function LiveHalts(l: RiskLimits, s: RiskState, points: seq<real>, times: seq<int>): (nat, RiskState)
    requires |points| == |times|
  {
    if |points| == 0 then (0, s)
    else
      var n := |points| - 1;
      var (halts, before) := LiveHalts(l, s, points[..n], times[..n]);
      var after := RecordTrade(l, before, points[n], times[n], true);
      if after.halted then (halts + 1, ResetHalt(after)) else (halts, after)
  }

  /** The research count is exactly how often the live consecutive-loss halt would have tripped,
      whatever days the exits fall on. */
  lemma {:induction false} HaltCountIsLive(l: RiskLimits, s: RiskState, points: seq<real>, times: seq<int>)
    requires |points| == |times| && l.maxConsecutiveLosses == 3
    requires s.consecutiveLosses == 0 && !s.halted
    ensures LiveHalts(l, s, points, times).0 == HaltCount(points).0
    ensures LiveHalts(l, s, points, times).1.consecutiveLosses == HaltCount(points).1 < 3
    ensures !LiveHalts(l, s, points, times).1.halted
  {
    if |points| > 0 {
      HaltCountIsLive(l, s, points[..|points| - 1], times[..|points| - 1]);
    }
  }
}
