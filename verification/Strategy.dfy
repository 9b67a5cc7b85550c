/** The canonical strategy: a bar-by-bar position tracker over causal indicator series.
    A replay is specified by a left-to-right walk over rows (one row per usable bar); the
    method Run is the program's loop and is proved to compute that walk. */
module Strategy {
  import opened Common
  import opened Indicators

  datatype Kind = EntryCall | EntryPut | ExitSl | ExitTarget | SquareOff

  datatype Event = Event(
    ts: int, kind: Kind, price: real, strike: Option<int>,
    stop: Option<real>, target: Option<real>, exitLevel: Option<real>)

  predicate IsEntry(e: Event) { e.kind.EntryCall? || e.kind.EntryPut? }

  predicate IsExit(e: Event) { e.kind.ExitSl? || e.kind.ExitTarget? }

  /** The tracked position. A missing level never triggers. */
  datatype Position = Flat | Held(side: Side, stop: Option<real>, target: Option<real>)

  /** What the walk reads of one bar: its prices, the stop and target distances and the strike
      an entry on it would use, the session filter, and whether a setup starts on it (holds
      here and did not hold on the bar before). */
  datatype Row = Row(
    ts: int, high: real, low: real, close: real, risk: Option<Distances>, strike: int,
    inSession: bool, bullEdge: bool, bearEdge: bool)

  datatype Distances = Distances(stop: real, target: real)

  // ---------------------------------------------------------------- rows

  /** Stop and target distance from the entry price; missing while the average true range is. */
  function RiskDistances(atr: Option<real>, cfg: Config): Option<Distances> {
    if atr.None? then None
    else
      var stop := Max(atr.value * cfg.slMultiplier, cfg.minSlPoints);
      Some(Distances(stop, stop * (cfg.tpMultiplier / cfg.slMultiplier)))
  }

  /** The nearest strike, halves rounded up. */
  function RoundToStrike(price: real, step: nat): int
    requires step >= 1
  {
    (price / step as real + 0.5).Floor * step
  }

  predicate BullSetup(f: Frame, i: nat, close: real, cfg: Config)
    requires f.Fits(|f.rsi|) && i < |f.rsi|
  {
    f.emaFast[i] > f.emaSlow[i] && Less(Some(cfg.rsiBull), f.rsi[i]) && !f.supertrend[i].down &&
    (cfg.useVwap ==> Less(f.vwap[i], Some(close)))
  }

  predicate BearSetup(f: Frame, i: nat, close: real, cfg: Config)
    requires f.Fits(|f.rsi|) && i < |f.rsi|
  {
    f.emaFast[i] < f.emaSlow[i] && Less(f.rsi[i], Some(cfg.rsiBear)) && f.supertrend[i].down &&
    (cfg.useVwap ==> Less(Some(close), f.vwap[i]))
  }

  /** The row of bar i; a setup edge compares the setup with the one shifted by a bar. */
  function RowAt(bars: seq<Bar>, f: Frame, cfg: Config, i: nat): Row
    requires f.Fits(|bars|) && i < |bars|
  {
    var b := bars[i];
    Row(b.ts, b.high, b.low, b.close, RiskDistances(f.atr[i], cfg), RoundToStrike(b.close, cfg.strikeStep),
        cfg.sessionStart <= TimeOfDay(b.ts) <= cfg.sessionEnd,
        BullSetup(f, i, b.close, cfg) && !(i > 0 && BullSetup(f, i - 1, bars[i - 1].close, cfg)),
        BearSetup(f, i, b.close, cfg) && !(i > 0 && BearSetup(f, i - 1, bars[i - 1].close, cfg)))
  }

  function RowsFrom(bars: seq<Bar>, f: Frame, cfg: Config): (rows: seq<Row>)
    requires f.Fits(|bars|)
    ensures |rows| == |bars|
    ensures forall i :: 0 <= i < |rows| ==> rows[i].ts == bars[i].ts && rows[i].close == bars[i].close
  {
    seq(|bars|, i requires 0 <= i < |bars| => RowAt(bars, f, cfg, i))
  }

  function Rows(bars: seq<Bar>, cfg: Config): (rows: seq<Row>)
    ensures |rows| == |bars|
    ensures forall i :: 0 <= i < |rows| ==> rows[i].ts == bars[i].ts && rows[i].close == bars[i].close
  {
    RowsFrom(bars, FrameOf(bars, cfg), cfg)
  }

  method BuildRows(bars: seq<Bar>, f: Frame, cfg: Config) returns (rows: seq<Row>)
    requires f.Fits(|bars|)
    ensures rows == RowsFrom(bars, f, cfg)
  {
    rows := [];
    var bullPrev, bearPrev := false, false;
    for i := 0 to |bars|
      invariant rows == RowsFrom(bars, f, cfg)[..i]
      invariant bullPrev == (i > 0 && BullSetup(f, i - 1, bars[i - 1].close, cfg))
      invariant bearPrev == (i > 0 && BearSetup(f, i - 1, bars[i - 1].close, cfg))
    {
      var b := bars[i];
      var bull, bear := BullSetup(f, i, b.close, cfg), BearSetup(f, i, b.close, cfg);
      rows := rows + [Row(b.ts, b.high, b.low, b.close,
                          RiskDistances(f.atr[i], cfg), RoundToStrike(b.close, cfg.strikeStep),
                          cfg.sessionStart <= TimeOfDay(b.ts) <= cfg.sessionEnd,
                          bull && !bullPrev, bear && !bearPrev)];
      bullPrev, bearPrev := bull, bear;
    }
  }

  lemma RowsFromPrefix(bars: seq<Bar>, f: Frame, cfg: Config, k: nat)
    requires f.Fits(|bars|) && k <= |bars|
    ensures RowsFrom(bars[..k], CutFrame(f, k), cfg) == RowsFrom(bars, f, cfg)[..k]
  {
  }

  /** No look-ahead: cutting the window leaves every remaining row as it was, through every
      indicator and the shift that detects where a setup starts. */
  lemma RowsPrefix(bars: seq<Bar>, cfg: Config, k: nat)
    requires k <= |bars|
    ensures Rows(bars[..k], cfg) == Rows(bars, cfg)[..k]
  {
    FramePrefix(bars, cfg, k);
    RowsFromPrefix(bars, FrameOf(bars, cfg), cfg, k);
  }

  // ---------------------------------------------------------------- one bar

  predicate StopHit(row: Row, pos: Position) {
    pos.Held? && pos.stop.Some? && (if pos.side.Call? then row.low <= pos.stop.value else row.high >= pos.stop.value)
  }

  predicate TargetHit(row: Row, pos: Position) {
    pos.Held? && pos.target.Some? &&
    (if pos.side.Call? then row.high >= pos.target.value else row.low <= pos.target.value)
  }

  /** Opening a position at a bar's close: the stop against the trade, the target with it. */
  function EntryEvent(row: Row, side: Side, d: Distances): Event {
    var stop := if side.Call? then row.close - d.stop else row.close + d.stop;
    var target := if side.Call? then row.close + d.target else row.close - d.target;
    Event(row.ts, if side.Call? then EntryCall else EntryPut, row.close, Some(row.strike), Some(stop), Some(target),
          None)
  }

  /** The event of one bar against the position held at the end of the bar before it. */
  function EventAt(row: Row, pos: Position): Option<Event> {
    if StopHit(row, pos) then Some(Event(row.ts, ExitSl, row.close, None, None, None, pos.stop))
    else if TargetHit(row, pos) then Some(Event(row.ts, ExitTarget, row.close, None, None, None, pos.target))
    else if pos.Held? || !row.inSession then None
    else if row.risk.None? || row.risk.value.stop <= 0.0 || row.risk.value.target <= 0.0 then None
    else if row.bullEdge then Some(EntryEvent(row, Call, row.risk.value))
    else if row.bearEdge then Some(EntryEvent(row, Put, row.risk.value))
    else None
  }

  /** The position an event leaves behind. */
  function PositionFrom(e: Event): Position {
    match e.kind
    case EntryCall => Held(Call, e.stop, e.target)
    case EntryPut => Held(Put, e.stop, e.target)
    case _ => Flat
  }

  function Next(row: Row, pos: Position): Position {
    var e := EventAt(row, pos);
    if e.Some? then PositionFrom(e.value) else pos
  }

  // ---------------------------------------------------------------- the walk

  function State(rows: seq<Row>, pos: Position): Position {
    if |rows| == 0 then pos
    else Next(rows[|rows| - 1], State(rows[..|rows| - 1], pos))
  }

  function Events(rows: seq<Row>, pos: Position): seq<Event> {
    if |rows| == 0 then []
    else
      var before := State(rows[..|rows| - 1], pos);
      var e := EventAt(rows[|rows| - 1], before);
      Events(rows[..|rows| - 1], pos) + (if e.Some? then [e.value] else [])
  }

  /** The events after time t, and those up to it. */
  function After(es: seq<Event>, t: int): seq<Event> { Filter(es, (e: Event) => e.ts > t) }

  function UpTo(es: seq<Event>, t: int): seq<Event> { Filter(es, (e: Event) => e.ts <= t) }

  /** How many leading rows are at or before t: the ones a seeded replay does not evaluate. */
  function Skip(rows: seq<Row>, t: int): (c: nat)
    ensures c <= |rows|
    ensures forall i :: 0 <= i < c ==> rows[i].ts <= t
    ensures c < |rows| ==> rows[c].ts > t
  {
    if |rows| == 0 || rows[0].ts > t then 0 else 1 + Skip(rows[1..], t)
  }

  function Seed(rows: seq<Row>, startAfter: Option<int>): (c: nat)
    ensures c <= |rows|
  {
    if startAfter.None? then 0 else Skip(rows, startAfter.value)
  }

  /** The events of a replay, seeded with a position after `startAfter` or plain from flat. */
  function Replay(rows: seq<Row>, startAfter: Option<int>, initial: Position): seq<Event> {
    Events(rows[Seed(rows, startAfter)..], initial)
  }

  /** The position a replay reports for each bar; bars it does not evaluate are reported flat. */
  function Positions(rows: seq<Row>, startAfter: Option<int>, initial: Position): (r: seq<Position>)
    ensures |r| == |rows|
  {
    var c := Seed(rows, startAfter);
    seq(|rows|, i requires 0 <= i < |rows| => if i < c then Flat else State(rows[c..i + 1], initial))
  }

  datatype RunResult = ValueError | Ran(bars: seq<Bar>, positions: seq<Position>, events: seq<Event>)

  function RunRows(bars: seq<Bar>, rows: seq<Row>, startAfter: Option<int>, initial: Position): RunResult {
    if initial.Held? && startAfter.None? then ValueError
    else Ran(bars, Positions(rows, startAfter, initial), Replay(rows, startAfter, initial))
  }

  function RunSpec(raw: seq<RawBar>, cfg: Config, startAfter: Option<int>, initial: Position): RunResult {
    RunRows(DropInvalid(raw), Rows(DropInvalid(raw), cfg), startAfter, initial)
  }

  /** The tracker's variables as a position. */
  function Tracked(pos: int, stop: Option<real>, target: Option<real>): Position {
    if pos == 0 then Flat else Held(if pos == 1 then Call else Put, stop, target)
  }

  /** One pass of the program's loop body, on its own variables: exits are decided before
      entries and against the levels the bar started with. */
  method Advance(row: Row, pos0: int, stop0: Option<real>, target0: Option<real>)
    returns (pos: int, stop: Option<real>, target: Option<real>, e: Option<Event>)
    requires pos0 == 0 || pos0 == 1 || pos0 == -1
    ensures pos == 0 || pos == 1 || pos == -1
    ensures e == EventAt(row, Tracked(pos0, stop0, target0))
    ensures Tracked(pos, stop, target) == Next(row, Tracked(pos0, stop0, target0))
  {
    pos, stop, target, e := pos0, stop0, target0, None;
    var stopHit := stop.Some? && ((pos == 1 && row.low <= stop.value) || (pos == -1 && row.high >= stop.value));
    var targetHit := target.Some? && ((pos == 1 && row.high >= target.value) || (pos == -1 && row.low <= target.value));
    var canEnter := pos == 0 && row.inSession &&
      row.risk.Some? && row.risk.value.stop > 0.0 && row.risk.value.target > 0.0;
    if pos != 0 && (stopHit || targetHit) {
      e := Some(Event(row.ts, if stopHit then ExitSl else ExitTarget, row.close, None, None, None,
                      if stopHit then stop else target));
      pos, stop, target := 0, None, None;
    } else if canEnter && row.bullEdge {
      pos, stop, target := 1, Some(row.close - row.risk.value.stop), Some(row.close + row.risk.value.target);
      e := Some(Event(row.ts, EntryCall, row.close, Some(row.strike), stop, target, None));
    } else if canEnter && row.bearEdge {
      pos, stop, target := -1, Some(row.close + row.risk.value.stop), Some(row.close - row.risk.value.target);
      e := Some(Event(row.ts, EntryPut, row.close, Some(row.strike), stop, target, None));
    }
  }

  lemma WalkStep(rows: seq<Row>, c: nat, i: nat, pos: Position)
    requires c <= i < |rows|
    ensures
      var before := State(rows[c..i], pos);
      var e := EventAt(rows[i], before);
      && State(rows[c..i + 1], pos) == Next(rows[i], before)
      && Events(rows[c..i + 1], pos) == Events(rows[c..i], pos) + (if e.Some? then [e.value] else [])
  {
    assert rows[c..i + 1][..i - c] == rows[c..i];
  }

  lemma PositionAt(rows: seq<Row>, startAfter: Option<int>, initial: Position, i: nat)
    requires i < |rows|
    ensures Positions(rows, startAfter, initial)[i] ==
      if i < Seed(rows, startAfter) then Flat else State(rows[Seed(rows, startAfter)..i + 1], initial)
  {
  }

  /** The state machine over the whole window. */
  method Track(rows: seq<Row>, startAfter: Option<int>, initial: Position)
    returns (out: seq<Position>, events: seq<Event>)
    ensures out == Positions(rows, startAfter, initial)
    ensures events == Replay(rows, startAfter, initial)
  {
    hide Positions, EventAt, Next;
    ghost var c := Seed(rows, startAfter);
    var pos := 0;
    var stop, target: Option<real> := None, None;
    out, events := [], [];
    var seeded := false;
    for i := 0 to |rows|
      invariant |out| == i
      invariant seeded == (c < i)
      invariant pos == 0 || pos == 1 || pos == -1
      invariant seeded ==> Tracked(pos, stop, target) == State(rows[c..i], initial)
      invariant seeded ==> events == Events(rows[c..i], initial)
      invariant !seeded ==> i <= c && pos == 0 && events == []
      invariant out == Positions(rows, startAfter, initial)[..i]
    {
      var row := rows[i];
      PositionAt(rows, startAfter, initial, i);
      if !seeded {
        if startAfter.Some? && row.ts <= startAfter.value {
          out := out + [Flat];
          continue;
        }
        seeded := true;
        if initial.Held? {
          pos := if initial.side == Call then 1 else -1;
          stop, target := initial.stop, initial.target;
        }
        assert rows[c..i] == [];
      }
      WalkStep(rows, c, i, initial);
      var e: Option<Event>;
      pos, stop, target, e := Advance(row, pos, stop, target);
      if e.Some? {
        events := events + [e.value];
      }
      out := out + [Tracked(pos, stop, target)];
    }
    assert rows[c..|rows|] == rows[c..];
  }

  method Run(raw: seq<RawBar>, cfg: Config, startAfter: Option<int>, initial: Position) returns (r: RunResult)
    ensures r == RunSpec(raw, cfg, startAfter, initial)
  {
    if initial.Held? && startAfter.None? {
      return ValueError;
    }
    var bars := DropInvalid(raw);
    var frame := ComputeIndicators(bars, cfg);
    var rows := BuildRows(bars, frame, cfg);
    var positions, events := Track(rows, startAfter, initial);
    r := Ran(bars, positions, events);
  }
}
