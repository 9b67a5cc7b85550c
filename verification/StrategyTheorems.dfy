/** What the strategy promises its callers over whole windows: a replay is stable when the
    window grows, can be resumed anywhere from the position it holds, and always alternates
    entries and exits, every exit at a level its own entry announced. */
module StrategyTheorems {
  import opened Common
  import opened Indicators
  import opened Strategy

  ghost predicate AscendingRows(rows: seq<Row>) {
    forall i, j :: 0 <= i < j < |rows| ==> rows[i].ts < rows[j].ts
  }

  lemma RowsAscending(bars: seq<Bar>, cfg: Config)
    requires Ascending(bars)
    ensures AscendingRows(Rows(bars, cfg))
  {
  }

  // ---------------------------------------------------------------- splitting a walk

  lemma {:induction false} WalkConcat(a: seq<Row>, b: seq<Row>, pos: Position)
    ensures State(a + b, pos) == State(b, State(a, pos))
    ensures Events(a + b, pos) == Events(a, pos) + Events(b, State(a, pos))
  {
    if |b| == 0 {
      assert a + b == a;
    } else {
      var m := |b| - 1;
      assert (a + b)[..|a + b| - 1] == a + b[..m];
      WalkConcat(a, b[..m], pos);
    }
  }

  lemma WalkSplit(rows: seq<Row>, c: nat, pos: Position)
    requires c <= |rows|
    ensures State(rows, pos) == State(rows[c..], State(rows[..c], pos))
    ensures Events(rows, pos) == Events(rows[..c], pos) + Events(rows[c..], State(rows[..c], pos))
  {
    assert rows == rows[..c] + rows[c..];
    WalkConcat(rows[..c], rows[c..], pos);
  }

  ghost predicate AscendingEvents(es: seq<Event>) {
    forall i, j :: 0 <= i < j < |es| ==> es[i].ts < es[j].ts
  }

  /** Every event is stamped with the time of a bar it was evaluated on. */
  lemma {:induction false} EventTimes(rows: seq<Row>, pos: Position, lo: int, hi: int)
    requires forall i :: 0 <= i < |rows| ==> lo <= rows[i].ts <= hi
    ensures forall i :: 0 <= i < |Events(rows, pos)| ==> lo <= Events(rows, pos)[i].ts <= hi
  {
    if |rows| > 0 {
      EventTimes(rows[..|rows| - 1], pos, lo, hi);
    }
  }

  /** At most one event a bar, in time order. */
  lemma {:induction false} EventsAscending(rows: seq<Row>, pos: Position)
    requires AscendingRows(rows)
    ensures AscendingEvents(Events(rows, pos))
  {
    if |rows| > 1 {
      var init := rows[..|rows| - 1];
      EventsAscending(init, pos);
      EventTimes(init, pos, init[0].ts, init[|init| - 1].ts);
    }
  }

  /** Cutting ascending rows where their times pass t cuts the events there too. */
  lemma CutByTime(rows: seq<Row>, c: nat, pos: Position, t: int)
    requires c <= |rows|
    requires forall i :: 0 <= i < c ==> rows[i].ts <= t
    requires forall i :: c <= i < |rows| ==> rows[i].ts > t
    requires AscendingRows(rows)
    ensures UpTo(Events(rows, pos), t) == Events(rows[..c], pos)
    ensures After(Events(rows, pos), t) == Events(rows[c..], State(rows[..c], pos))
  {
    hide EventAt, State, Events, UpTo, After;
    var mid := State(rows[..c], pos);
    var early, late := Events(rows[..c], pos), Events(rows[c..], mid);
    WalkSplit(rows, c, pos);
    EventTimes(rows[..c], pos, if c == 0 then t else rows[0].ts, t);
    EventTimes(rows[c..], mid, t + 1, if c == |rows| then t + 1 else rows[|rows| - 1].ts);
    SplitFilters(early, late, t);
  }

  lemma SplitFilters(early: seq<Event>, late: seq<Event>, t: int)
    requires forall i :: 0 <= i < |early| ==> early[i].ts <= t
    requires forall i :: 0 <= i < |late| ==> late[i].ts > t
    ensures UpTo(early + late, t) == early
    ensures After(early + late, t) == late
  {
    var after, upTo := (e: Event) => e.ts > t, (e: Event) => e.ts <= t;
    FilterConcat(early, late, after);
    FilterConcat(early, late, upTo);
    FilterNone(early, after);
    FilterAll(late, after);
    FilterAll(early, upTo);
    FilterNone(late, upTo);
    assert UpTo(early + late, t) == Filter(early + late, upTo);
    assert After(early + late, t) == Filter(early + late, after);
  }

  /** The position is whatever the last event left; without an event it has not changed. */
  lemma {:induction false} StateFromEvents(rows: seq<Row>, pos: Position)
    ensures State(rows, pos) ==
      if Events(rows, pos) == [] then pos else PositionFrom(Events(rows, pos)[|Events(rows, pos)| - 1])
  {
    if |rows| > 0 {
      StateFromEvents(rows[..|rows| - 1], pos);
    }
  }

  // ---------------------------------------------------------------- alternation

  /** e can follow a position: an entry only from flat, with its stop and target on opposite
      sides of its price; an exit only from a held position and at one of its two levels. */
  ghost predicate Follows(e: Event, pos: Position) {
    match e.kind
    case EntryCall => pos.Flat? && e.stop.Some? && e.target.Some? && e.stop.value < e.price < e.target.value
    case EntryPut => pos.Flat? && e.stop.Some? && e.target.Some? && e.target.value < e.price < e.stop.value
    case ExitSl => pos.Held? && pos.stop.Some? && e.exitLevel == pos.stop
    case ExitTarget => pos.Held? && pos.target.Some? && e.exitLevel == pos.target
    case SquareOff => false
  }

  /** The position before event i of a list that starts from pos. */
  ghost function Before(es: seq<Event>, i: nat, pos: Position): Position
    requires i <= |es|
  {
    if i == 0 then pos else PositionFrom(es[i - 1])
  }

  ghost predicate Alternates(es: seq<Event>, pos: Position) {
    forall i :: 0 <= i < |es| ==> Follows(es[i], Before(es, i, pos))
  }

  lemma AlternatesSnoc(es: seq<Event>, e: Event, pos: Position)
    requires Alternates(es, pos)
    requires Follows(e, Before(es, |es|, pos))
    ensures Alternates(es + [e], pos)
  {
  }

  lemma EventFollows(row: Row, pos: Position)
    ensures EventAt(row, pos).Some? ==> Follows(EventAt(row, pos).value, pos)
  {
  }

  /** Entries and exits strictly alternate and every exit is at its own entry's level. */
  lemma {:induction false} EventsAlternate(rows: seq<Row>, pos: Position)
    ensures Alternates(Events(rows, pos), pos)
  {
    if |rows| > 0 {
      var init := rows[..|rows| - 1];
      EventsAlternate(init, pos);
      StateFromEvents(init, pos);
      EventFollows(rows[|rows| - 1], State(init, pos));
      var e := EventAt(rows[|rows| - 1], State(init, pos));
      if e.Some? {
        assert Before(Events(init, pos), |Events(init, pos)|, pos) == State(init, pos);
        AlternatesSnoc(Events(init, pos), e.value, pos);
      } else {
        assert Events(rows, pos) == Events(init, pos);
      }
    }
  }

  // ---------------------------------------------------------------- what each bar emits

  /** The events stamped with time t. */
  function OnBar(es: seq<Event>, t: int): seq<Event> { Filter(es, (e: Event) => e.ts == t) }

  lemma OnBarConcat(a: seq<Event>, b: seq<Event>, t: int)
    ensures OnBar(a + b, t) == OnBar(a, t) + OnBar(b, t)
  {
    FilterConcat(a, b, (e: Event) => e.ts == t);
  }

  lemma OffBar(es: seq<Event>, t: int)
    requires forall i :: 0 <= i < |es| ==> es[i].ts != t
    ensures OnBar(es, t) == []
  {
    FilterNone(es, (e: Event) => e.ts == t);
  }

  function OneOrNone(e: Option<Event>): seq<Event> { if e.Some? then [e.value] else [] }

  lemma SplitAtBar(rows: seq<Row>, pos: Position, i: nat)
    requires i < |rows|
    ensures Events(rows, pos) ==
      Events(rows[..i], pos) + OneOrNone(EventAt(rows[i], State(rows[..i], pos)))
      + Events(rows[i + 1..], State(rows[..i + 1], pos))
  {
    hide EventAt, State;
    WalkSplit(rows, i + 1, pos);
    WalkStep(rows, 0, i, pos);
    assert rows[0..i + 1] == rows[..i + 1] && rows[0..i] == rows[..i];
  }

  lemma OthersOffBar(rows: seq<Row>, pos: Position, mid: Position, i: nat)
    requires AscendingRows(rows) && i < |rows|
    ensures OnBar(Events(rows[..i], pos), rows[i].ts) == []
    ensures OnBar(Events(rows[i + 1..], mid), rows[i].ts) == []
  {
    hide Events, OnBar;
    var t, early, late := rows[i].ts, rows[..i], rows[i + 1..];
    EventTimes(early, pos, if i == 0 then t - 1 else rows[0].ts, t - 1);
    EventTimes(late, mid, t + 1, if i + 1 == |rows| then t + 1 else rows[|rows| - 1].ts);
    OffBar(Events(early, pos), t);
    OffBar(Events(late, mid), t);
  }

  /** The events of a whole replay on one of its bars are that bar's own, or none. */
  lemma OwnEvents(rows: seq<Row>, pos: Position, i: nat)
    requires AscendingRows(rows) && i < |rows|
    ensures OnBar(Events(rows, pos), rows[i].ts) == OneOrNone(EventAt(rows[i], State(rows[..i], pos)))
  {
    hide EventAt, OnBar, State, Events, OneOrNone;
    var t, mid := rows[i].ts, State(rows[..i + 1], pos);
    var early, late := Events(rows[..i], pos), Events(rows[i + 1..], mid);
    var one := OneOrNone(EventAt(rows[i], State(rows[..i], pos)));
    SplitAtBar(rows, pos, i);
    OthersOffBar(rows, pos, mid, i);
    OnBarConcat(early + one, late, t);
    OnBarConcat(early, one, t);
    OwnTime(rows[i], State(rows[..i], pos));
  }

  lemma OwnTime(row: Row, pos: Position)
    ensures OnBar(OneOrNone(EventAt(row, pos)), row.ts) == OneOrNone(EventAt(row, pos))
  {
    var e := EventAt(row, pos);
    if e.Some? {
      FilterAll([e.value], (x: Event) => x.ts == row.ts);
    }
  }

  predicate DistancesUsable(row: Row) { row.risk.Some? && row.risk.value.stop > 0.0 && row.risk.value.target > 0.0 }

  /** Over a whole replay, bar by bar: it enters on a bar if and only if it was flat before it, the
      bar is in session, its distances are usable and a setup starts on it, a bullish one first, at the
      bar's close and with those distances; and it exits if and only if it held a position whose
      stop or target the bar touched. Nothing else ever happens on a bar. */
  lemma BarEmitsIff(rows: seq<Row>, pos: Position, i: nat)
    requires AscendingRows(rows) && i < |rows|
    ensures
      var row, before, es := rows[i], State(rows[..i], pos), OnBar(Events(rows, pos), rows[i].ts);
      && |es| <= 1
      && (es != [] && IsEntry(es[0]) <==>
            before.Flat? && row.inSession && DistancesUsable(row) && (row.bullEdge || row.bearEdge))
      && (es != [] && IsExit(es[0]) <==> StopHit(row, before) || TargetHit(row, before))
      && (es != [] && IsExit(es[0]) ==>
            && (es[0].kind.ExitSl? <==> StopHit(row, before))
            && es[0].exitLevel == (if es[0].kind.ExitSl? then before.stop else before.target))
      && (es != [] ==> es[0].price == row.close && (IsEntry(es[0]) || IsExit(es[0])))
      && (es != [] && IsEntry(es[0]) ==>
            && (es[0].kind.EntryCall? <==> row.bullEdge)
            && es[0].stop.Some? && Abs(es[0].price - es[0].stop.value) == row.risk.value.stop
            && es[0].target.Some? && Abs(es[0].price - es[0].target.value) == row.risk.value.target)
  {
    hide OnBar, State, Events;
    OwnEvents(rows, pos, i);
  }

  /** Over a whole replay, a bar that touches the stop of the held position (its target as well, or
      a fresh setup starting on it) emits one event, the exit at that stop, and ends flat. */
  lemma StopBeatsTarget(rows: seq<Row>, pos: Position, i: nat)
    requires AscendingRows(rows) && i < |rows| && StopHit(rows[i], State(rows[..i], pos))
    ensures
      var stop, es := State(rows[..i], pos).stop, OnBar(Events(rows, pos), rows[i].ts);
      |es| == 1 && es[0].kind == ExitSl && es[0].exitLevel == stop && State(rows[..i + 1], pos) == Flat
  {
    hide OnBar, Events;
    OwnEvents(rows, pos, i);
    WalkStep(rows, 0, i, pos);
    assert rows[0..i + 1] == rows[..i + 1] && rows[0..i] == rows[..i];
  }

  // ---------------------------------------------------------------- prefix stability

  lemma {:induction false} SkipPrefix(rows: seq<Row>, t: int, k: nat)
    requires k <= |rows|
    ensures Skip(rows[..k], t) == if Skip(rows, t) <= k then Skip(rows, t) else k
  {
  }

  lemma SeedPrefix(rows: seq<Row>, k: nat, startAfter: Option<int>)
    requires k <= |rows|
    ensures
      var c := Seed(rows, startAfter);
      rows[..k][Seed(rows[..k], startAfter)..] == rows[c..][..if c <= k then k - c else 0]
  {
  }

  /** Cutting the rows at k cuts the events to those of the first k rows. */
  lemma ReplayPrefix(rows: seq<Row>, k: nat, startAfter: Option<int>, initial: Position)
    requires AscendingRows(rows) && k <= |rows|
    ensures Replay(rows[..k], startAfter, initial) <= Replay(rows, startAfter, initial)
    ensures k > 0 ==>
      Replay(rows[..k], startAfter, initial) == UpTo(Replay(rows, startAfter, initial), rows[k - 1].ts)
  {
    hide State, Events, UpTo, Skip, Seed;
    var c := Seed(rows, startAfter);
    var m := if c <= k then k - c else 0;
    SeedPrefix(rows, k, startAfter);
    assert Replay(rows[..k], startAfter, initial) == Events(rows[c..][..m], initial);
    if k > 0 {
      SeedTimes(rows, k, startAfter);
    }
    CutWalk(rows[c..], m, initial, if k > 0 then Some(rows[k - 1].ts) else None);
  }

  lemma SeedTimes(rows: seq<Row>, k: nat, startAfter: Option<int>)
    requires AscendingRows(rows) && 0 < k <= |rows|
    ensures
      var c := Seed(rows, startAfter);
      var m := if c <= k then k - c else 0;
      && AscendingRows(rows[c..])
      && (forall i :: 0 <= i < m ==> rows[c..][i].ts <= rows[k - 1].ts)
      && (forall i :: m <= i < |rows| - c ==> rows[c..][i].ts > rows[k - 1].ts)
  {
  }

  lemma CutWalk(rows: seq<Row>, m: nat, pos: Position, t: Option<int>)
    requires AscendingRows(rows) && m <= |rows|
    requires t.Some? ==> forall i :: 0 <= i < m ==> rows[i].ts <= t.value
    requires t.Some? ==> forall i :: m <= i < |rows| ==> rows[i].ts > t.value
    ensures Events(rows[..m], pos) <= Events(rows, pos)
    ensures t.Some? ==> Events(rows[..m], pos) == UpTo(Events(rows, pos), t.value)
  {
    WalkSplit(rows, m, pos);
    if t.Some? {
      CutByTime(rows, m, pos, t.value);
    }
  }

  lemma PositionsPrefix(rows: seq<Row>, k: nat, startAfter: Option<int>, initial: Position)
    requires k <= |rows|
    ensures Positions(rows[..k], startAfter, initial) == Positions(rows, startAfter, initial)[..k]
  {
    var c := Seed(rows, startAfter);
    if startAfter.Some? {
      SkipPrefix(rows, startAfter.value, k);
    }
    forall i | 0 <= i < k
      ensures Positions(rows[..k], startAfter, initial)[i] == Positions(rows, startAfter, initial)[i]
    {
      if c <= i {
        assert rows[..k][c..i + 1] == rows[c..i + 1];
      }
    }
  }

  /** A run over fewer bars is the longer run cut at the last of them. */
  ghost predicate CutOf(cut: RunResult, full: RunResult) {
    (cut.ValueError? <==> full.ValueError?) &&
    (full.Ran? && cut.Ran? ==>
      && cut.bars <= full.bars
      && |full.positions| == |full.bars|
      && cut.positions == full.positions[..|cut.bars|]
      && cut.events <= full.events
      && (cut.bars != [] ==> cut.events == UpTo(full.events, cut.bars[|cut.bars| - 1].ts)))
  }

  lemma RunRowsPrefix(bars: seq<Bar>, rows: seq<Row>, k: nat, startAfter: Option<int>, initial: Position)
    requires k <= |bars| == |rows| && AscendingRows(rows)
    requires forall i :: 0 <= i < |bars| ==> rows[i].ts == bars[i].ts
    ensures CutOf(RunRows(bars[..k], rows[..k], startAfter, initial), RunRows(bars, rows, startAfter, initial))
  {
    hide Replay, Positions, UpTo;
    ReplayPrefix(rows, k, startAfter, initial);
    PositionsPrefix(rows, k, startAfter, initial);
  }

  /** Prefix stability of a whole run, from the raw window: the run on the first k raw bars
      reports exactly the bars, positions and events of the run on all of them up to there. */
  lemma PrefixStable(raw: seq<RawBar>, cfg: Config, k: nat, startAfter: Option<int>, initial: Position)
    requires AscendingRaw(raw) && k <= |raw|
    ensures CutOf(RunSpec(raw[..k], cfg, startAfter, initial), RunSpec(raw, cfg, startAfter, initial))
  {
    var bars, cut := DropInvalid(raw), DropInvalid(raw[..k]);
    assert raw == raw[..k] + raw[k..];
    DropInvalidConcat(raw[..k], raw[k..]);
    assert cut == bars[..|cut|];
    DropInvalidAscending(raw);
    RowsAscending(bars, cfg);
    RowsPrefix(bars, cfg, |cut|);
    RunRowsPrefix(bars, Rows(bars, cfg), |cut|, startAfter, initial);
  }

  // ---------------------------------------------------------------- seeded resume

  /** The position a plain replay holds after everything at or before t. */
  ghost function HeldAt(rows: seq<Row>, t: int): Position {
    State(rows[..Skip(rows, t)], Flat)
  }

  /** Resuming after any time t from the position held there emits exactly the later events. */
  lemma SeededResume(rows: seq<Row>, t: int)
    requires AscendingRows(rows)
    ensures Replay(rows, Some(t), HeldAt(rows, t)) == After(Events(rows, Flat), t)
  {
    CutByTime(rows, Skip(rows, t), Flat, t);
  }

  /** The same from the raw window: the seeded run from the position the full run reports on
      its last bar at or before t has exactly the full run's events after t. */
  lemma SeededRunResumes(raw: seq<RawBar>, cfg: Config, t: int)
    requires AscendingRaw(raw)
    ensures
      var full := RunSpec(raw, cfg, None, Flat);
      var resumed := RunSpec(raw, cfg, Some(t), LastReported(full.bars, full.positions, t));
      resumed.Ran? && resumed.events == After(full.events, t)
  {
    DropInvalidAscending(raw);
    RowsAscending(DropInvalid(raw), cfg);
    SeededRowsResume(DropInvalid(raw), Rows(DropInvalid(raw), cfg), t);
  }

  /** The position reported for the last bar at or before t; flat before the first bar. */
  ghost function LastReported(bars: seq<Bar>, positions: seq<Position>, t: int): Position
    requires |bars| == |positions|
  {
    if |bars| == 0 then Flat
    else
      var n := |bars| - 1;
      if bars[n].ts <= t then positions[n] else LastReported(bars[..n], positions[..n], t)
  }

  lemma {:induction false} LastReportedAt(bars: seq<Bar>, positions: seq<Position>, t: int, c: nat)
    requires |bars| == |positions| && c <= |bars|
    requires c > 0 ==> bars[c - 1].ts <= t
    requires forall i :: c <= i < |bars| ==> bars[i].ts > t
    ensures LastReported(bars, positions, t) == if c == 0 then Flat else positions[c - 1]
  {
    if |bars| > c {
      LastReportedAt(bars[..|bars| - 1], positions[..|bars| - 1], t, c);
    }
  }

  lemma SeededRowsResume(bars: seq<Bar>, rows: seq<Row>, t: int)
    requires |bars| == |rows| && AscendingRows(rows)
    requires forall i :: 0 <= i < |bars| ==> rows[i].ts == bars[i].ts
    ensures
      var full := RunRows(bars, rows, None, Flat);
      var resumed := RunRows(bars, rows, Some(t), LastReported(full.bars, full.positions, t));
      resumed.events == After(full.events, t)
  {
    hide After, EventAt, Next;
    var c := Skip(rows, t);
    LastReportedAt(bars, Positions(rows, None, Flat), t, c);
    SeededResume(rows, t);
    assert rows[0..] == rows;
    if c > 0 {
      assert rows[0..c] == rows[..c];
      assert Positions(rows, None, Flat)[c - 1] == State(rows[..c], Flat);
    }
  }

  // ---------------------------------------------------------------- strikes

  lemma Scaled(x: real, y: real, step: real)
    requires x <= y && step > 0.0
    ensures x * step <= y * step
    ensures x < y ==> x * step < y * step
  {
  }

  /** The strike of an entry is a multiple of the step, at most half a step away, and a price
      exactly between two strikes takes the upper one. */
  lemma NearestStrike(price: real, step: nat) returns (n: int)
    requires step >= 1
    ensures RoundToStrike(price, step) == n * step
    ensures -(step as real) / 2.0 < RoundToStrike(price, step) as real - price <= step as real / 2.0
  {
    var w, q := step as real, price / step as real;
    n := (q + 0.5).Floor;
    assert q * w == price;
    assert n as real <= q + 0.5 < n as real + 1.0;
    Scaled(n as real, q + 0.5, w);
    Scaled(q + 0.5, n as real + 1.0, w);
    assert (q + 0.5) * w == price + w / 2.0;
    assert (n as real + 1.0) * w == n as real * w + w;
    assert (n * step) as real == n as real * w;
  }
}
