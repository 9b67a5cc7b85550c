/** The polling driver against the research simulator under the paper-session rules: entries end at the
    cutoff and an open position is closed at the square-off time. Polled at each bar close, over whole
    days, forced closes included, the driver does what the simulator does; the two differ exactly on a
    square-off bar that also touches a level, where the simulator takes the level and the driver the close. */
module PaperSession {
  import opened Common
  import opened Indicators
  import opened Strategy
  import opened StrategyTheorems
  import opened Account
  import opened Risk
  import opened AutoTrader
  import opened CycleTheorems
  import opened RunTheorems
  import opened Incremental
  import opened Simulator

  /** The paper-session variant of the baseline. */
  function Paper(l: RiskLimits): Variant { Variant(None, Some(l.entryCutoff), Some(l.squareOffTime), AtLevel, true) }

  function End(m: Market, b: Bar): int { b.ts + m.barLength }

  /** Sessions as the exchange has them: every bar ends on its own day within trading hours, every day that
      is over reaches the square-off time, entries end before it, and bars are short against the night. */
  ghost predicate Sessions(m: Market, l: RiskLimits, bars: seq<Bar>) {
    && Ascending(bars) && m.barLength > 0 && m.barLength * (FRESHNESS_BARS + 1) <= l.tradingStart
    && l.entryCutoff < l.squareOffTime
    && (forall k :: 0 <= k < |bars| ==> Day(End(m, bars[k])) == Day(bars[k].ts) && WithinHours(l, End(m, bars[k])))
    && (forall k :: 0 < k < |bars| && Day(bars[k - 1].ts) != Day(bars[k].ts) ==>
          TimeOfDay(End(m, bars[k - 1])) >= l.squareOffTime)
  }

  // ---------------------------------------------------------------- what is pending

  /** An account whose levels are its own, or which is flat. */
  ghost predicate Settled(a: AccountState) { InStep(a) && (a.quantity > 0 ==> a.stop.Some? && a.target.Some?) }

  ghost function PositionOf(a: AccountState): Position {
    if a.quantity > 0 && a.side.Some? then Held(a.side.value, a.stop, a.target) else Flat
  }

  /** The mark lies at or before t. */
  ghost predicate MarkedBy(a: AccountState, t: int) { a.lastEventAt.Some? ==> a.lastEventAt.value <= t }

  lemma PendingIs(rows: seq<Row>, a: AccountState)
    requires AscendingRows(rows) && Settled(a)
    ensures Unprocessed(rows, a) == Events(rows[Seed(rows, a.lastEventAt)..], PositionOf(a))
  {
    hide Events, State, LevelsAt;
    UnprocessedOnRows(rows, a);
    assert rows[0..] == rows;
  }

  lemma SeedOnPrefix(rows: seq<Row>, k: nat, mark: Option<int>)
    requires k < |rows| && (mark.Some? ==> mark.value < rows[k].ts)
    ensures Seed(rows, mark) <= k && Seed(rows[..k], mark) == Seed(rows, mark)
  {
    if mark.Some? {
      SkipPrefix(rows, mark.value, k);
    }
  }

  /** A walk without events has not moved. */
  lemma QuietStep(rows: seq<Row>, c: nat, k: nat, pos: Position)
    requires c <= k < |rows| && Events(rows[c..k], pos) == []
    ensures State(rows[c..k], pos) == pos
    ensures Events(rows[c..k + 1], pos) == OneOrNone(EventAt(rows[k], pos))
  {
    hide EventAt, Events, State;
    StateFromEvents(rows[c..k], pos);
    WalkStep(rows, c, k, pos);
  }

  /** If nothing is pending of the first k rows, the next one adds just its own event. */
  lemma PendingStep(rows: seq<Row>, k: nat, a: AccountState)
    requires AscendingRows(rows) && |rows| == k + 1 && Settled(a)
    requires a.lastEventAt.Some? ==> a.lastEventAt.value < rows[k].ts
    requires Unprocessed(rows[..k], a) == []
    ensures Unprocessed(rows, a) == OneOrNone(EventAt(rows[k], PositionOf(a)))
  {
    hide EventAt, Events, State, Unprocessed, Seed, PositionOf, Settled;
    var c := Seed(rows, a.lastEventAt);
    SeedOnPrefix(rows, k, a.lastEventAt);
    PendingIs(rows, a);
    PrefixAscending(rows, k);
    PendingIs(rows[..k], a);
    assert rows[..k][c..] == rows[c..k] && rows[c..] == rows[c..k + 1];
    QuietStep(rows, c, k, PositionOf(a));
  }

  // ---------------------------------------------------------------- the backlog of a flat account

  /** Every event of the first k rows would be stale now. */
  ghost predicate AllStale(rows: seq<Row>, k: nat, barLength: int, now: int)
    requires k <= |rows|
  {
    forall i :: 0 <= i < k ==> now - (rows[i].ts + barLength) > barLength * FRESHNESS_BARS
  }

  /** What a scan that leaves only the last bar's own event comes to. */
  ghost predicate ScansToOwn(rows: seq<Row>, a: AccountState, own: Option<Event>, r: Scanned)
    requires AscendingRows(rows) && |rows| > 0
  {
    && r.account == a.(lastEventAt := r.account.lastEventAt) && MarkedBy(r.account, rows[|rows| - 1].ts)
    && (if own.Some? then r.Found? && r.event == own.value && !r.late
        else r.Quiet? && Unprocessed(rows, r.account) == [])
  }

  lemma FlatSettled(a: AccountState, t: int)
    requires Settled(a) && a.quantity == 0
    ensures Settled(a.(lastEventAt := Some(t))) && PositionOf(a) == Flat
  {
  }

  /** A flat account expires everything stale and is left with what the last bar starts from flat. */
  lemma {:induction false} FlatScan(rows: seq<Row>, k: nat, barLength: int, now: int, a: AccountState)
    requires AscendingRows(rows) && |rows| == k + 1 && Settled(a) && a.quantity == 0
    requires a.lastEventAt.Some? ==> a.lastEventAt.value < rows[k].ts
    requires AllStale(rows, k, barLength, now) || Unprocessed(rows[..k], a) == []
    requires now - (rows[k].ts + barLength) <= barLength * FRESHNESS_BARS
    ensures ScansToOwn(rows, a, EventAt(rows[k], Flat), Scan(rows, barLength, now, a))
    decreases Ahead(rows, a.lastEventAt)
  {
    hide EventAt, Events, State, Unprocessed, Settled, PositionOf, WellFormed, ScansToOwn;
    ScanStep(rows, barLength, now, a);
    FlatSettled(a, 0);
    if Unprocessed(rows[..k], a) == [] {
      PendingStep(rows, k, a);
      OwnOnly(rows, k, barLength, now, a);
    } else {
      var e := FirstOfEarlier(rows, k, a);
      FlatSettled(a, e.ts);
      FlatScan(rows, k, barLength, now, a.(lastEventAt := Some(e.ts)));
      ExpiredToOwn(rows, a, e, EventAt(rows[k], Flat), Scan(rows, barLength, now, a.(lastEventAt := Some(e.ts))));
    }
  }

  lemma ExpiredToOwn(rows: seq<Row>, a: AccountState, e: Event, own: Option<Event>, r: Scanned)
    requires AscendingRows(rows) && |rows| > 0 && ScansToOwn(rows, a.(lastEventAt := Some(e.ts)), own, r)
    ensures ScansToOwn(rows, a, own, AddExpired(r, e))
  {
    hide Unprocessed;
  }

  lemma OwnOnly(rows: seq<Row>, k: nat, barLength: int, now: int, a: AccountState)
    requires AscendingRows(rows) && |rows| == k + 1 && Settled(a)
    requires a.lastEventAt.Some? ==> a.lastEventAt.value < rows[k].ts
    requires Unprocessed(rows, a) == OneOrNone(EventAt(rows[k], Flat))
    requires now - (rows[k].ts + barLength) <= barLength * FRESHNESS_BARS
    ensures ScansToOwn(rows, a, EventAt(rows[k], Flat), Scan(rows, barLength, now, a))
  {
    hide EventAt, Unprocessed;
    StampedWithBar(rows[k], Flat);
    ScanStep(rows, barLength, now, a);
  }

  /** The oldest pending event of the earlier rows is the oldest of all, an entry, on one of them. */
  lemma FirstOfEarlier(rows: seq<Row>, k: nat, a: AccountState) returns (e: Event)
    requires AscendingRows(rows) && |rows| == k + 1 && Settled(a) && a.quantity == 0
    requires a.lastEventAt.Some? ==> a.lastEventAt.value < rows[k].ts
    requires Unprocessed(rows[..k], a) != []
    ensures First(rows, a) == Some(e) && IsEntry(e) && e.ts < rows[k].ts
    ensures exists i :: 0 <= i < k && rows[i].ts == e.ts
  {
    hide EventAt, Events, State, PositionOf;
    var c, pos := Seed(rows, a.lastEventAt), PositionOf(a);
    SeedOnPrefix(rows, k, a.lastEventAt);
    PendingIs(rows, a);
    PrefixAscending(rows, k);
    PendingIs(rows[..k], a);
    assert rows[..k][c..] == rows[c..k] && rows[c..] == rows[c..k + 1];
    WalkStep(rows, c, k, pos);
    e := Events(rows[c..k], pos)[0];
    var d := EventSource(rows[c..k], pos, 0);
    StampedWithBar(rows[c..k][d], State(rows[c..k][..d], pos));
    assert rows[c + d].ts == e.ts;
    NextMatchesPosition(rows, a);
  }

  // ---------------------------------------------------------------- one poll at a bar close

  /** The poll at the close of bar k. */
  ghost predicate AtClose(m: Market, p: Poll, bars: seq<Bar>, k: nat, q: int) {
    k < |bars| && Sees(m, p, bars, Shown(k + 1, None), q) && p.now == End(m, bars[k])
  }

  lemma RowsAtClose(m: Market, p: Poll, bars: seq<Bar>, k: nat, q: int, held: bool)
    requires AtClose(m, p, bars, k, q) && Ascending(bars)
    ensures AscendingRaw(p.data) && DropInvalid(p.data) == bars[..k + 1] != []
    ensures WindowRows(m, DropInvalid(p.data), p.now, held) == Rows(bars, m.cfg)[..k + 1]
    ensures AscendingRows(Rows(bars, m.cfg)[..k + 1]) && Rows(bars, m.cfg)[..k + 1][..k] == Rows(bars, m.cfg)[..k]
    ensures Rows(bars, m.cfg)[k].ts == bars[k].ts && Rows(bars, m.cfg)[k].close == bars[k].close
  {
    hide Rows;
    var v := Shown(k + 1, None);
    assert Visible(bars, v) == bars[..k + 1];
    RowsPrefix(bars, m.cfg, k + 1);
    RowsAscending(bars, m.cfg);
    PrefixAscending(Rows(bars, m.cfg), k + 1);
    OverWindow(m, p, bars, v, q);
  }

  lemma OwnFresh(row: Row, pos: Position, barLength: int, now: int)
    requires now == row.ts + barLength && barLength > 0
    ensures EventAt(row, pos).Some? ==> IsFresh(EventAt(row, pos).value, now, barLength)
  {
    StampedWithBar(row, pos);
  }

  /** What a held account does before the square-off time: the bar's own exit, or nothing. */
  ghost predicate HeldDoes(own: Option<Event>, a: AccountState, next: AccountState, o: Outcome, t: int) {
    && !o.ForcedClose? && (own.Some? ==> o.Acted? || Blocked(o))
    && (!o.Acted? ==> next == a)
    && (o.Acted? ==>
          && own.Some? && IsExit(own.value) && o.order.Placed? && FillIn(o) == FillOf(own.value)
          && Settled(next) && next.quantity == 0
          && next.lastEventAt == Some(t) && next.squareOffDate == a.squareOffDate)
  }

  lemma HeldTick(m: Market, l: RiskLimits, p: Poll, bars: seq<Bar>, k: nat, q: int, a: AccountState, risk: RiskState)
    requires Sessions(m, l, bars) && AtClose(m, p, bars, k, q) && Settled(a) && a.quantity == q > 0
    requires a.lastEventAt.value < bars[k].ts && Day(a.lastEventAt.value) == Day(bars[k].ts)
    requires TimeOfDay(p.now) < l.squareOffTime && Unprocessed(Rows(bars, m.cfg)[..k], a) == []
    ensures
      var own := EventAt(Rows(bars, m.cfg)[k], PositionOf(a));
      var (next, _, o) := Cycle(m, l, p, a, risk);
      HeldDoes(own, a, next, o, bars[k].ts)
  {
    hide Rows, EventAt, Unprocessed, Cycle, PositionOf, Handles, AscendingRows;
    RowsAtClose(m, p, bars, k, q, true);
    var rows := Rows(bars, m.cfg)[..k + 1];
    var own := EventAt(rows[k], PositionOf(a));
    PendingStep(rows, k, a);
    OwnFresh(rows[k], PositionOf(a), m.barLength, p.now);
    StampedWithBar(rows[k], PositionOf(a));
    FirstIsOwn(rows, a, own);
    CycleHandles(m, l, p, q, a, own, risk);
    NotDue(m, l, p, bars, k, a, risk);
    var (next, _, o) := Cycle(m, l, p, a, risk);
    HandledHeld(own, q, a, next, o);
    if own.Some? {
      NextMatchesPosition(rows, a);
    }
    CycleDates(m, l, p, a, risk);
  }

  lemma FirstIsOwn(rows: seq<Row>, a: AccountState, own: Option<Event>)
    requires Unprocessed(rows, a) == OneOrNone(own)
    ensures First(rows, a) == own
  {
    hide Unprocessed;
  }

  lemma HandledHeld(own: Option<Event>, q: int, a: AccountState, next: AccountState, o: Outcome)
    requires Handles(own, q, a, next, o)
    ensures !o.ForcedClose? && (own.Some? ==> o.Acted? || Blocked(o)) && (!o.Acted? ==> next == a)
    ensures o.Acted? ==>
      && own.Some? && o.order.Placed? && FillIn(o) == FillOf(own.value) && InStep(next)
      && next.lastEventAt == Some(own.value.ts) && (IsExit(own.value) ==> next.quantity == 0)
  {
    hide FillIn, FillOf;
  }

  /** Before the square-off time, on the day of the entry, nothing is forced. */
  lemma NotDue(m: Market, l: RiskLimits, p: Poll, bars: seq<Bar>, k: nat, a: AccountState, risk: RiskState)
    requires AscendingRaw(p.data) && InStep(a) && a.quantity > 0 && TimeOfDay(p.now) < l.squareOffTime
    requires k < |bars| && Day(a.lastEventAt.value) == Day(bars[k].ts) == Day(p.now)
    ensures !Cycle(m, l, p, a, risk).2.ForcedClose?
  {
    hide Cycle, FollowSignals, Rows;
    PrepareCases(m, l, p, a, risk);
    if DropInvalid(p.data) != [] {
      FollowNotForced(m, l, p, a, risk);
    }
  }

  lemma FollowNotForced(m: Market, l: RiskLimits, p: Poll, a: AccountState, risk: RiskState)
    requires AscendingRaw(p.data) && InStep(a) && DropInvalid(p.data) != []
    ensures AscendingRows(WindowRows(m, DropInvalid(p.data), p.now, a.quantity > 0))
    ensures
      var (next, _, o) := Settle(m, l, p, FollowSignals(m, p, DropInvalid(p.data), a, risk), risk, a.quantity);
      !o.ForcedClose? && next.squareOffDate == a.squareOffDate
  {
    hide Settle, FollowSignals, Rows;
    SignalsKeepStep(m, l, p, DropInvalid(p.data), a, risk);
  }

  /** A cycle without a forced close keeps the square-off date. */
  lemma CycleDates(m: Market, l: RiskLimits, p: Poll, a: AccountState, risk: RiskState)
    requires AscendingRaw(p.data) && InStep(a)
    ensures
      var (next, _, o) := Cycle(m, l, p, a, risk);
      !o.ForcedClose? ==> next.squareOffDate == a.squareOffDate
  {
    hide Cycle, Settle, FollowSignals, Rows;
    PrepareCases(m, l, p, a, risk);
    if DropInvalid(p.data) != [] && StaleDay(a, p.now).None? && !SquareOffDue(l, a, p.now) {
      FollowNotForced(m, l, p, a, risk);
    }
  }

  /** At or after the square-off time a held account is closed at the close of the bar. */
  lemma DueTick(m: Market, l: RiskLimits, p: Poll, bars: seq<Bar>, k: nat, q: int, a: AccountState, risk: RiskState)
    requires Sessions(m, l, bars) && AtClose(m, p, bars, k, q) && Settled(a) && a.quantity > 0
    requires Day(a.lastEventAt.value) == Day(bars[k].ts) && TimeOfDay(p.now) >= l.squareOffTime
    requires a.squareOffDate != Some(Day(bars[k].ts))
    ensures
      var (next, _, o) := Cycle(m, l, p, a, risk);
      && o.ForcedClose? && o.order.Placed? && o.event.ts == bars[k].ts && o.order.price == bars[k].close
      && Settled(next) && next.quantity == 0 && next.lastEventAt == Some(bars[k].ts)
      && next.squareOffDate == Some(Day(bars[k].ts))
  {
    hide FollowSignals, Rows;
    RowsAtClose(m, p, bars, k, q, true);
    ForceCloseLaws(m, l, bars[..k + 1], p.now, a, risk, None, true);
  }

  /** What a flat account does up to the cutoff: the entry of the bar's own setup, or nothing. */
  ghost predicate FlatDoes(
      rows: seq<Row>, own: Option<Event>, q: int, a: AccountState, next: AccountState, o: Outcome, t: int, day: int)
  {
    && !o.ForcedClose? && (own.Some? ==> o.Acted? || Blocked(o))
    && Settled(next) && next.squareOffDate == a.squareOffDate && MarkedBy(next, t)
    && (!o.Acted? ==> next.quantity == 0 && (own.None? ==> Unprocessed(rows, next) == []))
    && (o.Acted? ==>
          && own.Some? && IsEntry(own.value) && o.order.Placed? && FillIn(o) == FillOf(own.value)
          && next.quantity == q > 0 && PositionOf(next) == PositionFrom(own.value) && next.lastEventAt == Some(t)
          && a.squareOffDate != Some(day))
  }

  lemma FlatSettles(
      m: Market, l: RiskLimits, p: Poll, q: int, rows: seq<Row>, own: Option<Event>, a: AccountState, s: Scanned,
      risk: RiskState, lastPrice: real)
    requires AscendingRows(rows) && |rows| > 0 && Settled(a) && a.quantity == 0 && p.quantity == q
    requires ScansToOwn(rows, a, own, s) && (own.Some? ==> own.value.ts == rows[|rows| - 1].ts)
    requires own.Some? ==> Follows(own.value, Flat)
    requires Judged(p, a, risk, Judge(p, s, risk, lastPrice))
    ensures
      var (next, _, o) := Settle(m, l, p, Judge(p, s, risk, lastPrice), risk, a.quantity);
      FlatDoes(rows, own, q, a, next, o, rows[|rows| - 1].ts, Day(p.now))
  {
    hide Commit, Unprocessed;
    var plan := Judge(p, s, risk, lastPrice);
    if plan.Ready? {
      CommitLaws(m, l, p, plan, risk, CountSeen(p, plan.event, a.quantity));
    }
  }

  lemma FlatTick(m: Market, l: RiskLimits, p: Poll, bars: seq<Bar>, k: nat, q: int, a: AccountState, risk: RiskState)
    requires Sessions(m, l, bars) && AtClose(m, p, bars, k, q) && Settled(a) && a.quantity == 0
    requires a.lastEventAt.Some? ==> a.lastEventAt.value < bars[k].ts
    requires k == 0 || Day(bars[k - 1].ts) != Day(bars[k].ts) || Unprocessed(Rows(bars, m.cfg)[..k], a) == []
    ensures AscendingRows(Rows(bars, m.cfg)[..k + 1])
    ensures
      var rows := Rows(bars, m.cfg)[..k + 1];
      var (next, _, o) := Cycle(m, l, p, a, risk);
      FlatDoes(rows, EventAt(rows[k], Flat), q, a, next, o, bars[k].ts, Day(p.now))
  {
    hide Rows, EventAt, Unprocessed, Cycle, Settle, Judge, Scan, Settled, FlatDoes, ScansToOwn, Judged, AscendingRows;
    RowsAtClose(m, p, bars, k, q, false);
    var rows := Rows(bars, m.cfg)[..k + 1];
    SettledStep(a);
    PrepareCases(m, l, p, a, risk);
    EarlierStale(m, l, bars, k, rows, p.now);
    FlatScan(rows, k, m.barLength, p.now, a);
    StampedWithBar(rows[k], Flat);
    EventFollows(rows[k], Flat);
    UsableCloses(p.data);
    FollowLaws(m, p, bars[..k + 1], a, risk);
    FlatSettles(m, l, p, q, rows, EventAt(rows[k], Flat), a, Scan(rows, m.barLength, p.now, a), risk, bars[k].close);
  }

  lemma SettledStep(a: AccountState)
    requires Settled(a)
    ensures InStep(a)
  {
  }

  /** On the first bar of a day every earlier bar is stale. */
  lemma EarlierStale(m: Market, l: RiskLimits, bars: seq<Bar>, k: nat, rows: seq<Row>, now: int)
    requires Sessions(m, l, bars) && k < |bars| && |rows| == k + 1 && now == End(m, bars[k])
    requires rows == Rows(bars, m.cfg)[..k + 1]
    ensures k == 0 || Day(bars[k - 1].ts) != Day(bars[k].ts) ==> AllStale(rows, k, m.barLength, now)
  {
    var all := Rows(bars, m.cfg);
    hide Rows;
    if k == 0 || Day(bars[k - 1].ts) != Day(bars[k].ts) {
      forall i | 0 <= i < k
        ensures now - (rows[i].ts + m.barLength) > m.barLength * FRESHNESS_BARS
      {
        assert rows[i].ts == all[i].ts == bars[i].ts;
        assert bars[i].ts <= bars[k - 1].ts < bars[k].ts;
        DayApart(m, l, bars[i].ts, bars[k - 1].ts, bars[k], now);
      }
    }
  }

  lemma DayApart(m: Market, l: RiskLimits, ts: int, before: int, b: Bar, now: int)
    requires ts <= before < b.ts && Day(before) != Day(b.ts) && now == End(m, b) && Day(now) == Day(b.ts)
    requires WithinHours(l, now) && m.barLength > 0 && m.barLength * (FRESHNESS_BARS + 1) <= l.tradingStart
    ensures now - (ts + m.barLength) > m.barLength * FRESHNESS_BARS
  {
    assert Day(before) < Day(b.ts);
    assert ts < Day(now) * SECONDS_PER_DAY;
  }

  /** After the cutoff a flat account stays flat. */
  lemma LateTick(m: Market, l: RiskLimits, p: Poll, bars: seq<Bar>, k: nat, q: int, a: AccountState, risk: RiskState)
    requires Sessions(m, l, bars) && AtClose(m, p, bars, k, q) && Settled(a) && a.quantity == 0
    requires MarkedBy(a, bars[k].ts) && TimeOfDay(p.now) > l.entryCutoff
    ensures
      var (next, _, o) := Cycle(m, l, p, a, risk);
      && !o.ForcedClose? && !o.Acted? && Settled(next) && next.quantity == 0
      && next.squareOffDate == a.squareOffDate && MarkedBy(next, bars[k].ts)
  {
    hide Rows, Cycle, Settle, FollowSignals, AscendingRows;
    RowsAtClose(m, p, bars, k, q, false);
    OpensIff(m, l, p, a, risk);
    CycleKeepsStep(m, l, p, a, risk);
    CycleDates(m, l, p, a, risk);
    PrepareCases(m, l, p, a, risk);
    FollowNotForced(m, l, p, a, risk);
    FollowMarks(m, l, p, bars, k, q, a, risk);
  }

  /** The mark never passes the last bar, and only an entry or an exit acts. */
  lemma FollowMarks(m: Market, l: RiskLimits, p: Poll, bars: seq<Bar>, k: nat, q: int, a: AccountState, risk: RiskState)
    requires Ascending(bars) && AtClose(m, p, bars, k, q) && InStep(a) && a.quantity == 0 && MarkedBy(a, bars[k].ts)
    ensures DropInvalid(p.data) != [] && AscendingRows(WindowRows(m, DropInvalid(p.data), p.now, a.quantity > 0))
    ensures
      var (next, _, o) := Settle(m, l, p, FollowSignals(m, p, DropInvalid(p.data), a, risk), risk, a.quantity);
      MarkedBy(next, bars[k].ts) && (o.Acted? ==> next.quantity > 0)
  {
    hide Rows, Commit, Scan, Judge, AscendingRows, ScanSound, First;
    RowsAtClose(m, p, bars, k, q, false);
    var rows := Rows(bars, m.cfg)[..k + 1];
    UsableCloses(p.data);
    FollowLaws(m, p, bars[..k + 1], a, risk);
    ScanMarks(rows, m.barLength, p.now, a);
    var s := Scan(rows, m.barLength, p.now, a);
    var plan := FollowSignals(m, p, bars[..k + 1], a, risk);
    JudgeMarks(p, s, risk, bars[k].close, rows[k].ts);
    if plan.Ready? {
      CommitLaws(m, l, p, plan, risk, CountSeen(p, plan.event, a.quantity));
    }
  }

  lemma JudgeMarks(p: Poll, s: Scanned, risk: RiskState, lastPrice: real, t: int)
    requires MarkedBy(s.account, t) && (s.Found? ==> s.event.ts <= t)
    ensures
      var plan := Judge(p, s, risk, lastPrice);
      MarkedBy(plan.account, t) && (plan.Ready? ==> plan.event.ts <= t)
  {
  }

  lemma {:induction false} ScanMarks(rows: seq<Row>, barLength: int, now: int, a: AccountState)
    requires AscendingRows(rows) && |rows| > 0 && MarkedBy(a, rows[|rows| - 1].ts)
    ensures
      var r := Scan(rows, barLength, now, a);
      MarkedBy(r.account, rows[|rows| - 1].ts) && (r.Found? ==> r.event.ts <= rows[|rows| - 1].ts)
    decreases Ahead(rows, a.lastEventAt)
  {
    hide Unprocessed, IsFresh;
    ScanStep(rows, barLength, now, a);
    if First(rows, a).Some? {
      var e := First(rows, a).value;
      FirstWithin(rows, a);
      if !IsFresh(e, now, barLength) && !(IsExit(e) && a.quantity > 0) {
        ScanMarks(rows, barLength, now, a.(lastEventAt := Some(e.ts)));
      }
    }
  }

  lemma FirstWithin(rows: seq<Row>, a: AccountState)
    requires AscendingRows(rows) && First(rows, a).Some? && |rows| > 0
    ensures First(rows, a).value.ts <= rows[|rows| - 1].ts
  {
    hide EventAt, State, SeedPosition, Events;
    UnprocessedOnRows(rows, a);
    assert rows[0..] == rows;
    var c, pos := Seed(rows, a.lastEventAt), if a.lastEventAt.None? then Flat else SeedPosition(rows, a);
    EventTimes(rows[c..], pos, rows[0].ts, rows[|rows| - 1].ts);
  }

  // ---------------------------------------------------------------- the simulator's side

  /** The simulator's rows of the whole series. */
  ghost function Bars(m: Market, l: RiskLimits, bars: seq<Bar>): (bs: seq<SimRow>)
    ensures |bs| == |bars|
  {
    SimRows(bars, FrameOf(bars, m.cfg), m.cfg, Paper(l), m.barLength)
  }

  lemma BarsAre(m: Market, l: RiskLimits, bars: seq<Bar>, k: nat)
    requires k < |bars|
    ensures
      var b := Bars(m, l, bars)[k];
      && b.row == Rows(bars, m.cfg)[k] && b.endTime == TimeOfDay(End(m, bars[k])) && b.day == Day(bars[k].ts)
      && b.callGate && b.putGate
  {
    var f := FrameOf(bars, m.cfg);
    assert SimRowAt(bars, f, m.cfg, Paper(l), m.barLength, k).row == RowAt(bars, f, m.cfg, k);
  }

  ghost function SimAfter(m: Market, l: RiskLimits, bars: seq<Bar>, k: nat): SimState
    requires k <= |bars|
  {
    SimStateAfter(Paper(l), Bars(m, l, bars)[..k])
  }

  /** The simulator's event on bar k. */
  ghost function SimOn(m: Market, l: RiskLimits, bars: seq<Bar>, k: nat): Option<Event>
    requires k < |bars|
  {
    SimEvent(Paper(l), Bars(m, l, bars)[k], SimAfter(m, l, bars, k))
  }

  ghost function SimBatch(m: Market, l: RiskLimits, bars: seq<Bar>, k: nat): seq<Event>
    requires k <= |bars|
  {
    SimEvents(Paper(l), Bars(m, l, bars)[..k])
  }

  lemma SimStep(m: Market, l: RiskLimits, bars: seq<Bar>, k: nat)
    requires k < |bars|
    ensures SimAfter(m, l, bars, k + 1) == SimNext(Paper(l), Bars(m, l, bars)[k], SimAfter(m, l, bars, k))
    ensures SimBatch(m, l, bars, k + 1) == SimBatch(m, l, bars, k) + OneOrNone(SimOn(m, l, bars, k))
  {
    hide SimEvent, SimNext, Bars;
    var bs := Bars(m, l, bars);
    assert bs[..k + 1][..k] == bs[..k];
  }

  /** Flat, up to the cutoff: the canonical step. */
  lemma SimFlat(l: RiskLimits, b: SimRow, st: SimState)
    requires st.pos.Flat? && b.callGate && b.putGate && b.endTime <= l.entryCutoff
    ensures SimEvent(Paper(l), b, st) == EventAt(b.row, Flat)
    ensures
      var own := EventAt(b.row, Flat);
      SimNext(Paper(l), b, st) == if own.Some? then SimState(PositionFrom(own.value), b.day) else st
  {
  }

  /** Flat, after it: nothing. */
  lemma SimLate(l: RiskLimits, b: SimRow, st: SimState)
    requires st.pos.Flat? && b.endTime > l.entryCutoff
    ensures SimEvent(Paper(l), b, st).None? && SimNext(Paper(l), b, st) == st
  {
  }

  /** Held on the day of the entry, before the square-off time: the canonical exit. */
  lemma SimHeld(l: RiskLimits, b: SimRow, st: SimState)
    requires st.pos.Held? && b.day == st.entryDay && b.endTime < l.squareOffTime
    ensures
      var own, e := EventAt(b.row, st.pos), SimEvent(Paper(l), b, st);
      && (own.Some? <==> e.Some?)
      && (own.Some? ==> FillOf(e.value) == FillOf(own.value))
      && SimNext(Paper(l), b, st).pos == (if own.Some? then Flat else st.pos)
      && SimNext(Paper(l), b, st).entryDay == st.entryDay
  {
  }

  /** Held at the square-off time: closed at the close, unless the bar touches a level; then at the level. */
  lemma SimDue(l: RiskLimits, b: SimRow, st: SimState)
    requires st.pos.Held? && b.day == st.entryDay && b.endTime >= l.squareOffTime
    ensures
      var own, e := EventAt(b.row, st.pos), SimEvent(Paper(l), b, st);
      && e.Some? && SimNext(Paper(l), b, st) == SimState(Flat, st.entryDay)
      && (FillOf(e.value) == Fill(b.row.ts, SquareOff, b.row.close, None, None) <==> own.None?)
  {
  }

  // ---------------------------------------------------------------- in step

  /** After k bars: the account and the simulator hold the same position, entered on the last bar's day and
      before the square-off time, with nothing pending; or both are flat, with nothing pending up to the
      cutoff. */
  ghost predicate Together(m: Market, l: RiskLimits, bars: seq<Bar>, k: nat, q: int, st: SimState, a: AccountState)
    requires k <= |bars| && Ascending(bars)
  {
    && Settled(a) && st.pos == PositionOf(a)
    && (k == 0 ==> a.quantity == 0 && a.lastEventAt.None? && a.squareOffDate.None?)
    && (k > 0 ==>
          var b := bars[k - 1];
          && MarkedBy(a, b.ts)
          && (a.squareOffDate.Some? ==> a.squareOffDate.value <= Day(b.ts))
          && (a.quantity > 0 ==>
                && a.quantity == q && st.entryDay == Day(b.ts) == Day(a.lastEventAt.value)
                && TimeOfDay(End(m, b)) < l.squareOffTime && a.squareOffDate != Some(Day(b.ts)))
          && (a.quantity > 0 || TimeOfDay(End(m, b)) <= l.entryCutoff ==> NothingPending(m, bars, k, a)))
  }

  ghost predicate NothingPending(m: Market, bars: seq<Bar>, k: nat, a: AccountState)
    requires k <= |bars|
  {
    Unprocessed(Rows(bars, m.cfg)[..k], a) == []
  }

  /** What the driver fills, forced closes included. */
  function PaperFill(o: Outcome): seq<Fill> {
    if o.Acted? && o.order.Placed? then [FillIn(o)]
    else if o.ForcedClose? && o.order.Placed? then [Fill(o.event.ts, SquareOff, o.order.price, None, None)]
    else []
  }

  /** A square-off bar that touches a level of the position it closes. */
  ghost predicate LevelOnSquareOff(m: Market, l: RiskLimits, bars: seq<Bar>, k: nat)
    requires k < |bars|
  {
    var st := SimAfter(m, l, bars, k);
    st.pos.Held? && TimeOfDay(End(m, bars[k])) >= l.squareOffTime && EventAt(Rows(bars, m.cfg)[k], st.pos).Some?
  }

  /** One bar: both fill or neither, the same fill unless the bar is a square-off bar touching a level, and
      they stay together. */
  ghost predicate BothDo(
      m: Market, l: RiskLimits, bars: seq<Bar>, k: nat, q: int, next: AccountState, o: Outcome)
    requires k < |bars| && Ascending(bars)
  {
    var e := SimOn(m, l, bars, k);
    && Together(m, l, bars, k + 1, q, SimAfter(m, l, bars, k + 1), next)
    && |PaperFill(o)| == |OneOrNone(e)|
    && (PaperFill(o) == FillsOf(OneOrNone(e)) <==> !LevelOnSquareOff(m, l, bars, k))
  }

  /** Only an entry after the cutoff may be blocked. */
  ghost predicate GatesOpen(m: Market, l: RiskLimits, b: Bar, a: AccountState, o: Outcome) {
    Blocked(o) ==> a.quantity == 0 && TimeOfDay(End(m, b)) > l.entryCutoff
  }

  lemma MarkEmpties(rows: seq<Row>, a: AccountState)
    requires AscendingRows(rows) && |rows| > 0 && Settled(a) && a.lastEventAt == Some(rows[|rows| - 1].ts)
    ensures Unprocessed(rows, a) == []
  {
    hide PositionOf;
    PendingIs(rows, a);
    assert Seed(rows, a.lastEventAt) == |rows|;
    assert rows[|rows|..] == [];
  }

  lemma OneFill(x: Option<Event>)
    ensures FillsOf(OneOrNone(x)) == if x.Some? then [FillOf(x.value)] else []
  {
  }

  lemma SameDayBefore(m: Market, l: RiskLimits, bars: seq<Bar>, k: nat)
    requires Sessions(m, l, bars) && 0 < k < |bars|
    ensures Day(bars[k - 1].ts) != Day(bars[k].ts) ==> TimeOfDay(End(m, bars[k - 1])) >= l.squareOffTime
    ensures Day(bars[k - 1].ts) <= Day(bars[k].ts) && bars[k - 1].ts < bars[k].ts
    ensures Day(bars[k - 1].ts) == Day(bars[k].ts) ==> TimeOfDay(End(m, bars[k - 1])) < TimeOfDay(End(m, bars[k]))
  {
  }

  lemma HeldBar(
      m: Market, l: RiskLimits, p: Poll, bars: seq<Bar>, k: nat, q: int, a: AccountState, risk: RiskState)
    requires Sessions(m, l, bars) && AtClose(m, p, bars, k, q) && a.quantity > 0
    requires Together(m, l, bars, k, q, SimAfter(m, l, bars, k), a) && TimeOfDay(p.now) < l.squareOffTime
    requires GatesOpen(m, l, bars[k], a, Cycle(m, l, p, a, risk).2)
    ensures BothDo(m, l, bars, k, q, Cycle(m, l, p, a, risk).0, Cycle(m, l, p, a, risk).2)
  {
    hide Rows, EventAt, Unprocessed, Cycle, SimEvent, SimNext, Bars, SimAfter, SimBatch, FillOf, FillIn;
    var st, b := SimAfter(m, l, bars, k), Bars(m, l, bars)[k];
    SameDayBefore(m, l, bars, k);
    RowsAtClose(m, p, bars, k, q, true);
    var rows := Rows(bars, m.cfg)[..k + 1];
    HeldTick(m, l, p, bars, k, q, a, risk);
    BarsAre(m, l, bars, k);
    SimHeld(l, b, st);
    SimStep(m, l, bars, k);
    var (next, _, o) := Cycle(m, l, p, a, risk);
    OneFill(SimOn(m, l, bars, k));
    if o.Acted? {
      MarkEmpties(rows, next);
    } else {
      PendingStep(rows, k, a);
    }
  }

  lemma DueBar(
      m: Market, l: RiskLimits, p: Poll, bars: seq<Bar>, k: nat, q: int, a: AccountState, risk: RiskState)
    requires Sessions(m, l, bars) && AtClose(m, p, bars, k, q) && a.quantity > 0
    requires Together(m, l, bars, k, q, SimAfter(m, l, bars, k), a) && TimeOfDay(p.now) >= l.squareOffTime
    ensures BothDo(m, l, bars, k, q, Cycle(m, l, p, a, risk).0, Cycle(m, l, p, a, risk).2)
  {
    hide Rows, EventAt, Unprocessed, Cycle, SimEvent, SimNext, Bars, SimAfter, SimBatch, FillOf, FillIn;
    var st, b := SimAfter(m, l, bars, k), Bars(m, l, bars)[k];
    SameDayBefore(m, l, bars, k);
    RowsAtClose(m, p, bars, k, q, true);
    DueTick(m, l, p, bars, k, q, a, risk);
    BarsAre(m, l, bars, k);
    SimDue(l, b, st);
    SimStep(m, l, bars, k);
    OneFill(SimOn(m, l, bars, k));
    MarkEmpties(Rows(bars, m.cfg)[..k + 1], Cycle(m, l, p, a, risk).0);
  }

  /** What being together says of a flat account before the next bar. */
  lemma FlatCarries(m: Market, l: RiskLimits, bars: seq<Bar>, k: nat, q: int, st: SimState, a: AccountState)
    requires Sessions(m, l, bars) && k < |bars| && Together(m, l, bars, k, q, st, a) && a.quantity == 0
    requires TimeOfDay(End(m, bars[k])) <= l.entryCutoff
    ensures Settled(a) && st.pos.Flat?
    ensures a.lastEventAt.Some? ==> a.lastEventAt.value < bars[k].ts
    ensures a.squareOffDate.Some? ==> a.squareOffDate.value <= Day(bars[k].ts)
    ensures k == 0 || Day(bars[k - 1].ts) != Day(bars[k].ts) || Unprocessed(Rows(bars, m.cfg)[..k], a) == []
  {
    hide Rows, Unprocessed, InStep;
    if k > 0 {
      SameDayBefore(m, l, bars, k);
    }
  }

  /** What a flat account does on its own entry, or without one, leaves it together with the simulator. */
  lemma FlatStays(
      m: Market, l: RiskLimits, bars: seq<Bar>, k: nat, q: int, own: Option<Event>, st: SimState, a: AccountState,
      next: AccountState, o: Outcome)
    requires Sessions(m, l, bars) && k < |bars| && st.pos.Flat? && own == EventAt(Rows(bars, m.cfg)[k], Flat)
    requires a.squareOffDate.Some? ==> a.squareOffDate.value <= Day(bars[k].ts)
    requires AscendingRows(Rows(bars, m.cfg)[..k + 1]) && Rows(bars, m.cfg)[k].ts == bars[k].ts
    requires FlatDoes(Rows(bars, m.cfg)[..k + 1], own, q, a, next, o, bars[k].ts, Day(bars[k].ts))
    requires TimeOfDay(End(m, bars[k])) <= l.entryCutoff && !Blocked(o)
    ensures
      var after := if own.Some? then SimState(PositionFrom(own.value), Day(bars[k].ts)) else st;
      Together(m, l, bars, k + 1, q, after, next)
    ensures PaperFill(o) == FillsOf(OneOrNone(own))
  {
    hide Rows, EventAt, Unprocessed, FillOf, FillIn, InStep, AscendingRows;
    OneFill(own);
    if o.Acted? {
      MarkEmpties(Rows(bars, m.cfg)[..k + 1], next);
    }
  }

  lemma FlatBar(
      m: Market, l: RiskLimits, p: Poll, bars: seq<Bar>, k: nat, q: int, a: AccountState, risk: RiskState)
    requires Sessions(m, l, bars) && AtClose(m, p, bars, k, q) && a.quantity == 0
    requires Together(m, l, bars, k, q, SimAfter(m, l, bars, k), a) && TimeOfDay(p.now) <= l.entryCutoff
    requires GatesOpen(m, l, bars[k], a, Cycle(m, l, p, a, risk).2)
    ensures BothDo(m, l, bars, k, q, Cycle(m, l, p, a, risk).0, Cycle(m, l, p, a, risk).2)
  {
    hide Rows, EventAt, Cycle, SimEvent, SimNext, Bars, SimAfter, SimBatch, Together, FlatDoes, PaperFill, FillsOf,
         Settled, Sees, AscendingRows, Unprocessed;
    var st, b := SimAfter(m, l, bars, k), Bars(m, l, bars)[k];
    FlatCarries(m, l, bars, k, q, st, a);
    RowsAtClose(m, p, bars, k, q, false);
    FlatTick(m, l, p, bars, k, q, a, risk);
    BarsAre(m, l, bars, k);
    SimFlat(l, b, st);
    SimStep(m, l, bars, k);
    var (next, _, o) := Cycle(m, l, p, a, risk);
    FlatStays(m, l, bars, k, q, EventAt(b.row, Flat), st, a, next, o);
    OneFill(EventAt(b.row, Flat));
  }

  lemma LateBar(
      m: Market, l: RiskLimits, p: Poll, bars: seq<Bar>, k: nat, q: int, a: AccountState, risk: RiskState)
    requires Sessions(m, l, bars) && AtClose(m, p, bars, k, q) && a.quantity == 0
    requires Together(m, l, bars, k, q, SimAfter(m, l, bars, k), a) && TimeOfDay(p.now) > l.entryCutoff
    ensures BothDo(m, l, bars, k, q, Cycle(m, l, p, a, risk).0, Cycle(m, l, p, a, risk).2)
  {
    hide Rows, EventAt, Unprocessed, Cycle, SimEvent, SimNext, Bars, SimAfter, SimBatch, FillOf, FillIn;
    var st, b := SimAfter(m, l, bars, k), Bars(m, l, bars)[k];
    if k > 0 {
      SameDayBefore(m, l, bars, k);
    }
    LateTick(m, l, p, bars, k, q, a, risk);
    BarsAre(m, l, bars, k);
    SimLate(l, b, st);
    SimStep(m, l, bars, k);
    OneFill(SimOn(m, l, bars, k));
  }

  /** Every bar, whatever its hour. */
  lemma EachBar(
      m: Market, l: RiskLimits, p: Poll, bars: seq<Bar>, k: nat, q: int, a: AccountState, risk: RiskState)
    requires Sessions(m, l, bars) && AtClose(m, p, bars, k, q)
    requires Together(m, l, bars, k, q, SimAfter(m, l, bars, k), a)
    requires GatesOpen(m, l, bars[k], a, Cycle(m, l, p, a, risk).2)
    ensures BothDo(m, l, bars, k, q, Cycle(m, l, p, a, risk).0, Cycle(m, l, p, a, risk).2)
  {
    hide Cycle, SimAfter, GatesOpen, BothDo, Together, Sees;
    TogetherQuantity(m, l, bars, k, q, a);
    if a.quantity > 0 {
      if TimeOfDay(p.now) >= l.squareOffTime {
        DueBar(m, l, p, bars, k, q, a, risk);
      } else {
        HeldBar(m, l, p, bars, k, q, a, risk);
      }
    } else if TimeOfDay(p.now) <= l.entryCutoff {
      FlatBar(m, l, p, bars, k, q, a, risk);
    } else {
      LateBar(m, l, p, bars, k, q, a, risk);
    }
  }

  lemma TogetherQuantity(m: Market, l: RiskLimits, bars: seq<Bar>, k: nat, q: int, a: AccountState)
    requires k <= |bars| && Sessions(m, l, bars) && Together(m, l, bars, k, q, SimAfter(m, l, bars, k), a)
    ensures a.quantity >= 0
  {
    hide NothingPending, SimAfter;
  }

  // ---------------------------------------------------------------- whole runs

  /** One poll at each bar close over whole sessions, without restarts, under one set of limits; only an entry
      after the cutoff may be blocked. */
  ghost predicate SessionRun(m: Market, l: RiskLimits, ticks: seq<Tick>, bars: seq<Bar>, q: int, a: AccountState) {
    && Polled(ticks) && |ticks| <= |bars|
    && (forall k :: 0 <= k < |ticks| ==>
          && AtClose(m, ticks[k].poll, bars, k, q) && ticks[k].limits == l && !ticks[k].restart
          && GatesOpen(m, l, bars[k], AccountAfter(m, ticks[..k], a), OutcomeAt(m, ticks, a, k)))
  }

  ghost function PaperFills(m: Market, ticks: seq<Tick>, a: AccountState): seq<Fill>
    requires Polled(ticks)
  {
    if |ticks| == 0 then []
    else
      var init := ticks[..|ticks| - 1];
      PaperFills(m, init, a) + PaperFill(CycleOf(m, ticks[|ticks| - 1], AccountAfter(m, init, a)).2)
  }

  lemma SessionInit(m: Market, l: RiskLimits, ticks: seq<Tick>, bars: seq<Bar>, q: int, a: AccountState)
    requires |ticks| > 0 && SessionRun(m, l, ticks, bars, q, a)
    ensures SessionRun(m, l, ticks[..|ticks| - 1], bars, q, a)
  {
    hide CycleOf, AtClose, AscendingRaw, GatesOpen;
    var n := |ticks| - 1;
    var init := ticks[..n];
    forall k | 0 <= k < n
      ensures
        && AtClose(m, init[k].poll, bars, k, q) && init[k].limits == l && !init[k].restart
        && GatesOpen(m, l, bars[k], AccountAfter(m, init[..k], a), OutcomeAt(m, init, a, k))
    {
      assert init[..k] == ticks[..k];
      assert AtClose(m, ticks[k].poll, bars, k, q);
    }
  }

  lemma SessionLast(m: Market, l: RiskLimits, ticks: seq<Tick>, bars: seq<Bar>, q: int, a: AccountState)
    requires Polled(ticks) && 0 < |ticks| <= |bars| && SessionRun(m, l, ticks, bars, q, a)
    ensures
      var k := |ticks| - 1;
      && Polled(ticks[..k]) && AtClose(m, ticks[k].poll, bars, k, q)
      && (var before := AccountAfter(m, ticks[..k], a);
          && CycleOf(m, ticks[k], before) == Cycle(m, l, ticks[k].poll, before, ticks[k].risk)
          && GatesOpen(m, l, bars[k], before, Cycle(m, l, ticks[k].poll, before, ticks[k].risk).2))
  {
    hide Cycle, AtClose, AscendingRaw, GatesOpen;
    var k := |ticks| - 1;
    assert AtClose(m, ticks[k].poll, bars, k, q);
    assert GatesOpen(m, l, bars[k], AccountAfter(m, ticks[..k], a), OutcomeAt(m, ticks, a, k));
  }

  lemma StartTogether(m: Market, l: RiskLimits, bars: seq<Bar>, q: int)
    requires Ascending(bars)
    ensures Together(m, l, bars, 0, q, SimAfter(m, l, bars, 0), FRESH_ACCOUNT) && SimBatch(m, l, bars, 0) == []
  {
    hide Bars;
  }

  lemma FillsOfConcat(a: seq<Event>, b: seq<Event>)
    ensures FillsOf(a + b) == FillsOf(a) + FillsOf(b)
  {
    hide FillOf;
  }

  lemma SameParts(a: seq<Fill>, b: seq<Fill>, x: seq<Fill>, y: seq<Fill>)
    requires |a| == |b|
    ensures a + x == b + y <==> a == b && x == y
  {
    if a + x == b + y {
      assert a == (a + x)[..|a|] == (b + y)[..|b|] == b;
      assert x == (a + x)[|a|..] == (b + y)[|b|..] == y;
    }
  }

  lemma DoneCases(m: Market, l: RiskLimits, bars: seq<Bar>, k: nat, q: int, next: AccountState, o: Outcome)
    requires k < |bars| && Ascending(bars) && BothDo(m, l, bars, k, q, next, o)
    ensures Together(m, l, bars, k + 1, q, SimAfter(m, l, bars, k + 1), next)
    ensures |PaperFill(o)| == |FillsOf(OneOrNone(SimOn(m, l, bars, k)))|
    ensures PaperFill(o) == FillsOf(OneOrNone(SimOn(m, l, bars, k))) <==> !LevelOnSquareOff(m, l, bars, k)
  {
    hide Together, LevelOnSquareOff, SimOn, PaperFill, FillOf;
  }

  /** The fills of one more bar. */
  lemma FillsStep(
      m: Market, l: RiskLimits, bars: seq<Bar>, k: nat, q: int, next: AccountState, o: Outcome, fills: seq<Fill>)
    requires k < |bars| && Ascending(bars) && BothDo(m, l, bars, k, q, next, o)
    requires |fills| == |FillsOf(SimBatch(m, l, bars, k))|
    ensures Together(m, l, bars, k + 1, q, SimAfter(m, l, bars, k + 1), next)
    ensures
      var now, sim := fills + PaperFill(o), FillsOf(SimBatch(m, l, bars, k + 1));
      && |now| == |sim|
      && (now == sim <==> fills == FillsOf(SimBatch(m, l, bars, k)) && !LevelOnSquareOff(m, l, bars, k))
  {
    hide Together, LevelOnSquareOff, SimOn, SimBatch, SimAfter, BothDo, PaperFill, FillsOf;
    DoneCases(m, l, bars, k, q, next, o);
    SimStep(m, l, bars, k);
    var before, own := FillsOf(SimBatch(m, l, bars, k)), FillsOf(OneOrNone(SimOn(m, l, bars, k)));
    FillsOfConcat(SimBatch(m, l, bars, k), OneOrNone(SimOn(m, l, bars, k)));
    SameParts(fills, before, PaperFill(o), own);
  }

  /** The tick of a session run at its last bar. */
  lemma LastBar(m: Market, l: RiskLimits, ticks: seq<Tick>, bars: seq<Bar>, q: int, a: AccountState)
    requires Polled(ticks) && 0 < |ticks| <= |bars| && Ascending(bars)
    requires Sessions(m, l, bars) && SessionRun(m, l, ticks, bars, q, a)
    requires
      var k := |ticks| - 1;
      Together(m, l, bars, k, q, SimAfter(m, l, bars, k), AccountAfter(m, ticks[..k], a))
    ensures
      var k := |ticks| - 1;
      && BothDo(m, l, bars, k, q, AccountAfter(m, ticks, a), OutcomeAt(m, ticks, a, k))
      && PaperFills(m, ticks, a) == PaperFills(m, ticks[..k], a) + PaperFill(OutcomeAt(m, ticks, a, k))
  {
    hide CycleOf, Cycle, Together, SimAfter, BothDo, PaperFill, AtClose, GatesOpen, AscendingRaw;
    var k := |ticks| - 1;
    SessionLast(m, l, ticks, bars, q, a);
    EachBar(m, l, ticks[k].poll, bars, k, q, AccountAfter(m, ticks[..k], a), ticks[k].risk);
  }

  /** Whole sessions, forced closes included: polled at each bar close, the driver always holds what the
      paper-session simulator holds and fills as often; and its fills are exactly the simulator's if and only
      if no square-off bar touches a level of the position it closes. */
  lemma {:induction false} DriverIsSimulator(
      m: Market, l: RiskLimits, ticks: seq<Tick>, bars: seq<Bar>, q: int)
    requires Sessions(m, l, bars) && SessionRun(m, l, ticks, bars, q, FRESH_ACCOUNT)
    ensures
      var n := |ticks|;
      var fills, sim := PaperFills(m, ticks, FRESH_ACCOUNT), FillsOf(SimBatch(m, l, bars, n));
      && Together(m, l, bars, n, q, SimAfter(m, l, bars, n), AccountAfter(m, ticks, FRESH_ACCOUNT))
      && |fills| == |sim|
      && (fills == sim <==> forall k :: 0 <= k < n ==> !LevelOnSquareOff(m, l, bars, k))
  {
    hide CycleOf, Together, LevelOnSquareOff, SimBatch, SimAfter, BothDo, PaperFill, FillsOf, AtClose, GatesOpen,
         AscendingRaw, PaperFills, AccountAfter, OutcomeAt;
    var n := |ticks|;
    if n == 0 {
      NoBarYet(m, l, ticks, bars, q);
    } else {
      var k := n - 1;
      SessionInit(m, l, ticks, bars, q, FRESH_ACCOUNT);
      DriverIsSimulator(m, l, ticks[..k], bars, q);
      LastBar(m, l, ticks, bars, q, FRESH_ACCOUNT);
      FillsStep(m, l, bars, k, q, AccountAfter(m, ticks, FRESH_ACCOUNT), OutcomeAt(m, ticks, FRESH_ACCOUNT, k),
                PaperFills(m, ticks[..k], FRESH_ACCOUNT));
    }
  }

  lemma NoBarYet(m: Market, l: RiskLimits, ticks: seq<Tick>, bars: seq<Bar>, q: int)
    requires ticks == [] && Ascending(bars)
    ensures Together(m, l, bars, 0, q, SimAfter(m, l, bars, 0), AccountAfter(m, ticks, FRESH_ACCOUNT))
    ensures PaperFills(m, ticks, FRESH_ACCOUNT) == [] == FillsOf(SimBatch(m, l, bars, 0))
  {
    hide Together;
    StartTogether(m, l, bars, q);
    OneFill(None);
  }
}
