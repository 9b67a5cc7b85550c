/** Two timeframes on one account: the input on which an index fills one event twice. Its daily bars are
    stamped inside the session, so that a daily entry outlives the night, and the last window before the
    square-off lags two days behind. */
module ExampleNights {
  import opened Common
  import opened Indicators
  import opened Strategy
  import opened StrategyTheorems
  import opened Account
  import opened Risk
  import opened AutoTrader
  import opened CycleTheorems
  import opened RunTheorems
  import opened Incremental
  import opened PaperSession
  import opened Example
  import Dashboard
  import ExampleRun

  const DAILY := Market("nifty-50", SETTINGS, SECONDS_PER_DAY)

  function Evening(bars: seq<Bar>, now: int): Tick { Tick(PollOf(bars, now), DEFAULT_LIMITS, ExampleRun.AWAKE, false) }

  // ---------------------------------------------------------------- an entry on the second of two bars

  /** A time at which the second bar is over, fresh, and may be entered. */
  ghost predicate MayEnter(m: Market, s: int, t: int, now: int) {
    && m.cfg == SETTINGS && s < t && t + m.barLength <= now
    && now - (t + m.barLength) <= m.barLength * FRESHNESS_BARS
    && SETTINGS.sessionStart <= TimeOfDay(t) <= SETTINGS.sessionEnd
    && WithinHours(DEFAULT_LIMITS, now) && TimeOfDay(now) <= DEFAULT_LIMITS.entryCutoff
  }

  /** A flat account that has seen at most the first bar. */
  ghost predicate NotYet(a: AccountState, s: int, now: int) {
    && Settled(a) && a.quantity == 0 && (a.lastEventAt.None? || a.lastEventAt == Some(s))
    && a.squareOffDate != Some(Day(now))
  }

  lemma SetupEvent(s: int, t: int)
    requires s < t && SETTINGS.sessionStart <= TimeOfDay(t) <= SETTINGS.sessionEnd
    ensures
      var rows := Rows([Plain(s), Setup(t)], SETTINGS);
      && AscendingRows(rows) && rows[0].ts == s && rows[1].ts == t && EventAt(rows[0], Flat).None?
      && (var e := EventAt(rows[1], Flat);
          e.Some? && e.value.ts == t && e.value.kind == EntryCall && e.value.price == 110.0
          && e.value.stop.Some? && e.value.target.Some?)
  {
    hide FrameOf;
    RowsAscending([Plain(s), Setup(t)], SETTINGS);
    SetupRow(s, t);
  }

  lemma NothingBefore(rows: seq<Row>, a: AccountState, now: int)
    requires AscendingRows(rows) && |rows| == 2 && EventAt(rows[0], Flat).None? && NotYet(a, rows[0].ts, now)
    ensures Unprocessed(rows[..1], a) == []
  {
    hide EventAt, SeedPosition, InStep;
    PrefixAscending(rows, 1);
    if a.lastEventAt.None? {
      assert rows[..1] == [rows[0]] && [rows[0]][..0] == [];
      assert Events([], Flat) == [] && State([], Flat) == Flat;
    } else {
      MarkEmpties(rows[..1], a);
    }
  }

  lemma Fetched(bars: seq<Bar>, now: int)
    requires Ascending(bars) && forall b :: b in bars ==> Usable(Raw(b))
    ensures AscendingRaw(PollOf(bars, now).data) && DropInvalid(PollOf(bars, now).data) == bars
  {
    RawAscends(bars);
    NothingDropped(bars);
  }

  /** The account after an entry on the bar of time t. */
  ghost predicate Entered(a: AccountState, next: AccountState, o: Outcome, t: int) {
    && o.Acted? && o.order.Placed? && o.event.ts == t && IsEntry(o.event)
    && Settled(next) && next.quantity == 1 && next.lastEventAt == Some(t) && next.squareOffDate == a.squareOffDate
  }

  lemma SetupTick(m: Market, s: int, t: int, now: int, a: AccountState)
    requires MayEnter(m, s, t, now) && NotYet(a, s, now)
    ensures AscendingRaw(Evening([Plain(s), Setup(t)], now).poll.data)
    ensures
      var (next, _, o) := CycleOf(m, Evening([Plain(s), Setup(t)], now), a);
      Entered(a, next, o, t)
  {
    hide Rows, EventAt, Cycle, First, Unprocessed, FillOf, FillIn, WellFormed, AscendingRows;
    var bars := [Plain(s), Setup(t)];
    var p, rows := PollOf(bars, now), Rows(bars, SETTINGS);
    Fetched(bars, now);
    SetupEvent(s, t);
    NothingBefore(rows, a, now);
    PendingStep(rows, 1, a);
    assert rows[..2] == rows;
    var own := EventAt(rows[1], Flat);
    FirstIsOwn(rows, a, own);
    assert Window(m, bars, now, false) == bars;
    CycleHandles(m, DEFAULT_LIMITS, p, 1, a, own, ExampleRun.AWAKE);
    CycleFillsIff(m, DEFAULT_LIMITS, p, a, own.value, ExampleRun.AWAKE);
    CycleDates(m, DEFAULT_LIMITS, p, a, ExampleRun.AWAKE);
  }

  // ---------------------------------------------------------------- five cycles

  /** Day two, ten o'clock: yesterday's daily bar is over and starts a position. */
  const ENTERS := Evening([Plain(36000), Setup(122400)], 208800)

  /** Five past: a position of an earlier day is closed on the first five-minute bar of today. */
  const RECOVERS := Evening([Plain(208800)], 209100)

  /** Ten past: a five-minute entry. */
  const ENTERS_AGAIN := Evening([Plain(208800), Setup(209100)], 209400)

  /** Twenty past three: the square-off, on a window that ends two days earlier. */
  const SQUARES_OFF := Evening([Plain(36000)], 228000)

  /** Day three, half past nine: the daily window of yesterday once more. */
  const REFILLS := Evening([Plain(36000), Setup(122400)], 293400)

  lemma ClosingPolls()
    ensures AscendingRaw(RECOVERS.poll.data) && DropInvalid(RECOVERS.poll.data) == [Plain(208800)]
    ensures AscendingRaw(SQUARES_OFF.poll.data) && DropInvalid(SQUARES_OFF.poll.data) == [Plain(36000)]
  {
    Fetched([Plain(208800)], 209100);
    Fetched([Plain(36000)], 228000);
  }

  lemma Recovers(a: AccountState)
    requires Settled(a) && a.quantity == 1 && a.lastEventAt == Some(122400) && a.squareOffDate.None?
    ensures AscendingRaw(RECOVERS.poll.data)
    ensures
      var (next, _, o) := CycleOf(MARKET, RECOVERS, a);
      o.ForcedClose? && NotYet(next, 208800, 209400) && next.squareOffDate.None?
  {
    ClosingPolls();
    hide FollowSignals, ForceClose, DropInvalid;
    ForceCloseLaws(MARKET, DEFAULT_LIMITS, [Plain(208800)], 209100, a, ExampleRun.AWAKE, Some(1), false);
  }

  lemma SquaresOff(a: AccountState)
    requires Settled(a) && a.quantity == 1 && a.lastEventAt == Some(209100) && a.squareOffDate.None?
    ensures AscendingRaw(SQUARES_OFF.poll.data)
    ensures
      var (next, _, o) := CycleOf(DAILY, SQUARES_OFF, a);
      o.ForcedClose? && NotYet(next, 36000, 293400)
  {
    ClosingPolls();
    hide FollowSignals, ForceClose, DropInvalid;
    ForceCloseLaws(DAILY, DEFAULT_LIMITS, [Plain(36000)], 228000, a, ExampleRun.AWAKE, None, true);
  }

  /** The bar of day one is entered on day two and again on day three. The windows hold no bar of a later day
      and every cycle comes after the one before it: what fails is only that the daily entry be stale by the
      next morning. */
  lemma DailyEntryTwice()
    ensures
      && AscendingRaw(ENTERS.poll.data) && AscendingRaw(RECOVERS.poll.data) && AscendingRaw(ENTERS_AGAIN.poll.data)
      && AscendingRaw(SQUARES_OFF.poll.data) && AscendingRaw(REFILLS.poll.data)
    ensures
      var (a1, _, first) := CycleOf(DAILY, ENTERS, FRESH_ACCOUNT);
      var a2 := CycleOf(MARKET, RECOVERS, a1).0;
      var a3 := CycleOf(MARKET, ENTERS_AGAIN, a2).0;
      var a4 := CycleOf(DAILY, SQUARES_OFF, a3).0;
      var (_, _, last) := CycleOf(DAILY, REFILLS, a4);
      && first.Acted? && first.order.Placed? && IsEntry(first.event) && first.event.ts == 122400
      && last.Acted? && last.order.Placed? && IsEntry(last.event) && last.event.ts == 122400
    ensures forall t :: t in [ENTERS, RECOVERS, ENTERS_AGAIN, SQUARES_OFF, REFILLS] ==> Dashboard.NoFuture(t.poll)
    ensures !Dashboard.StaleByMorning(DEFAULT_LIMITS, DAILY, 122400)
  {
    hide CycleOf;
    SetupTick(DAILY, 36000, 122400, 208800, FRESH_ACCOUNT);
    var a1 := CycleOf(DAILY, ENTERS, FRESH_ACCOUNT).0;
    Recovers(a1);
    var a2 := CycleOf(MARKET, RECOVERS, a1).0;
    SetupTick(MARKET, 208800, 209100, 209400, a2);
    var a3 := CycleOf(MARKET, ENTERS_AGAIN, a2).0;
    SquaresOff(a3);
    var a4 := CycleOf(DAILY, SQUARES_OFF, a3).0;
    SetupTick(DAILY, 36000, 122400, 293400, a4);
    NoneFuture();
  }

  lemma NoneFuture()
    ensures forall t :: t in [ENTERS, RECOVERS, ENTERS_AGAIN, SQUARES_OFF, REFILLS] ==> Dashboard.NoFuture(t.poll)
  {
    hide Dashboard.NoFuture;
    NoneLater([Plain(36000), Setup(122400)], 208800);
    NoneLater([Plain(208800)], 209100);
    NoneLater([Plain(208800), Setup(209100)], 209400);
    NoneLater([Plain(36000)], 228000);
    NoneLater([Plain(36000), Setup(122400)], 293400);
  }

  lemma NoneLater(bars: seq<Bar>, now: int)
    requires bars != [] && Ascending(bars) && Day(bars[|bars| - 1].ts) <= Day(now)
    requires forall b :: b in bars ==> Usable(Raw(b))
    ensures Dashboard.NoFuture(PollOf(bars, now))
  {
    hide DropInvalid, Usable;
    Fetched(bars, now);
  }
}
