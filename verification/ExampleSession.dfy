/** The worked window as a session: its third bar ends at the square-off time and touches the stop of
    the position it closes. */
module ExampleSession {
  import opened Common
  import opened Indicators
  import opened Strategy
  import opened StrategyTheorems
  import opened Account
  import opened Risk
  import opened AutoTrader
  import opened CycleTheorems
  import opened RunTheorems
  import opened Incremental
  import opened Simulator
  import opened PaperSession
  import opened Example
  import ExampleRun

  /** Entries end at 10:10 and positions are closed from 10:15 on. */
  const SHORT_DAY := DEFAULT_LIMITS.(entryCutoff := 36600, squareOffTime := 36900)

  lemma IsSession()
    ensures Sessions(MARKET, SHORT_DAY, ExampleRun.SERIES)
  {
  }

  lemma FirstRows()
    ensures
      var rows := Rows(ExampleRun.SERIES, SETTINGS);
      && EventAt(rows[0], Flat).None?
      && EventAt(rows[1], Flat).Some?
      && PositionFrom(EventAt(rows[1], Flat).value) == Held(Call, Some(100.0), Some(130.0))
  {
    hide Rows;
    var bars := ExampleRun.SERIES;
    assert bars[..2] == [FIRST, SETUP];
    RowsPrefix(bars, SETTINGS, 2);
    assert Rows(bars, SETTINGS)[..2] == Rows([FIRST, SETUP], SETTINGS);
    SetupRow(36000, 36300);
    SetupBars(Rows([FIRST, SETUP], SETTINGS));
  }

  lemma SetupBars(rows: seq<Row>)
    requires rows == Rows([FIRST, SETUP], SETTINGS)
    ensures rows[1].close == 110.0
  {
  }

  /** After two bars the simulator holds the long position. */
  lemma SimulatorHolds()
    ensures SimAfter(MARKET, SHORT_DAY, ExampleRun.SERIES, 2).pos == Held(Call, Some(100.0), Some(130.0))
  {
    hide Rows, Bars, EventAt, SimNext, SimEvent, PositionFrom;
    var bars := ExampleRun.SERIES;
    var bs := Bars(MARKET, SHORT_DAY, bars);
    FirstRows();
    BarsAre(MARKET, SHORT_DAY, bars, 0);
    BarsAre(MARKET, SHORT_DAY, bars, 1);
    SimStep(MARKET, SHORT_DAY, bars, 0);
    SimStep(MARKET, SHORT_DAY, bars, 1);
    var start := SimAfter(MARKET, SHORT_DAY, bars, 0);
    assert bs[..0] == [];
    SimFlat(SHORT_DAY, bs[0], start);
    SimFlat(SHORT_DAY, bs[1], start);
  }

  lemma TouchesBoth()
    ensures EventAt(Rows(ExampleRun.SERIES, SETTINGS)[2], Held(Call, Some(100.0), Some(130.0))).Some?
  {
    hide FrameOf;
    assert Rows(ExampleRun.SERIES, SETTINGS)[2].low == 99.0;
  }

  // ---------------------------------------------------------------- the driver's polls

  const QUIET := Tick(PollOf([FIRST], 36300), SHORT_DAY, ExampleRun.AWAKE, false)
  const ENTERING := Tick(PollOf([FIRST, SETUP], 36600), SHORT_DAY, ExampleRun.AWAKE, false)
  const SQUARING := Tick(PollOf([FIRST, SETUP, FINAL], 36900), SHORT_DAY, ExampleRun.AWAKE, false)

  const SESSION := [QUIET, ENTERING, SQUARING]

  lemma PollsAtClose()
    ensures AtClose(MARKET, QUIET.poll, ExampleRun.SERIES, 0, 1)
    ensures AtClose(MARKET, ENTERING.poll, ExampleRun.SERIES, 1, 1)
    ensures AtClose(MARKET, SQUARING.poll, ExampleRun.SERIES, 2, 1)
  {
    ClosePoll([FIRST], QUIET.poll, 0);
    ClosePoll([FIRST, SETUP], ENTERING.poll, 1);
    ClosePoll(ExampleRun.SERIES, SQUARING.poll, 2);
  }

  lemma ClosePoll(bars: seq<Bar>, p: Poll, k: nat)
    requires k < 3 && bars == ExampleRun.SERIES[..k + 1]
    requires p == PollOf(bars, End(MARKET, ExampleRun.SERIES[k]))
    ensures AtClose(MARKET, p, ExampleRun.SERIES, k, 1)
  {
    hide DropInvalid, RawOf;
    RawAscends(bars);
    NothingDropped(bars);
    assert Visible(ExampleRun.SERIES, Shown(k + 1, None)) == bars;
  }

  /** What the polls of the first two bars still have to process from a fresh account: the bar's own event. */
  lemma OwnEvent(k: nat, p: Poll)
    requires k < 2 && AtClose(MARKET, p, ExampleRun.SERIES, k, 1)
    ensures AscendingRaw(p.data) && DropInvalid(p.data) == ExampleRun.SERIES[..k + 1]
    ensures
      var rows := WindowRows(MARKET, DropInvalid(p.data), p.now, false);
      && AscendingRows(rows)
      && First(rows, FRESH_ACCOUNT) == EventAt(Rows(ExampleRun.SERIES, SETTINGS)[k], Flat)
  {
    hide Rows, EventAt, Events, AscendingRows, Unprocessed;
    RowsAtClose(MARKET, p, ExampleRun.SERIES, k, 1, false);
    var all := Rows(ExampleRun.SERIES, SETTINGS);
    NothingEarlier(k);
    PendingStep(all[..k + 1], k, FRESH_ACCOUNT);
    FirstIsOwn(all[..k + 1], FRESH_ACCOUNT, EventAt(all[k], Flat));
  }

  lemma NothingEarlier(k: nat)
    requires k < 2
    ensures Unprocessed(Rows(ExampleRun.SERIES, SETTINGS)[..k], FRESH_ACCOUNT) == []
  {
    hide Rows, EventAt;
    var all := Rows(ExampleRun.SERIES, SETTINGS);
    FirstRows();
    assert all[..0] == [] && Events([], Flat) == [] && State([], Flat) == Flat;
    if k == 1 {
      assert all[..1] == [all[0]] && [all[0]][..0] == [];
    }
  }

  /** The first poll finds nothing. */
  lemma FirstTick()
    ensures AscendingRaw(QUIET.poll.data)
    ensures CycleOf(MARKET, QUIET, FRESH_ACCOUNT).0 == FRESH_ACCOUNT
    ensures CycleOf(MARKET, QUIET, FRESH_ACCOUNT).2 == NoSignal
  {
    hide Rows, EventAt, Cycle, First, Scan;
    PollsAtClose();
    OwnEvent(0, QUIET.poll);
    FirstRows();
    PrepareCases(MARKET, SHORT_DAY, QUIET.poll, FRESH_ACCOUNT, QUIET.risk);
    ScanStep(WindowRows(MARKET, DropInvalid(QUIET.poll.data), 36300, false), 300, 36300, FRESH_ACCOUNT);
  }

  /** The second opens the position. */
  lemma SecondTick()
    ensures AscendingRaw(ENTERING.poll.data)
    ensures CycleOf(MARKET, ENTERING, FRESH_ACCOUNT).2.Acted?
    ensures
      var a := CycleOf(MARKET, ENTERING, FRESH_ACCOUNT).0;
      Settled(a) && a.quantity == 1 && a.lastEventAt == Some(36300) && a.squareOffDate.None?
  {
    hide Rows, EventAt, Cycle, First, Scan, FillOf, FillIn;
    PollsAtClose();
    OwnEvent(1, ENTERING.poll);
    FirstRows();
    var own := EventAt(Rows(ExampleRun.SERIES, SETTINGS)[1], Flat);
    SetupEvent();
    CycleHandles(MARKET, SHORT_DAY, ENTERING.poll, 1, FRESH_ACCOUNT, own, ENTERING.risk);
    CycleFillsIff(MARKET, SHORT_DAY, ENTERING.poll, FRESH_ACCOUNT, own.value, ENTERING.risk);
    CycleDates(MARKET, SHORT_DAY, ENTERING.poll, FRESH_ACCOUNT, ENTERING.risk);
  }

  lemma SetupEvent()
    ensures
      var e := EventAt(Rows(ExampleRun.SERIES, SETTINGS)[1], Flat);
      e.Some? && e.value.kind == EntryCall && e.value.ts == 36300 && e.value.price == 110.0
      && e.value.stop.Some? && e.value.target.Some?
  {
    hide FrameOf;
    FirstRows();
    assert Rows(ExampleRun.SERIES, SETTINGS)[1].ts == 36300 && Rows(ExampleRun.SERIES, SETTINGS)[1].close == 110.0;
  }

  /** The third squares off. */
  lemma ThirdTick()
    ensures AscendingRaw(ENTERING.poll.data) && AscendingRaw(SQUARING.poll.data)
    ensures CycleOf(MARKET, SQUARING, CycleOf(MARKET, ENTERING, FRESH_ACCOUNT).0).2.ForcedClose?
  {
    hide Cycle, Settled, Sessions, Sees;
    PollsAtClose();
    SecondTick();
    IsSession();
    RowsAtClose(MARKET, SQUARING.poll, ExampleRun.SERIES, 2, 1, true);
    DueTick(MARKET, SHORT_DAY, SQUARING.poll, ExampleRun.SERIES, 2, 1,
            CycleOf(MARKET, ENTERING, FRESH_ACCOUNT).0, SQUARING.risk);
  }

  lemma SessionAccounts()
    ensures Polled(SESSION) && Polled(SESSION[..0]) && Polled(SESSION[..1]) && Polled(SESSION[..2])
    ensures AccountAfter(MARKET, SESSION[..0], FRESH_ACCOUNT) == FRESH_ACCOUNT
    ensures AccountAfter(MARKET, SESSION[..1], FRESH_ACCOUNT) == FRESH_ACCOUNT
    ensures AccountAfter(MARKET, SESSION[..2], FRESH_ACCOUNT) == CycleOf(MARKET, ENTERING, FRESH_ACCOUNT).0
  {
    hide CycleOf, AscendingRaw;
    FirstTick();
    SecondTick();
    ThirdTick();
    assert SESSION[..0] == [] && SESSION[..1] == [QUIET] && SESSION[..2] == [QUIET, ENTERING];
    assert [QUIET][..0] == [] && [QUIET, ENTERING][..1] == [QUIET];
    assert AccountAfter(MARKET, [], FRESH_ACCOUNT) == FRESH_ACCOUNT;
  }

  lemma IsRun()
    ensures SessionRun(MARKET, SHORT_DAY, SESSION, ExampleRun.SERIES, 1, FRESH_ACCOUNT)
  {
    hide CycleOf, AscendingRaw, AtClose;
    SessionAccounts();
    PollsAtClose();
    FirstTick();
    SecondTick();
    ThirdTick();
    forall k | 0 <= k < 3
      ensures
        && AtClose(MARKET, SESSION[k].poll, ExampleRun.SERIES, k, 1)
        && SESSION[k].limits == SHORT_DAY && !SESSION[k].restart
        && !Blocked(OutcomeAt(MARKET, SESSION, FRESH_ACCOUNT, k))
    {
    }
  }

  /** So on this session, polled at each bar close, the driver and the simulator part: the driver squares
      off at the close where the simulator exits at the stop. */
  lemma LevelsPartThem()
    ensures Sessions(MARKET, SHORT_DAY, ExampleRun.SERIES)
    ensures SessionRun(MARKET, SHORT_DAY, SESSION, ExampleRun.SERIES, 1, FRESH_ACCOUNT)
    ensures PaperFills(MARKET, SESSION, FRESH_ACCOUNT) != FillsOf(SimBatch(MARKET, SHORT_DAY, ExampleRun.SERIES, 3))
  {
    hide SessionRun, PaperFills, SimBatch, SimAfter, Sessions, Together, EventAt, Rows;
    IsSession();
    IsRun();
    SimulatorHolds();
    TouchesBoth();
    DriverIsSimulator(MARKET, SHORT_DAY, SESSION, ExampleRun.SERIES, 1);
    assert LevelOnSquareOff(MARKET, SHORT_DAY, ExampleRun.SERIES, 2);
  }
}
