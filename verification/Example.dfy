/** One concrete window, worked out: the inputs on which two properties fail that need a condition
    to hold. Its second bar starts a bullish setup; its third, in its final form, reaches both the
    stop and the target, and while forming only the target. */
module Example {
  import opened Common
  import opened Indicators
  import opened Strategy
  import opened StrategyTheorems
  import opened Account
  import opened Risk
  import opened AutoTrader
  import opened CycleTheorems

  const SETTINGS: Config := Settings(1, 3, 2, 55.0, 45.0, 1, 1.0, false, 1, 1.0, 2.0, 0.0, 50, 33300, 56400)

  const MARKET := Market("nifty-50", SETTINGS, 300)

  /** The two bars at any two times; FIRST and SETUP are theirs at ten o'clock. */
  function Plain(s: int): Bar { Bar(s, 100.0, 100.0, 100.0, 100.0, None) }

  function Setup(t: int): Bar { Bar(t, 110.0, 110.0, 110.0, 110.0, None) }

  const FIRST := Plain(36000)
  const SETUP := Setup(36300)
  const FINAL := Bar(36600, 110.0, 131.0, 99.0, 110.0, None)
  const FORMING := Bar(36600, 110.0, 131.0, 105.0, 120.0, None)

  function Raw(b: Bar): RawBar { RawBar(b.ts, Some(b.open), Some(b.high), Some(b.low), Some(b.close), b.volume) }

  function RawOf(bars: seq<Bar>): (r: seq<RawBar>) { seq(|bars|, i requires 0 <= i < |bars| => Raw(bars[i])) }

  lemma KeepLast(raw: seq<RawBar>, b: Bar)
    requires Usable(Raw(b))
    ensures DropInvalid(raw + [Raw(b)]) == DropInvalid(raw) + [b]
  {
    assert (raw + [Raw(b)])[..|raw|] == raw;
    assert Clean(Raw(b)) == b;
  }

  /** Nothing is dropped from bars that are fit to use. */
  lemma {:induction false} NothingDropped(bars: seq<Bar>)
    requires forall b :: b in bars ==> Usable(Raw(b))
    ensures DropInvalid(RawOf(bars)) == bars
  {
    hide Usable, DropInvalid, RawOf, Raw;
    if |bars| == 0 {
      EmptyDropped();
    } else {
      var init, last := bars[..|bars| - 1], bars[|bars| - 1];
      assert bars == init + [last];
      NothingDropped(init);
      KeepLast(RawOf(init), last);
      RawSnoc(init, last);
    }
  }

  lemma RawSnoc(init: seq<Bar>, last: Bar)
    ensures RawOf(init + [last]) == RawOf(init) + [Raw(last)]
  {
    hide Raw;
  }

  lemma RawAscends(bars: seq<Bar>)
    requires Ascending(bars)
    ensures AscendingRaw(RawOf(bars))
  {
  }

  lemma EmptyDropped()
    ensures RawOf([]) == [] && DropInvalid([]) == []
  {
  }

  // ---------------------------------------------------------------- the indicators of the first two bars

  lemma Averages()
    ensures EmaAt([100.0, 110.0], 1, 0) == 100.0 && EmaAt([100.0, 110.0], 3, 0) == 100.0
    ensures EmaAt([100.0, 110.0], 1, 1) == 110.0 && EmaAt([100.0, 110.0], 3, 1) == 105.0
  {
  }

  lemma Ranges(s: int, t: int)
    ensures TrueRanges([Plain(s), Setup(t)]) == [Some(0.0), Some(10.0)]
    ensures RmaAt([Some(0.0), Some(10.0)], 1, 0) == Some(0.0) && RmaAt([Some(0.0), Some(10.0)], 1, 1) == Some(10.0)
  {
    var xs: seq<Option<real>> := [Some(0.0), Some(10.0)];
    assert xs[..1] == [Some(0.0)];
    assert [Some(0.0)][..0] == [];
    assert SumPresent([Some(0.0)]) == 0.0 && CountPresent([Some(0.0)]) == 1;
  }

  lemma Strengths(s: int, t: int)
    ensures RsiSeries([Plain(s), Setup(t)], 2) == [None, Some(100.0)]
  {
    var gains: seq<Option<real>> := [None, Some(10.0)];
    var losses: seq<Option<real>> := [None, Some(0.0)];
    assert Gains([Plain(s), Setup(t)]) == gains && Losses([Plain(s), Setup(t)]) == losses;
    SecondOnly(10.0);
    SecondOnly(0.0);
    assert RmaSeries(gains, 2) == [None, Some(10.0)];
    assert RmaSeries(losses, 2) == [None, Some(0.0)];
  }

  lemma SecondOnly(x: real)
    ensures RmaAt([None, Some(x)], 2, 0) == None && RmaAt([None, Some(x)], 2, 1) == Some(x)
  {
    var xs: seq<Option<real>> := [None, Some(x)];
    var first: seq<Option<real>> := [None];
    assert xs[..2] == xs && xs[..1] == first && first[..0] == [];
    assert SumPresent(first) == 0.0 && CountPresent(first) == 0;
    assert SumPresent(xs) == x && CountPresent(xs) == 1;
  }

  lemma Bands(s: int, t: int)
    ensures
      var x := BandInputOf([Plain(s), Setup(t)], 1, 1.0);
      SupertrendAt(x, 0).down && !SupertrendAt(x, 1).down
  {
    Ranges(s, t);
    var x := BandInputOf([Plain(s), Setup(t)], 1, 1.0);
    assert x.atr == [Some(0.0), Some(10.0)] && x.close == [100.0, 110.0];
    assert x.basicUpper == [Some(100.0), Some(120.0)] && x.basicLower == [Some(100.0), Some(100.0)];
    assert SupertrendAt(x, 0) == Band(Some(100.0), Some(100.0), Some(100.0), true);
  }

  /** The second bar starts a bullish setup, with a stop 10 and a target 20 points off. */
  lemma SetupRow(s: int, t: int)
    ensures
      var rows := Rows([Plain(s), Setup(t)], SETTINGS);
      && rows[1].bullEdge && rows[1].risk == Some(Distances(10.0, 20.0))
      && (rows[1].inSession <==> SETTINGS.sessionStart <= TimeOfDay(t) <= SETTINGS.sessionEnd)
      && !rows[0].bullEdge && !rows[0].bearEdge
  {
    hide EmaAt, RmaAt, SupertrendAt, VwapSeries, RsiSeries, BandInputOf;
    var bars := [Plain(s), Setup(t)];
    assert Closes(bars) == [100.0, 110.0];
    Averages();
    Ranges(s, t);
    Strengths(s, t);
    Bands(s, t);
    var f := FrameOf(bars, SETTINGS);
    assert f.rsi == [None, Some(100.0)];
    assert f.atr[1] == Some(10.0);
  }

  /** A long entry at 110 on the second bar, and nothing before. */
  lemma OneEntry()
    ensures
      var es := Events(Rows([FIRST, SETUP], SETTINGS), Flat);
      |es| == 1 && es[0] == Event(36300, EntryCall, 110.0, es[0].strike, Some(100.0), Some(130.0), None)
  {
    hide Rows;
    SetupRow(36000, 36300);
    var rows := Rows([FIRST, SETUP], SETTINGS);
    assert rows[..1][..0] == [];
    assert rows[..2] == rows && rows[..1] == [rows[0]];
    assert Events([], Flat) == [] && State([], Flat) == Flat;
    assert EventAt(rows[0], Flat).None?;
    assert State(rows[..1], Flat) == Flat && Events(rows[..1], Flat) == [];
  }

  // ---------------------------------------------------------------- without the cutoff

  /** The default limits, but with the square-off time at 10:00, before the entry cutoff. */
  const LATE_CUTOFF := DEFAULT_LIMITS.(squareOffTime := 36000)

  function PollOf(bars: seq<Bar>, now: int): Poll {
    Poll(RawOf(bars), now, 1, Match(Contract("NIFTY", 100, 0)), None, None)
  }

  lemma SetupAscends()
    ensures AscendingRaw(RawOf([FIRST, SETUP])) && DropInvalid(RawOf([FIRST, SETUP])) == [FIRST, SETUP]
  {
    NothingDropped([FIRST, SETUP]);
  }

  /** The poll at the close of the second bar finds its entry, fresh. */
  lemma FindsEntry()
    ensures AscendingRows(WindowRows(MARKET, [FIRST, SETUP], 36600, false))
    ensures
      var rows := WindowRows(MARKET, [FIRST, SETUP], 36600, false);
      Events(rows, Flat) != [] &&
      Scan(rows, 300, 36600, FRESH_ACCOUNT) == Found(FRESH_ACCOUNT, 0, Events(rows, Flat)[0], false)
  {
    hide Rows, Events;
    var bars := [FIRST, SETUP];
    assert Window(MARKET, bars, 36600, false) == bars;
    RowsAscending(bars, SETTINGS);
    OneEntry();
    ScanStep(Rows(bars, SETTINGS), 300, 36600, FRESH_ACCOUNT);
  }

  /** Where the square-off time is not after the entry cutoff the promise fails: a fresh account
      polled in the square-off window, on data from today, ends the cycle with a position. */
  lemma CutoffIsNeeded()
    ensures AscendingRaw(RawOf([FIRST, SETUP]))
    ensures
      var p := PollOf([FIRST, SETUP], 36600);
      && WithinHours(LATE_CUTOFF, p.now) && TimeOfDay(p.now) >= LATE_CUTOFF.squareOffTime
      && Day(SETUP.ts) == Day(p.now)
      && Cycle(MARKET, LATE_CUTOFF, p, FRESH_ACCOUNT, FRESH_RISK.(autoTrading := true)).0.quantity == 1
  {
    hide Rows, Events, Scan, Commit;
    SetupAscends();
    FindsEntry();
    OneEntry();
    var p := PollOf([FIRST, SETUP], 36600);
    var risk := FRESH_RISK.(autoTrading := true);
    assert Window(MARKET, [FIRST, SETUP], 36600, false) == [FIRST, SETUP];
    var plan := Prepare(MARKET, LATE_CUTOFF, p, FRESH_ACCOUNT, risk);
    var e := Events(Rows([FIRST, SETUP], SETTINGS), Flat)[0];
    assert plan == Ready(FRESH_ACCOUNT, e, false, Some(Contract("NIFTY", 100, 0)), 110.0);
    EntryAllowedIff(LATE_CUTOFF, NewDay(risk, p.now), Ask(e, p, 0));
    CommitLaws(MARKET, LATE_CUTOFF, p, plan, risk, 0);
  }
}
