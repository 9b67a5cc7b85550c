/** The worked window as a run of two polls: a long position is opened on the second bar; the next
    poll shows the third bar while it forms and takes the target; the batch, which sees the bar
    finished, has the stop. */
module ExampleRun {
  import opened Common
  import opened Indicators
  import opened Strategy
  import opened StrategyTheorems
  import opened Account
  import opened Risk
  import opened AutoTrader
  import opened CycleTheorems
  import opened RunTheorems
  import opened Incremental
  import opened Example

  const SERIES := [FIRST, SETUP, FINAL]

  const AWAKE := FRESH_RISK.(autoTrading := true)

  const OPENING := Tick(PollOf([FIRST, SETUP], 36600), DEFAULT_LIMITS, AWAKE, false)
  const CLOSING := Tick(PollOf([FIRST, SETUP, FORMING], 36700), DEFAULT_LIMITS, AWAKE, false)

  const SEEN_FIRST := Shown(2, None)
  const SEEN_NEXT := Shown(2, Some(FORMING))

  lemma SeriesAscends()
    ensures Ascending(SERIES)
  {
  }

  lemma FirstPoll()
    ensures Sees(MARKET, OPENING.poll, SERIES, SEEN_FIRST, 1)
  {
    hide DropInvalid, RawOf;
    RawAscends([FIRST, SETUP]);
    NothingDropped([FIRST, SETUP]);
    assert Visible(SERIES, SEEN_FIRST) == [FIRST, SETUP];
  }

  lemma NextPoll()
    ensures Sees(MARKET, CLOSING.poll, SERIES, SEEN_NEXT, 1)
  {
    hide DropInvalid, RawOf;
    RawAscends([FIRST, SETUP, FORMING]);
    NothingDropped([FIRST, SETUP, FORMING]);
    assert Visible(SERIES, SEEN_NEXT) == [FIRST, SETUP, FORMING];
  }

  /** After the second bar the batch holds the long position. */
  lemma BatchAfterTwo()
    ensures
      var es := Batch(MARKET, SERIES, 2);
      |es| == 1 && es[0] == Event(36300, EntryCall, 110.0, es[0].strike, Some(100.0), Some(130.0), None)
    ensures BatchPosition(MARKET, SERIES, 2) == Held(Call, Some(100.0), Some(130.0))
  {
    hide Rows;
    assert SERIES[..2] == [FIRST, SETUP];
    OneEntry();
    StateFromEvents(Rows([FIRST, SETUP], SETTINGS), Flat);
  }

  lemma FreshSync()
    ensures InSync([], 0, FRESH_ACCOUNT, 1)
  {
  }

  /** The first poll opens the position. */
  lemma Opens()
    ensures AscendingRaw(OPENING.poll.data)
    ensures CycleOf(MARKET, OPENING, FRESH_ACCOUNT).2.Acted?
    ensures Advances(MARKET, SERIES, SEEN_FIRST, 0, 1, FRESH_ACCOUNT,
                     CycleOf(MARKET, OPENING, FRESH_ACCOUNT).0, CycleOf(MARKET, OPENING, FRESH_ACCOUNT).2)
  {
    hide Rows, Events, Cycle, Advances, Caught, Batch;
    SeriesAscends();
    FirstPoll();
    BatchAfterTwo();
    FreshSync();
    StartsCaught(MARKET, SERIES, FRESH_ACCOUNT, 1);
    CaughtGrows(MARKET, SERIES, 0, 2, 0, FRESH_ACCOUNT, 1);
    CycleOwes(MARKET, OPENING.poll, SERIES, SEEN_FIRST, 0, 1, FRESH_ACCOUNT);
    CycleFillsIff(MARKET, DEFAULT_LIMITS, OPENING.poll, FRESH_ACCOUNT, Batch(MARKET, SERIES, 2)[0], AWAKE);
    CycleCatchesUp(MARKET, DEFAULT_LIMITS, OPENING.poll, SERIES, SEEN_FIRST, 0, 1, FRESH_ACCOUNT, AWAKE);
  }

  /** The account between the polls. */
  ghost function HeldAccount(): AccountState
    requires AscendingRaw(OPENING.poll.data)
  {
    CycleOf(MARKET, OPENING, FRESH_ACCOUNT).0
  }

  lemma HoldsOne()
    ensures AscendingRaw(OPENING.poll.data)
    ensures Caught(MARKET, SERIES, 2, 1, HeldAccount(), 1)
    ensures HeldAccount().quantity == 1 && HeldAccount().lastEventAt == Some(36300)
  {
    hide Rows, Events, Cycle, Batch;
    Opens();
    BatchAfterTwo();
    BatchGrows(MARKET, SERIES, 2, 3);
    assert SERIES[..3] == SERIES;
  }

  /** What the forming bar shows: the target is reached, the stop is not. */
  lemma FormingExit()
    ensures
      var es := SeenEvents(MARKET, SERIES, SEEN_NEXT);
      |es| == 2 && es[1] == Event(36600, ExitTarget, 120.0, None, None, None, Some(130.0))
  {
    hide Rows, Events, State;
    BatchAfterTwo();
    var row := OneMoreBar(MARKET, SERIES, 2, FORMING);
    assert Visible(SERIES, SEEN_NEXT) == SERIES[..2] + [FORMING];
  }

  /** The second poll takes it. */
  lemma Closes()
    ensures AscendingRaw(OPENING.poll.data) && AscendingRaw(CLOSING.poll.data)
    ensures CycleOf(MARKET, CLOSING, HeldAccount()).2.Acted?
  {
    hide Rows, Events, Cycle, Caught, Batch, HeldAccount, SeenEvents;
    HoldsOne();
    NextPoll();
    SeriesAscends();
    BatchAfterTwo();
    FormingExit();
    var e := SeenEvents(MARKET, SERIES, SEEN_NEXT)[1];
    InSyncStep(HeldAccount());
    CycleOwes(MARKET, CLOSING.poll, SERIES, SEEN_NEXT, 1, 1, HeldAccount());
    CycleFillsIff(MARKET, DEFAULT_LIMITS, CLOSING.poll, HeldAccount(), e, AWAKE);
  }

  lemma InSyncStep(a: AccountState)
    requires Caught(MARKET, SERIES, 2, 1, a, 1)
    ensures InStep(a)
  {
    hide All, Batch;
  }

  const RUN := [OPENING, CLOSING]
  const SEEN := [SEEN_FIRST, SEEN_NEXT]

  lemma RunIsPolled()
    ensures Polled(RUN) && Polled(RUN[..0]) && Polled(RUN[..1])
    ensures AccountAfter(MARKET, RUN[..0], FRESH_ACCOUNT) == FRESH_ACCOUNT
    ensures |Fills(MARKET, RUN[..0], FRESH_ACCOUNT)| == 0
    ensures AccountAfter(MARKET, RUN[..1], FRESH_ACCOUNT) == HeldAccount()
    ensures |Fills(MARKET, RUN[..1], FRESH_ACCOUNT)| == 1
  {
    hide CycleOf, AscendingRaw;
    Opens();
    Closes();
    assert RUN[..1] == [OPENING] && RUN[..0] == [] && [OPENING][..0] == [];
    assert AccountAfter(MARKET, [], FRESH_ACCOUNT) == FRESH_ACCOUNT;
    PlacedFill(CycleOf(MARKET, OPENING, FRESH_ACCOUNT).2);
  }

  lemma PlacedFill(o: Outcome)
    ensures o.Acted? && o.order.Placed? ==> |NewFill(o)| == 1
  {
  }

  lemma RunIsScheduled()
    ensures Schedule(MARKET, RUN, SEEN, SERIES, 1, FRESH_ACCOUNT)
  {
    hide CycleOf, AscendingRaw, Sees, Batch;
    RunIsPolled();
    FirstPoll();
    NextPoll();
    Opens();
    Closes();
    BatchAfterTwo();
    assert OutcomeAt(MARKET, RUN, FRESH_ACCOUNT, 0).Acted? && OutcomeAt(MARKET, RUN, FRESH_ACCOUNT, 1).Acted?;
    assert PendingFresh(MARKET, RUN, SEEN[0], SERIES, FRESH_ACCOUNT, 0);
    assert PendingFresh(MARKET, RUN, SEEN[1], SERIES, FRESH_ACCOUNT, 1);
  }

  /** So on this schedule, with every event fresh and no forced close, the driver's fills are not a
      prefix of the batch's events: the forming bar's target stands where the batch has the stop. */
  lemma EarlyTargetDiffers()
    ensures Ascending(SERIES) && Schedule(MARKET, RUN, SEEN, SERIES, 1, FRESH_ACCOUNT)
    ensures !IsPrefix(Fills(MARKET, RUN, FRESH_ACCOUNT), All(MARKET, SERIES))
  {
    hide CycleOf, Schedule, Batch, All, Fills, IsPrefix;
    SeriesAscends();
    RunIsScheduled();
    RunIsPolled();
    FreshSync();
    Closes();
    BatchAfterTwo();
    FillsArePrefixIff(MARKET, RUN, SEEN, SERIES, 1, FRESH_ACCOUNT);
    assert !AgreesAt(MARKET, RUN, SEEN[1], SERIES, FRESH_ACCOUNT, 1);
  }
}
