/** Whole runs of the polling driver. Between two cycles anything may happen to the risk
    manager (other indices trade, switches flip, a new day starts) and the process may restart,
    which loses what is not persisted. The driver still acts as if the strategy had been run
    once over the whole series. */
module RunTheorems {
  import opened Common
  import opened Indicators
  import opened Strategy
  import opened StrategyTheorems
  import opened Account
  import opened Risk
  import opened AutoTrader
  import opened CycleTheorems

  // ---------------------------------------------------------------- restart

  /** A field of a persisted row: not there, there but not what it should be, or a value. */
  datatype Field<+T> = Absent | Malformed | Present(value: T)

  /** A persisted account row as it comes back. */
  datatype Snapshot = Snapshot(
    cash: Field<real>, quantity: Field<int>, averagePrice: Field<Option<real>>, side: Field<Option<string>>,
    lastEventAt: Field<Option<int>>, squareOffDate: Field<Option<int>>, contract: Field<Option<Contract>>)

  function SideText(s: Side): string { if s.Call? then "CALL" else "PUT" }

  function SnapshotOf(a: AccountState): Snapshot {
    Snapshot(Present(a.cash), Present(a.quantity), Present(a.averagePrice),
             Present(if a.side.Some? then Some(SideText(a.side.value)) else None),
             Present(a.lastEventAt), Present(a.squareOffDate), Present(a.contract))
  }

  /** The square-off date and the contract may be missing; nothing else may, and nothing at all may
      be malformed. The side is free text in the row. */
  predicate Restorable(s: Snapshot) {
    && s.cash.Present? && s.quantity.Present? && s.averagePrice.Present? && s.side.Present? && s.lastEventAt.Present?
    && !s.squareOffDate.Malformed? && !s.contract.Malformed?
    && (s.side.value.Some? ==> s.side.value.value == "CALL" || s.side.value.value == "PUT")
  }

  function SideOf(text: Option<string>): Option<Side> {
    if text.None? then None else if text.value == "CALL" then Some(Call) else Some(Put)
  }

  function OrNone<T>(f: Field<Option<T>>): Option<T> { if f.Present? then f.value else None }

  function RestoreAccount(empty: AccountState, s: Snapshot): AccountState {
    if !Restorable(s) then empty
    else
      empty.(cash := s.cash.value, quantity := s.quantity.value, averagePrice := s.averagePrice.value,
             side := SideOf(s.side.value), lastEventAt := s.lastEventAt.value,
             squareOffDate := OrNone(s.squareOffDate), contract := OrNone(s.contract))
  }

  /** Every field is read before any is written, so a bad row leaves the account as it was. */
  method RestoreAccountState(account: SimulatedAccount, s: Snapshot)
    modifies account
    ensures account.View() == RestoreAccount(old(account.View()), s)
    ensures !Restorable(s) ==> account.View() == old(account.View())
  {
    if !s.cash.Present? || !s.quantity.Present? || !s.averagePrice.Present? || !s.side.Present? ||
       !s.lastEventAt.Present? {
      return;
    }
    var side: Option<Side> := None;
    if s.side.value.Some? {
      if s.side.value.value != "CALL" && s.side.value.value != "PUT" {
        return;
      }
      side := if s.side.value.value == "CALL" then Some(Call) else Some(Put);
    }
    if s.squareOffDate.Malformed? || s.contract.Malformed? {
      return;
    }
    account.cash, account.quantity, account.averagePrice := s.cash.value, s.quantity.value, s.averagePrice.value;
    account.side, account.lastEventAt := side, s.lastEventAt.value;
    account.squareOffDate, account.contract := OrNone(s.squareOffDate), OrNone(s.contract);
  }

  /** What survives a restart: everything but the levels and the index label. */
  function Restarted(a: AccountState): AccountState { a.(stop := None, target := None, indexId := None) }

  lemma RestartLosesOnlyLevels(a: AccountState)
    ensures RestoreAccount(FRESH_ACCOUNT, SnapshotOf(a)) == Restarted(a)
  {
  }

  /** A row with the same fields, but for the two newer ones, which an older row does not have. */
  ghost predicate SameRow(s: Snapshot, saved: Snapshot) {
    && s.cash == saved.cash && s.quantity == saved.quantity && s.averagePrice == saved.averagePrice
    && s.side == saved.side && s.lastEventAt == saved.lastEventAt
    && (s.squareOffDate == saved.squareOffDate || s.squareOffDate.Absent?)
    && (s.contract == saved.contract || s.contract.Absent?)
  }

  /** The account a row was saved from. */
  function SavedAccount(s: Snapshot): AccountState
    requires Restorable(s)
  {
    AccountState(s.cash.value, s.quantity.value, s.averagePrice.value, None,
                 if s.side.value == None then None else if s.side.value == Some("PUT") then Some(Put) else Some(Call),
                 s.lastEventAt.value, OrNone(s.squareOffDate), None, None, OrNone(s.contract))
  }

  /** A row is restored exactly if saving some account writes it, the newer fields aside, and then it restores that
      account without its levels and index label. */
  lemma RestoresWhatWasSaved(s: Snapshot)
    ensures Restorable(s) <==> exists a :: SameRow(s, SnapshotOf(a))
    ensures Restorable(s) ==>
      RestoreAccount(FRESH_ACCOUNT, s) == SavedAccount(s) && SameRow(s, SnapshotOf(SavedAccount(s)))
  {
    if Restorable(s) {
      assert SameRow(s, SnapshotOf(SavedAccount(s)));
    }
  }

  // ---------------------------------------------------------------- runs

  /** One cycle of a run: what it is polled with, and the limits and risk state it meets. */
  datatype Tick = Tick(poll: Poll, limits: RiskLimits, risk: RiskState, restart: bool)

  ghost function CycleOf(m: Market, t: Tick, a: AccountState): (AccountState, RiskState, Outcome)
    requires AscendingRaw(t.poll.data)
  {
    Cycle(m, t.limits, t.poll, if t.restart then Restarted(a) else a, t.risk)
  }

  ghost predicate Polled(ticks: seq<Tick>) {
    forall k :: 0 <= k < |ticks| ==> AscendingRaw(ticks[k].poll.data)
  }

  ghost function AccountAfter(m: Market, ticks: seq<Tick>, a: AccountState): AccountState
    requires Polled(ticks)
  {
    if |ticks| == 0 then a
    else CycleOf(m, ticks[|ticks| - 1], AccountAfter(m, ticks[..|ticks| - 1], a)).0
  }

  ghost function OutcomeAt(m: Market, ticks: seq<Tick>, a: AccountState, k: nat): Outcome
    requires Polled(ticks) && k < |ticks|
  {
    CycleOf(m, ticks[k], AccountAfter(m, ticks[..k], a)).2
  }

  lemma RestartedInStep(a: AccountState)
    requires InStep(a)
    ensures InStep(Restarted(a))
  {
  }

  /** Position sync over whole runs, restarts included: the account is in step after every
      cycle, no order ever fails and no exit ever finds nothing to close. */
  lemma {:induction false} RunsKeepStep(m: Market, ticks: seq<Tick>, a: AccountState)
    requires Polled(ticks) && InStep(a)
    ensures InStep(AccountAfter(m, ticks, a))
    ensures forall k :: 0 <= k < |ticks| ==>
      var o := OutcomeAt(m, ticks, a, k);
      !o.ExitWithoutPosition? && (o.Acted? || o.ForcedClose? ==> o.order.Placed?)
  {
    hide Cycle;
    if |ticks| > 0 {
      var n := |ticks| - 1;
      var init, t := ticks[..n], ticks[n];
      RunsKeepStep(m, init, a);
      var before := AccountAfter(m, init, a);
      RestartedInStep(before);
      CycleKeepsStep(m, t.limits, t.poll, if t.restart then Restarted(before) else before, t.risk);
      forall k | 0 <= k < n
        ensures OutcomeAt(m, ticks, a, k) == OutcomeAt(m, init, a, k)
      {
        assert ticks[..k] == init[..k];
      }
    }
  }

  ghost predicate DaysInOrder(ticks: seq<Tick>) {
    forall i, j :: 0 <= i < j < |ticks| ==> Day(ticks[i].poll.now) <= Day(ticks[j].poll.now)
  }

  /** A square-off dated today means flat for the rest of the day, over whole runs. */
  lemma {:induction false} SquaredOffStaysFlat(m: Market, ticks: seq<Tick>, a: AccountState, day: int)
    requires Polled(ticks) && InStep(a) && SettledBy(a, day) && DaysInOrder(ticks)
    requires |ticks| > 0 && day <= Day(ticks[0].poll.now)
    ensures
      var last := AccountAfter(m, ticks, a);
      var today := Day(ticks[|ticks| - 1].poll.now);
      SettledBy(last, today)
  {
    hide Cycle, WellFormed;
    var n := |ticks| - 1;
    var init, t := ticks[..n], ticks[n];
    var before := AccountAfter(m, init, a);
    RunsKeepStep(m, init, a);
    var since := if n == 0 then day else Day(init[n - 1].poll.now);
    if n > 0 {
      SquaredOffStaysFlat(m, init, a, day);
    }
    RestartedInStep(before);
    CycleKeepsSettled(m, t.limits, t.poll, if t.restart then Restarted(before) else before, t.risk, since);
  }

  /** Between the square-off time and the close, on data with a bar from today. */
  ghost predicate AtSquareOff(t: Tick) {
    var bars := DropInvalid(t.poll.data);
    && WithinHours(t.limits, t.poll.now) && TimeOfDay(t.poll.now) >= t.limits.squareOffTime
    && bars != [] && Day(bars[|bars| - 1].ts) == Day(t.poll.now)
  }

  ghost predicate Opens(m: Market, t: Tick, before: AccountState)
    requires AscendingRaw(t.poll.data)
  {
    before.quantity == 0 &&
    OpensEntry(m, t.limits, t.poll, if t.restart then Restarted(before) else before, t.risk)
  }

  lemma FlattensFrom(m: Market, t: Tick, before: AccountState, since: int)
    requires AscendingRaw(t.poll.data) && InStep(before) && SettledBy(before, since) && since <= Day(t.poll.now)
    requires AtSquareOff(t)
    ensures CycleOf(m, t, before).0.quantity == 0 <==> !Opens(m, t, before)
    ensures t.limits.entryCutoff < t.limits.squareOffTime ==> CycleOf(m, t, before).0.quantity == 0
  {
    hide Cycle, WellFormed, DropInvalid, WithinHours, OpensEntry;
    RestartedInStep(before);
    SquareOffFlattens(m, t.limits, t.poll, if t.restart then Restarted(before) else before, t.risk);
  }

  /** Over whole runs: a cycle at or after the square-off time, on data with a bar from today, ends
      flat whatever happened before it, unless it finds the account flat and opens an entry; with the
      entry cutoff before the square-off time it always ends flat. */
  lemma SquareOffOverRuns(m: Market, ticks: seq<Tick>, a: AccountState, day: int)
    requires Polled(ticks) && InStep(a) && SettledBy(a, day) && DaysInOrder(ticks)
    requires |ticks| > 0 && day <= Day(ticks[0].poll.now)
    requires AtSquareOff(ticks[|ticks| - 1])
    ensures
      var last := ticks[|ticks| - 1];
      && (AccountAfter(m, ticks, a).quantity == 0 <==> !Opens(m, last, AccountAfter(m, ticks[..|ticks| - 1], a)))
      && (last.limits.entryCutoff < last.limits.squareOffTime ==> AccountAfter(m, ticks, a).quantity == 0)
  {
    hide CycleOf, AtSquareOff, InStep, Opens;
    var n := |ticks| - 1;
    var init := ticks[..n];
    RunsKeepStep(m, init, a);
    if n > 0 {
      SquaredOffStaysFlat(m, init, a, day);
    }
    FlattensFrom(m, ticks[n], AccountAfter(m, init, a), if n == 0 then day else Day(init[n - 1].poll.now));
  }

  // ---------------------------------------------------------------- what a poll shows

  /** The first n bars of a series, all final, and perhaps the one after them while it is forming. */
  datatype Shown = Shown(n: nat, forming: Option<Bar>)

  function Visible(bars: seq<Bar>, v: Shown): (r: seq<Bar>)
    requires v.n <= |bars|
    ensures |r| == v.n + if v.forming.Some? then 1 else 0
    ensures forall i :: 0 <= i < v.n ==> r[i] == bars[i]
    ensures v.forming.Some? ==> r[v.n] == v.forming.value
  {
    bars[..v.n] + (if v.forming.Some? then [v.forming.value] else [])
  }

  /** A poll of the series at the constant quantity; a forming bar has not ended at its time. */
  ghost predicate Shows(m: Market, p: Poll, bars: seq<Bar>, v: Shown, q: int) {
    && v.n <= |bars| && AscendingRaw(p.data) && DropInvalid(p.data) == Visible(bars, v) && p.quantity == q
    && (v.forming.Some? ==> v.forming.value.ts + m.barLength > p.now)
  }

  lemma VisiblePrefix(bars: seq<Bar>, v: Shown, n: nat)
    requires n <= v.n <= |bars|
    ensures Visible(bars, v)[..n] == bars[..n]
  {
  }
}
