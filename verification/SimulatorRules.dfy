/** What the research simulator's filter, cutoff and fill assumptions mean for the events it emits. */
module SimulatorRules {
  import opened Common
  import opened Indicators
  import opened Strategy
  import opened StrategyTheorems
  import opened EntryRules
  import opened Simulator

  /** Event k is the one of some bar against the state before it. */
  lemma {:induction false} SimSource(v: Variant, bs: seq<SimRow>, k: nat) returns (i: nat)
    requires k < |SimEvents(v, bs)|
    ensures i < |bs| && SimEvent(v, bs[i], SimStateAfter(v, bs[..i])) == Some(SimEvents(v, bs)[k])
  {
    hide SimEvent, SimNext;
    var n := |bs| - 1;
    if k < |SimEvents(v, bs[..n])| {
      i := SimSource(v, bs[..n], k);
      assert bs[..n][..i] == bs[..i];
    } else {
      i := n;
    }
  }

  // ---------------------------------------------------------------- entries

  /** The filter's verdict on bar i for a side; without a filter everything passes. */
  predicate Verdict(v: Variant, i: nat, side: Side)
    requires v.adx.Some? ==> i < |v.adx.value.bull| && i < |v.adx.value.bear|
  {
    v.adx.Some? ==> if side.Call? then v.adx.value.bull[i] else v.adx.value.bear[i]
  }

  /** A setup starts: where the filter is part of the setup the bar before may have lacked the verdict only. */
  ghost predicate FilteredStart(bars: seq<Bar>, cfg: Config, v: Variant, i: nat, side: Side)
    requires i < |bars| && Covers(v, |bars|)
  {
    && SetupOn(bars, cfg, i, side) && Verdict(v, i, side)
    && (i > 0 ==> !SetupOn(bars, cfg, i - 1, side)
                  || (v.adx.Some? && v.adx.value.inSetup && !Verdict(v, i - 1, side)))
  }

  lemma FilteredAre(bars: seq<Bar>, cfg: Config, v: Variant, barLength: int, i: nat)
    requires i < |bars| && Covers(v, |bars|)
    ensures
      var b := SimRowAt(bars, FrameOf(bars, cfg), cfg, v, barLength, i);
      && (b.row.bullEdge && b.callGate <==> FilteredStart(bars, cfg, v, i, Call))
      && (b.row.bearEdge && b.putGate <==> FilteredStart(bars, cfg, v, i, Put))
  {
    hide FrameOf, SetupOn, BullSetup, BearSetup, RiskDistances, RoundToStrike;
    SetupIs(bars, cfg, i);
    if i > 0 {
      SetupIs(bars, cfg, i - 1);
    }
  }

  lemma EntryNeeds(v: Variant, b: SimRow, st: SimState)
    requires SimEvent(v, b, st).Some? && IsEntry(SimEvent(v, b, st).value)
    ensures
      var e := SimEvent(v, b, st).value;
      && st.pos.Flat? && e.ts == b.row.ts && e.price == b.row.close && b.row.inSession
      && (v.entryCutoff.Some? ==> b.endTime <= v.entryCutoff.value)
      && (if e.kind.EntryCall? then b.row.bullEdge && b.callGate else b.row.bearEdge && b.putGate)
      && (b.row.risk.Some? ==>
            && e.stop.Some? && e.target.Some?
            && e.price - e.stop.value == (if e.kind.EntryCall? then b.row.risk.value.stop else -b.row.risk.value.stop)
            && e.target.value - e.price
                 == (if e.kind.EntryCall? then b.row.risk.value.target else -b.row.risk.value.target))
      && (v.guardRisk ==> DistancesUsable(b.row))
  {
  }

  /** Every entry of every variant: in session, not past the cutoff at the end of its bar, on a bar the filter
      allows for its side, where a setup starts; with its levels where the rule puts them. */
  lemma SimEntryRule(
      bars: seq<Bar>, cfg: Config, v: Variant, barLength: int, k: nat) returns (i: nat)
    requires Covers(v, |bars|)
    requires k < |SimEvents(v, SimRows(bars, FrameOf(bars, cfg), cfg, v, barLength))|
    requires IsEntry(SimEvents(v, SimRows(bars, FrameOf(bars, cfg), cfg, v, barLength))[k])
    ensures i < |bars|
    ensures
      var e := SimEvents(v, SimRows(bars, FrameOf(bars, cfg), cfg, v, barLength))[k];
      var side := if e.kind.EntryCall? then Call else Put;
      && e.ts == bars[i].ts && e.price == bars[i].close
      && cfg.sessionStart <= TimeOfDay(e.ts) <= cfg.sessionEnd
      && (v.entryCutoff.Some? ==> TimeOfDay(e.ts + barLength) <= v.entryCutoff.value)
      && FilteredStart(bars, cfg, v, i, side)
      && (i >= cfg.atrLength - 1 ==>
            && e.stop.Some? && e.target.Some?
            && (if side.Call?
                then LevelsFollow(bars, cfg, i, e.price - e.stop.value, e.target.value - e.price)
                else LevelsFollow(bars, cfg, i, e.stop.value - e.price, e.price - e.target.value)))
      && (v.guardRisk ==> i >= cfg.atrLength - 1)
  {
    hide SimEvents, SimEvent, SimStateAfter, FilteredStart, LevelsFollow, FrameOf, BullSetup, BearSetup, Rows;
    var bs := SimRows(bars, FrameOf(bars, cfg), cfg, v, barLength);
    i := SimSource(v, bs, k);
    EntryNeeds(v, bs[i], SimStateAfter(v, bs[..i]));
    FilteredAre(bars, cfg, v, barLength, i);
    DistancesFrom(bars, cfg, i);
    SameRisk(bars, cfg, v, barLength, i);
  }

  /** Bar by bar: a variant enters if and only if it was flat, the bar is in session and not past the cutoff, a
      filtered setup starts on it, and a guarded one has usable distances. */
  lemma SimEntersIff(bars: seq<Bar>, cfg: Config, v: Variant, barLength: int, i: nat, st: SimState)
    requires i < |bars| && Covers(v, |bars|)
    ensures
      var b := SimRowAt(bars, FrameOf(bars, cfg), cfg, v, barLength, i);
      var e := SimEvent(v, b, st);
      e.Some? && IsEntry(e.value) <==>
        && st.pos.Flat? && cfg.sessionStart <= TimeOfDay(bars[i].ts) <= cfg.sessionEnd
        && (v.entryCutoff.Some? ==> TimeOfDay(bars[i].ts + barLength) <= v.entryCutoff.value)
        && (FilteredStart(bars, cfg, v, i, Call) || FilteredStart(bars, cfg, v, i, Put))
        && (v.guardRisk ==> DistancesUsable(b.row))
  {
    hide FilteredStart, FrameOf, BullSetup, BearSetup, RiskDistances, RoundToStrike, DistancesUsable;
    FilteredAre(bars, cfg, v, barLength, i);
    EntersCases(v, SimRowAt(bars, FrameOf(bars, cfg), cfg, v, barLength, i), st);
  }

  lemma EntersCases(v: Variant, b: SimRow, st: SimState)
    ensures
      var e := SimEvent(v, b, st);
      e.Some? && IsEntry(e.value) <==>
        && st.pos.Flat? && b.row.inSession && (v.entryCutoff.Some? ==> b.endTime <= v.entryCutoff.value)
        && ((b.row.bullEdge && b.callGate) || (b.row.bearEdge && b.putGate))
        && (v.guardRisk ==> DistancesUsable(b.row))
  {
  }

  lemma SameRisk(bars: seq<Bar>, cfg: Config, v: Variant, barLength: int, i: nat)
    requires i < |bars| && Covers(v, |bars|)
    ensures SimRowAt(bars, FrameOf(bars, cfg), cfg, v, barLength, i).row.risk == Rows(bars, cfg)[i].risk
  {
    hide BullSetup, BearSetup, RiskDistances, RoundToStrike;
    var f := FrameOf(bars, cfg);
    assert Rows(bars, cfg)[i] == RowAt(bars, f, cfg, i);
  }

  // ---------------------------------------------------------------- exits

  /** What an exit is filled at, by the assumption: the level; the close; or the level, but the open where the bar
      opens beyond it. */
  ghost predicate FilledBy(v: Variant, b: SimRow, side: Side, stopHit: bool, level: real, fill: real) {
    match v.exitFill
    case AtLevel => fill == level
    case BarClose => fill == b.row.close
    case GapAware =>
      if stopHit
      then fill == (if (if side.Call? then b.open < level else b.open > level) then b.open else level)
      else fill == (if (if side.Call? then b.open > level else b.open < level) then b.open else level)
  }

  /** Every closing event of every variant, on its bar and against the position held before: a touched stop
      first, then a touched target, both as the assumption fills them; otherwise on a new day the open, or from
      the square-off time on the close. */
  lemma SimExitRule(v: Variant, bs: seq<SimRow>, k: nat) returns (i: nat)
    requires k < |SimEvents(v, bs)| && !IsEntry(SimEvents(v, bs)[k])
    ensures i < |bs|
    ensures
      var e, b, st := SimEvents(v, bs)[k], bs[i], SimStateAfter(v, bs[..i]);
      && e.ts == b.row.ts && e.price == b.row.close && e.exitLevel.Some? && st.pos.Held?
      && (e.kind.ExitSl? <==> StopHit(b.row, st.pos))
      && (e.kind.ExitSl? ==> FilledBy(v, b, st.pos.side, true, st.pos.stop.value, e.exitLevel.value))
      && (e.kind.ExitTarget? <==> TargetHit(b.row, st.pos) && !StopHit(b.row, st.pos))
      && (e.kind.ExitTarget? ==> FilledBy(v, b, st.pos.side, false, st.pos.target.value, e.exitLevel.value))
      && (e.kind.SquareOff? ==>
            && v.squareOff.Some?
            && (if b.day != st.entryDay then e.exitLevel.value == b.open
                else b.endTime >= v.squareOff.value && e.exitLevel.value == b.row.close))
  {
    hide SimEvents, SimStateAfter;
    i := SimSource(v, bs, k);
  }
}
