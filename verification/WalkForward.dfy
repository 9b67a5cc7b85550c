/** Walk-forward selection: the indexed window lookup against the plain filter it replaces,
    and the absence of leakage from the test block into the choice made on the train block. */
module WalkForward {
  import opened Common
  import opened Backtest
  import Strategy

  /** A trade with its place in the original list. */
  datatype Entry = Entry(day: int, exitDay: int, pos: nat, trade: Trade)

  // ---------------------------------------------------------------- sorting by a key

  ghost predicate SortedBy(s: seq<Entry>, key: Entry -> int) {
    forall i, j :: 0 <= i < j < |s| ==> key(s[i]) <= key(s[j])
  }

  /** x placed after every element whose key is not larger. */
  function Insert(s: seq<Entry>, x: Entry, key: Entry -> int): (r: seq<Entry>)
    ensures multiset(r) == multiset(s) + multiset{x}
  {
    if |s| == 0 || key(s[|s| - 1]) <= key(x) then s + [x]
    else
      assert s == s[..|s| - 1] + [s[|s| - 1]];
      Insert(s[..|s| - 1], x, key) + [s[|s| - 1]]
  }

  /** The stable sort by key. */
  function Sort(s: seq<Entry>, key: Entry -> int): (r: seq<Entry>)
    ensures multiset(r) == multiset(s)
  {
    if |s| == 0 then []
    else
      assert s == s[..|s| - 1] + [s[|s| - 1]];
      Insert(Sort(s[..|s| - 1], key), s[|s| - 1], key)
  }

  lemma SortedSnoc(s: seq<Entry>, last: Entry, key: Entry -> int)
    requires SortedBy(s, key) && forall x :: x in s ==> key(x) <= key(last)
    ensures SortedBy(s + [last], key)
  {
  }

  lemma SortedInit(s: seq<Entry>, key: Entry -> int)
    requires s != [] && SortedBy(s, key)
    ensures SortedBy(s[..|s| - 1], key)
    ensures forall x :: x in s ==> key(x) <= key(s[|s| - 1])
  {
  }

  lemma Inserted(s: seq<Entry>, x: Entry, key: Entry -> int, y: Entry)
    requires y in Insert(s, x, key)
    ensures y in s || y == x
  {
  }

  lemma {:induction false} InsertSorted(s: seq<Entry>, x: Entry, key: Entry -> int)
    requires SortedBy(s, key)
    ensures SortedBy(Insert(s, x, key), key)
  {
    hide SortedBy;
    if |s| == 0 {
      assert SortedBy(s + [x], key) by {
        SortedSnoc(s, x, key);
      }
    } else {
      var init, last := s[..|s| - 1], s[|s| - 1];
      SortedInit(s, key);
      if key(last) <= key(x) {
        SortedSnoc(s, x, key);
      } else {
        InsertSorted(init, x, key);
        forall y | y in Insert(init, x, key)
          ensures key(y) <= key(last)
        {
          Inserted(init, x, key, y);
        }
        SortedSnoc(Insert(init, x, key), last, key);
      }
    }
  }

  lemma {:induction false} SortSorted(s: seq<Entry>, key: Entry -> int)
    ensures SortedBy(Sort(s, key), key)
  {
    if |s| > 0 {
      SortSorted(s[..|s| - 1], key);
      InsertSorted(Sort(s[..|s| - 1], key), s[|s| - 1], key);
    }
  }

  lemma LastsAgree(a: seq<Entry>, b: seq<Entry>)
    requires Rising(a) && Rising(b) && multiset(a) == multiset(b) && a != [] && b != []
    ensures a[|a| - 1] == b[|b| - 1]
  {
    var x, y := a[|a| - 1], b[|b| - 1];
    assert x in multiset(b) && y in multiset(a);
    var j :| 0 <= j < |b| && b[j] == x;
    var i :| 0 <= i < |a| && a[i] == y;
  }

  lemma WithoutLast(s: seq<Entry>)
    requires s != []
    ensures s == s[..|s| - 1] + [s[|s| - 1]]
    ensures multiset(s[..|s| - 1]) == multiset(s) - multiset{s[|s| - 1]}
  {
  }

  /** Two rising lists of the same elements are the same list. */
  lemma {:induction false} RisingUnique(a: seq<Entry>, b: seq<Entry>)
    requires Rising(a) && Rising(b) && multiset(a) == multiset(b)
    ensures a == b
  {
    assert |a| == |multiset(a)| == |multiset(b)| == |b|;
    if |a| > 0 {
      var n := |a| - 1;
      LastsAgree(a, b);
      WithoutLast(a);
      WithoutLast(b);
      RisingUnique(a[..n], b[..n]);
    }
  }

  ghost predicate Rising(s: seq<Entry>) {
    forall i, j :: 0 <= i < j < |s| ==> s[i].pos < s[j].pos
  }

  lemma {:induction false} FilterMultiset(s: seq<Entry>, p: Entry -> bool, x: Entry)
    ensures multiset(Filter(s, p))[x] == if p(x) then multiset(s)[x] else 0
  {
    if |s| > 0 {
      var init, last := s[..|s| - 1], s[|s| - 1];
      FilterMultiset(init, p, x);
      assert s == init + [last];
    }
  }

  /** Filtering depends only on the elements, not on their order. */
  lemma FilterSame(a: seq<Entry>, b: seq<Entry>, p: Entry -> bool)
    requires multiset(a) == multiset(b)
    ensures multiset(Filter(a, p)) == multiset(Filter(b, p))
  {
    forall x: Entry
      ensures multiset(Filter(a, p))[x] == multiset(Filter(b, p))[x]
    {
      FilterMultiset(a, p, x);
      FilterMultiset(b, p, x);
    }
  }

  lemma {:induction false} FilterRising(s: seq<Entry>, p: Entry -> bool)
    requires Rising(s)
    ensures Rising(Filter(s, p))
  {
    if |s| > 0 {
      var init, last := s[..|s| - 1], s[|s| - 1];
      FilterRising(init, p);
      forall x | x in Filter(init, p)
        ensures x.pos < last.pos
      {
        var i :| 0 <= i < |init| && init[i] == x;
        assert s[i] == x;
      }
    }
  }

  // ---------------------------------------------------------------- the trade index

  function DayKey(e: Entry): int { e.day }

  function PosKey(e: Entry): int { e.pos }

  function Entries(trades: seq<Trade>): (r: seq<Entry>) {
    seq(|trades|, i requires 0 <= i < |trades| =>
      Entry(Day(trades[i].entryTime), Day(trades[i].exitTime), i, trades[i]))
  }

  function OnDays(days: set<int>): Entry -> bool { (e: Entry) => e.day in days }

  /** The trades entered on one of the walk-forward days, in list order. */
  function Kept(trades: seq<Trade>, days: set<int>): seq<Entry> {
    Filter(Entries(trades), OnDays(days))
  }

  /** The index: the kept trades sorted by entry day. */
  function IndexOf(trades: seq<Trade>, days: set<int>): (index: seq<Entry>) { Sort(Kept(trades, days), DayKey) }

  /** The first place whose day is at least d (or, with `after`, beyond d). */
  method Search(index: seq<Entry>, d: int, after: bool) returns (at: nat)
    requires SortedBy(index, DayKey)
    ensures at <= |index|
    ensures forall i :: 0 <= i < at ==> if after then index[i].day <= d else index[i].day < d
    ensures forall i :: at <= i < |index| ==> if after then index[i].day > d else index[i].day >= d
  {
    at := 0;
    var hi := |index|;
    while at < hi
      invariant 0 <= at <= hi <= |index|
      invariant forall i :: 0 <= i < at ==> if after then index[i].day <= d else index[i].day < d
      invariant forall i :: hi <= i < |index| ==> if after then index[i].day > d else index[i].day >= d
    {
      var mid := (at + hi) / 2;
      assert forall i :: 0 <= i < mid ==> DayKey(index[i]) <= DayKey(index[mid]);
      assert forall i :: mid < i < |index| ==> DayKey(index[mid]) <= DayKey(index[i]);
      if index[mid].day < d || (after && index[mid].day == d) {
        at := mid + 1;
      } else {
        hi := mid;
      }
    }
  }

  function Trades(es: seq<Entry>): seq<Trade> {
    seq(|es|, i requires 0 <= i < |es| => es[i].trade)
  }

  predicate Wanted(e: Entry, first: int, last: int, exitBy: Option<int>) {
    first <= e.day <= last && (exitBy.Some? ==> e.exitDay <= exitBy.value)
  }

  function Wants(first: int, last: int, exitBy: Option<int>): Entry -> bool {
    (e: Entry) => Wanted(e, first, last, exitBy)
  }

  /** The plain filter: the trades entered in [first, last] on a walk-forward day, and closed by
      `exitBy` when it is given, in the original order. */
  function Chosen(trades: seq<Trade>, days: set<int>, first: int, last: int, exitBy: Option<int>): seq<Entry> {
    Filter(Kept(trades, days), Wants(first, last, exitBy))
  }

  predicate InTime(e: Entry, exitBy: Option<int>) { exitBy.Some? ==> e.exitDay <= exitBy.value }

  function ClosedBy(exitBy: Option<int>): Entry -> bool { (e: Entry) => InTime(e, exitBy) }

  /** lo is the first place not before the first day, hi the first place beyond the last one. */
  ghost predicate CutAt(index: seq<Entry>, lo: nat, hi: nat, first: int, last: int)
    requires lo <= |index| && hi <= |index|
  {
    && (forall i :: 0 <= i < lo ==> index[i].day < first)
    && (forall i :: lo <= i < |index| ==> index[i].day >= first)
    && (forall i :: 0 <= i < hi ==> index[i].day <= last)
    && (forall i :: hi <= i < |index| ==> index[i].day > last)
  }

  lemma Thirds(index: seq<Entry>, lo: nat, hi: nat)
    requires lo <= hi <= |index|
    ensures index == index[..lo] + (index[lo..hi] + index[hi..])
  {
  }

  /** Cutting the day-sorted index at the two boundaries and masking by exit day keeps exactly
      the wanted entries. */
  lemma SliceIsFilter(index: seq<Entry>, lo: nat, hi: nat, first: int, last: int, exitBy: Option<int>)
    requires lo <= hi <= |index| && CutAt(index, lo, hi, first, last)
    ensures Filter(index[lo..hi], ClosedBy(exitBy))
         == Filter(index, Wants(first, last, exitBy))
  {
    hide Filter, Wants, ClosedBy, CutAt;
    var p, q := Wants(first, last, exitBy), ClosedBy(exitBy);
    SliceParts(index, lo, hi, first, last, exitBy);
    Thirds(index, lo, hi);
    MiddleFilter(index[..lo], index[lo..hi], index[hi..], p, q);
  }

  lemma SliceParts(index: seq<Entry>, lo: nat, hi: nat, first: int, last: int, exitBy: Option<int>)
    requires lo <= hi <= |index| && CutAt(index, lo, hi, first, last)
    ensures forall x :: x in index[..lo] ==> !Wants(first, last, exitBy)(x)
    ensures forall x :: x in index[hi..] ==> !Wants(first, last, exitBy)(x)
    ensures forall x :: x in index[lo..hi] ==> Wants(first, last, exitBy)(x) == ClosedBy(exitBy)(x)
  {
  }

  lemma MiddleFilter(before: seq<Entry>, mid: seq<Entry>, after: seq<Entry>, p: Entry -> bool, q: Entry -> bool)
    requires forall x :: x in before ==> !p(x)
    requires forall x :: x in after ==> !p(x)
    requires forall x :: x in mid ==> p(x) == q(x)
    ensures Filter(before + (mid + after), p) == Filter(mid, q)
  {
    FilterConcat(before, mid + after, p);
    FilterConcat(mid, after, p);
    FilterNone(before, p);
    FilterNone(after, p);
    FilterAgree(mid, p, q);
  }

  lemma {:induction false} FilterAgree(s: seq<Entry>, p: Entry -> bool, q: Entry -> bool)
    requires forall x :: x in s ==> p(x) == q(x)
    ensures Filter(s, p) == Filter(s, q)
  {
    if |s| > 0 {
      FilterAgree(s[..|s| - 1], p, q);
    }
  }

  lemma ChosenRising(trades: seq<Trade>, days: set<int>, first: int, last: int, exitBy: Option<int>)
    ensures Rising(Chosen(trades, days, first, last, exitBy))
  {
    FilterRising(Entries(trades), OnDays(days));
    FilterRising(Kept(trades, days), Wants(first, last, exitBy));
  }

  /** Restoring list order from the slice gives the plain filter. */
  lemma LookupIsFilter(
      trades: seq<Trade>, days: set<int>, first: int, last: int, exitBy: Option<int>, picked: seq<Entry>)
    requires picked == Filter(IndexOf(trades, days), Wants(first, last, exitBy))
    ensures Sort(picked, PosKey) == Chosen(trades, days, first, last, exitBy)
  {
    var p := Wants(first, last, exitBy);
    FilterSame(IndexOf(trades, days), Kept(trades, days), p);
    ChosenRising(trades, days, first, last, exitBy);
    SortSorted(picked, PosKey);
    DistinctSortedRises(Sort(picked, PosKey), Chosen(trades, days, first, last, exitBy));
    RisingUnique(Sort(picked, PosKey), Chosen(trades, days, first, last, exitBy));
  }

  lemma DistinctSortedRises(s: seq<Entry>, r: seq<Entry>)
    requires SortedBy(s, PosKey) && Rising(r) && multiset(s) == multiset(r)
    ensures Rising(s)
  {
    forall i, j | 0 <= i < j < |s|
      ensures s[i].pos < s[j].pos
    {
      assert PosKey(s[i]) <= PosKey(s[j]);
      if s[i].pos == s[j].pos {
        assert s[i] in multiset(r) && s[j] in multiset(r);
        var a :| 0 <= a < |r| && r[a] == s[i];
        var b :| 0 <= b < |r| && r[b] == s[j];
        assert a == b;
        TwiceInMultiset(s, i, j);
        OnceInRising(r, a);
      }
    }
  }

  lemma TwiceInMultiset(s: seq<Entry>, i: nat, j: nat)
    requires i < j < |s| && s[i] == s[j]
    ensures multiset(s)[s[i]] >= 2
  {
    assert s == s[..j] + [s[j]] + s[j + 1..];
    assert s[..j][i] == s[i];
    assert s[i] in multiset(s[..j]);
  }

  lemma OnceInRising(r: seq<Entry>, a: nat)
    requires Rising(r) && a < |r|
    ensures multiset(r)[r[a]] == 1
  {
    assert r == r[..a] + [r[a]] + r[a + 1..];
    assert r[a] !in r[..a] && r[a] !in r[a + 1..];
  }

  /** The lookup: two binary searches, the exit mask, and a re-sort by list position. It returns
      exactly the list-order filter. */
  method Pick(trades: seq<Trade>, days: set<int>, first: int, last: int, exitBy: Option<int>) returns (r: seq<Trade>)
    ensures r == Trades(Chosen(trades, days, first, last, exitBy))
  {
    var index := IndexOf(trades, days);
    SortSorted(Kept(trades, days), DayKey);
    var lo := Search(index, first, false);
    var hi := Search(index, last, true);
    if hi < lo {
      // An inverted range selects nothing.
      forall e | e in Kept(trades, days)
        ensures !Wanted(e, first, last, exitBy)
      {
        assert e in multiset(index);
        var i :| 0 <= i < |index| && index[i] == e;
      }
      FilterNone(Kept(trades, days), Wants(first, last, exitBy));
      return [];
    }
    var picked := Filter(index[lo..hi], ClosedBy(exitBy));
    SliceIsFilter(index, lo, hi, first, last, exitBy);
    LookupIsFilter(trades, days, first, last, exitBy, picked);
    r := Trades(Sort(picked, PosKey));
  }

  // ---------------------------------------------------------------- windows

  datatype Window = Window(trainStart: int, trainEnd: int, testStart: int, testEnd: int)

  datatype Plan = Plan(trainDays: int, testDays: int, stepDays: int, anchored: bool, warmupDays: int)

  predicate ValidPlan(p: Plan) { p.trainDays >= 1 && p.testDays >= 1 && p.stepDays >= 1 && p.warmupDays >= 0 }

  /** Window number i of a plan. */
  function WindowAt(p: Plan, i: nat): Window {
    var trainEnd := p.warmupDays + p.trainDays + i * p.stepDays;
    Window(if p.anchored then p.warmupDays else trainEnd - p.trainDays, trainEnd, trainEnd, trainEnd + p.testDays)
  }

  /** All the windows that fit, in order; an invalid plan is refused. */
  method WindowBounds(days: nat, p: Plan) returns (r: Option<seq<Window>>)
    ensures r.Some? <==> ValidPlan(p)
    ensures r.Some? ==>
      && (forall i :: 0 <= i < |r.value| ==> r.value[i] == WindowAt(p, i) && r.value[i].testEnd <= days)
      && WindowAt(p, |r.value|).testEnd > days
  {
    if !ValidPlan(p) {
      return None;
    }
    var bounds: seq<Window> := [];
    var trainEnd := p.warmupDays + p.trainDays;
    while trainEnd + p.testDays <= days
      invariant trainEnd == WindowAt(p, |bounds|).trainEnd
      invariant forall i :: 0 <= i < |bounds| ==> bounds[i] == WindowAt(p, i) && bounds[i].testEnd <= days
      decreases days - trainEnd
    {
      var trainStart := if p.anchored then p.warmupDays else trainEnd - p.trainDays;
      assert (|bounds| + 1) * p.stepDays == |bounds| * p.stepDays + p.stepDays;
      bounds := bounds + [Window(trainStart, trainEnd, trainEnd, trainEnd + p.testDays)];
      trainEnd := trainEnd + p.stepDays;
    }
    return Some(bounds);
  }

  /** Train comes after the warm-up and directly before its own test block; and when the step is
      at least the test length, later test blocks start after earlier ones end. */
  lemma WindowsInOrder(p: Plan, i: nat, j: nat)
    requires ValidPlan(p) && i < j
    ensures
      var a, b := WindowAt(p, i), WindowAt(p, j);
      && p.warmupDays <= a.trainStart < a.trainEnd == a.testStart < a.testEnd
      && a.testStart < b.testStart
      && (p.stepDays >= p.testDays ==> a.testEnd <= b.testStart)
  {
    StepsApart(p.stepDays, i, j);
  }

  /** The blocks of window i: the first train block follows the warm-up, a rolling one always has its full
      length, an anchored one always starts at the warm-up, every test block follows its train block and has
      its full length, and each window lies one step after the one before. */
  lemma WindowShape(p: Plan, i: nat)
    requires ValidPlan(p)
    ensures
      var w := WindowAt(p, i);
      && (if p.anchored then w.trainStart == p.warmupDays else w.trainEnd - w.trainStart == p.trainDays)
      && w.testStart == w.trainEnd && w.testEnd - w.testStart == p.testDays
      && (i == 0 ==> w.trainStart == p.warmupDays && w.trainEnd == p.warmupDays + p.trainDays)
      && (i > 0 ==> w.trainEnd == WindowAt(p, i - 1).trainEnd + p.stepDays)
  {
    if i > 0 {
      assert i * p.stepDays == (i - 1) * p.stepDays + p.stepDays;
    }
  }

  lemma {:induction false} StepsApart(step: int, i: nat, j: nat)
    requires step >= 1 && i < j
    ensures i * step >= 0 && j * step >= i * step + step
  {
    if j == i + 1 {
      assert (i + 1) * step == i * step + step;
    } else {
      StepsApart(step, i, j - 1);
      assert j * step == (j - 1) * step + step;
    }
    assert i * step >= 0;
  }

  // ---------------------------------------------------------------- selection

  datatype Named = Named(name: string, trades: seq<Trade>)

  /** Train expectancy, missing below the minimum number of trades. */
  function Score(trades: seq<Trade>, minTrades: int): Option<real> {
    if |trades| < minTrades then None else Expectancy(Points(trades))
  }

  /** a ranks strictly above b: a higher score, or at equal scores the baseline over another. */
  predicate Above(a: Option<real>, aIsBase: bool, b: Option<real>, bIsBase: bool) {
    Less2(b, a) || (a == b && aIsBase && !bIsBase)
  }

  predicate Less2(a: Option<real>, b: Option<real>) {
    b.Some? && (a.None? || a.value < b.value)
  }

  /** The first variant no other ranks above. */
  function Best(scores: seq<Option<real>>, names: seq<string>, base: string): nat
    requires 0 < |scores| == |names|
    ensures Best(scores, names, base) < |scores|
  {
    if |scores| == 1 then 0
    else
      var n := |scores| - 1;
      var b := Best(scores[..n], names[..n], base);
      if Above(scores[n], names[n] == base, scores[b], names[b] == base) then n else b
  }

  /** The variant a window selects; the baseline when none qualifies. */
  function Select(scores: seq<Option<real>>, names: seq<string>, base: string): string
    requires 0 < |scores| == |names|
  {
    var b := Best(scores, names, base);
    if scores[b].None? then base else names[b]
  }

  function Names(vs: seq<Named>): (r: seq<string>) {
    seq(|vs|, i requires 0 <= i < |vs| => vs[i].name)
  }

  function TrainScores(
      vs: seq<Named>, days: set<int>, first: int, last: int, minTrades: int, cutoff: bool): (r: seq<Option<real>>)
  {
    seq(|vs|, i requires 0 <= i < |vs| =>
      Score(Trades(Chosen(vs[i].trades, days, first, last, if cutoff then Some(last) else None)), minTrades))
  }

  function Selected(
      vs: seq<Named>, base: string, days: set<int>, first: int, last: int, minTrades: int, cutoff: bool): string
    requires vs != []
  {
    Select(TrainScores(vs, days, first, last, minTrades, cutoff), Names(vs), base)
  }

  /** The selection loop of one window. */
  method SelectVariant(
      vs: seq<Named>, base: string, days: set<int>, first: int, last: int, minTrades: int, cutoff: bool)
    returns (name: string)
    requires vs != []
    ensures name == Selected(vs, base, days, first, last, minTrades, cutoff)
  {
    hide Chosen, Score, Select, Trades;
    var exitBy := if cutoff then Some(last) else None;
    var scores: seq<Option<real>> := [];
    for i := 0 to |vs|
      invariant scores == TrainScores(vs, days, first, last, minTrades, cutoff)[..i]
    {
      var train := Pick(vs[i].trades, days, first, last, exitBy);
      scores := scores + [Score(train, minTrades)];
    }
    assert scores == TrainScores(vs, days, first, last, minTrades, cutoff);
    name := Select(scores, Names(vs), base);
  }

  /** No variant ranks above the chosen one, and a tie with the baseline goes to the baseline. */
  lemma {:induction false} BestIsMaximal(scores: seq<Option<real>>, names: seq<string>, base: string)
    requires 0 < |scores| == |names|
    ensures
      var b := Best(scores, names, base);
      forall i :: 0 <= i < |scores| ==> !Above(scores[i], names[i] == base, scores[b], names[b] == base)
  {
    if |scores| > 1 {
      var n := |scores| - 1;
      BestIsMaximal(scores[..n], names[..n], base);
      var c := Best(scores[..n], names[..n], base);
      forall i | 0 <= i < n
        ensures !Above(scores[i], names[i] == base, scores[c], names[c] == base)
      {
        assert scores[..n][i] == scores[i] && names[..n][i] == names[i];
      }
    }
  }

  // ---------------------------------------------------------------- no leakage

  predicate InTrain(t: Trade, days: set<int>, first: int, last: int) {
    Day(t.entryTime) in days && first <= Day(t.entryTime) <= last && Day(t.exitTime) <= last
  }

  /** What the train block knows of a variant: the trades both entered and closed inside it. */
  function TrainView(trades: seq<Trade>, days: set<int>, first: int, last: int): seq<Trade> {
    Filter(trades, (t: Trade) => InTrain(t, days, first, last))
  }

  lemma ChosenSnoc(trades: seq<Trade>, n: nat, days: set<int>, first: int, last: int, exitBy: Option<int>)
    requires |trades| == n + 1
    ensures
      var e := Entry(Day(trades[n].entryTime), Day(trades[n].exitTime), n, trades[n]);
      Chosen(trades, days, first, last, exitBy) ==
        if e.day in days && Wanted(e, first, last, exitBy) then Chosen(trades[..n], days, first, last, exitBy) + [e]
        else Chosen(trades[..n], days, first, last, exitBy)
  {
    var e := Entry(Day(trades[n].entryTime), Day(trades[n].exitTime), n, trades[n]);
    EntriesSnoc(trades, n);
    KeptSnoc(Entries(trades[..n]), e, days);
    FilterSnoc(Kept(trades[..n], days), e, Wants(first, last, exitBy));
  }

  lemma EntriesSnoc(trades: seq<Trade>, n: nat)
    requires |trades| == n + 1
    ensures Entries(trades)
      == Entries(trades[..n]) + [Entry(Day(trades[n].entryTime), Day(trades[n].exitTime), n, trades[n])]
  {
  }

  lemma KeptSnoc(es: seq<Entry>, e: Entry, days: set<int>)
    ensures
      var onDay := OnDays(days);
      Filter(es + [e], onDay) == if e.day in days then Filter(es, onDay) + [e] else Filter(es, onDay)
  {
  }

  lemma FilterSnoc(s: seq<Entry>, e: Entry, p: Entry -> bool)
    ensures Filter(s + [e], p) == if p(e) then Filter(s, p) + [e] else Filter(s, p)
  {
  }

  /** The trades scored with the exit cutoff are exactly the train block's view. */
  lemma {:induction false} ChosenIsTrainView(trades: seq<Trade>, days: set<int>, first: int, last: int)
    ensures Trades(Chosen(trades, days, first, last, Some(last))) == TrainView(trades, days, first, last)
  {
    hide Chosen;
    if |trades| == 0 {
      EmptyChosen(days, first, last, Some(last));
    } else {
      var n := |trades| - 1;
      ChosenIsTrainView(trades[..n], days, first, last);
      ChosenSnoc(trades, n, days, first, last, Some(last));
    }
  }

  lemma EmptyChosen(days: set<int>, first: int, last: int, exitBy: Option<int>)
    ensures Chosen([], days, first, last, exitBy) == []
  {
  }

  predicate EntersIn(t: Trade, days: set<int>, first: int, last: int) {
    Day(t.entryTime) in days && first <= Day(t.entryTime) <= last
  }

  /** The trades entered in a block, in list order. */
  function EnteredView(trades: seq<Trade>, days: set<int>, first: int, last: int): seq<Trade> {
    Filter(trades, (t: Trade) => EntersIn(t, days, first, last))
  }

  lemma {:induction false} ChosenIsEntered(trades: seq<Trade>, days: set<int>, first: int, last: int)
    ensures Trades(Chosen(trades, days, first, last, None)) == EnteredView(trades, days, first, last)
  {
    hide Chosen;
    if |trades| == 0 {
      EmptyChosen(days, first, last, None);
    } else {
      var n := |trades| - 1;
      ChosenIsEntered(trades[..n], days, first, last);
      ChosenSnoc(trades, n, days, first, last, None);
    }
  }

  /** With the exit cutoff a window's pick depends on nothing but the trades entered and closed
      in its train block: change every other trade of every variant and the pick is the same. */
  lemma NoLeakage(
      vs: seq<Named>, ws: seq<Named>, base: string, days: set<int>, first: int, last: int, minTrades: int)
    requires |vs| == |ws| > 0
    requires forall i :: 0 <= i < |vs| ==> vs[i].name == ws[i].name
    requires forall i :: 0 <= i < |vs| ==>
      TrainView(vs[i].trades, days, first, last) == TrainView(ws[i].trades, days, first, last)
    ensures Selected(vs, base, days, first, last, minTrades, true)
         == Selected(ws, base, days, first, last, minTrades, true)
  {
    hide Select, Score, Chosen;
    assert Names(vs) == Names(ws);
    forall i | 0 <= i < |vs|
      ensures TrainScores(vs, days, first, last, minTrades, true)[i]
           == TrainScores(ws, days, first, last, minTrades, true)[i]
    {
      ChosenIsTrainView(vs[i].trades, days, first, last);
      ChosenIsTrainView(ws[i].trades, days, first, last);
    }
    assert TrainScores(vs, days, first, last, minTrades, true) == TrainScores(ws, days, first, last, minTrades, true);
  }

  // ---------------------------------------------------------------- what a pick is best at

  /** What a variant did in the train block. */
  function TrainPoints(v: Named, days: set<int>, first: int, last: int): seq<real> {
    Points(TrainView(v.trades, days, first, last))
  }

  /** Enough train trades to be ranked, and at least one. */
  predicate Qualifies(v: Named, days: set<int>, first: int, last: int, minTrades: int) {
    |TrainPoints(v, days, first, last)| >= minTrades && |TrainPoints(v, days, first, last)| >= 1
  }

  /** The average train trade; none counts as zero. */
  function TrainAverage(v: Named, days: set<int>, first: int, last: int): real {
    var points := TrainPoints(v, days, first, last);
    if |points| == 0 then 0.0 else Sum(points) / |points| as real
  }

  lemma ScoreIs(v: Named, days: set<int>, first: int, last: int, minTrades: int)
    ensures
      var score := Score(Trades(Chosen(v.trades, days, first, last, Some(last))), minTrades);
      && (score.Some? <==> Qualifies(v, days, first, last, minTrades))
      && (score.Some? ==> score.value == TrainAverage(v, days, first, last))
  {
    hide Chosen, Expectancy, Sum, TrainView;
    ChosenIsTrainView(v.trades, days, first, last);
    var points := TrainPoints(v, days, first, last);
    if |points| > 0 {
      ExpectancyIsAverage(points);
    } else {
      NothingExpected(points);
    }
  }

  lemma NothingExpected(points: seq<real>)
    requires |points| == 0
    ensures Expectancy(points) == None
  {
  }

  /** The chosen place is the first of those nothing ranks above. */
  lemma {:induction false} BestIsFirst(scores: seq<Option<real>>, names: seq<string>, base: string, i: nat)
    requires 0 < |scores| == |names| && i < Best(scores, names, base)
    ensures
      var b := Best(scores, names, base);
      Above(scores[b], names[b] == base, scores[i], names[i] == base)
  {
    var n := |scores| - 1;
    var b := Best(scores[..n], names[..n], base);
    if Best(scores, names, base) == n {
      if i != b {
        BestIsMaximal(scores[..n], names[..n], base);
        assert scores[..n][i] == scores[i] && names[..n][i] == names[i];
        if i < b {
          BestIsFirst(scores[..n], names[..n], base, i);
        }
      }
    } else {
      BestIsFirst(scores[..n], names[..n], base, i);
    }
  }

  /** With the exit cutoff, through the train block alone: the pick is the baseline if nothing qualifies;
      otherwise it qualifies, no qualifying variant has a better average train trade, the baseline if picked
      over has a worse one, and so has every variant listed before a pick that is not the baseline. */
  lemma PickIsBest(
      vs: seq<Named>, base: string, days: set<int>, first: int, last: int, minTrades: int) returns (b: nat)
    requires vs != []
    ensures
      var pick := Selected(vs, base, days, first, last, minTrades, true);
      && b < |vs|
      && (pick != base ==> pick == vs[b].name && Qualifies(vs[b], days, first, last, minTrades))
      && ((forall i :: 0 <= i < |vs| ==> !Qualifies(vs[i], days, first, last, minTrades)) ==> pick == base)
      && (forall i :: 0 <= i < |vs| && Qualifies(vs[i], days, first, last, minTrades) ==>
            && pick == vs[b].name && Qualifies(vs[b], days, first, last, minTrades)
            && TrainAverage(vs[i], days, first, last) <= TrainAverage(vs[b], days, first, last)
            && (vs[i].name == base && pick != base ==>
                  TrainAverage(vs[i], days, first, last) < TrainAverage(vs[b], days, first, last))
            && (i < b && pick != base ==>
                  TrainAverage(vs[i], days, first, last) < TrainAverage(vs[b], days, first, last)))
  {
    hide Score, Chosen, Qualifies, TrainAverage, Best;
    var scores := TrainScores(vs, days, first, last, minTrades, true);
    b := Best(scores, Names(vs), base);
    ScoreIs(vs[b], days, first, last, minTrades);
    BestIsMaximal(scores, Names(vs), base);
    forall i | 0 <= i < |vs|
      ensures scores[i].Some? <==> Qualifies(vs[i], days, first, last, minTrades)
      ensures scores[i].Some? ==> scores[i].value == TrainAverage(vs[i], days, first, last)
      ensures i < b ==> Above(scores[b], vs[b].name == base, scores[i], vs[i].name == base)
    {
      ScoreIs(vs[i], days, first, last, minTrades);
      if i < b {
        BestIsFirst(scores, Names(vs), base, i);
      }
    }
  }

  /** A one-trade variant whose trade is entered on day 0 and leaves with the given points. */
  function Single(name: string, exitDay: int, points: real): Named {
    Named(name, [Trade(0, exitDay * SECONDS_PER_DAY, Call, 1.0, 1.0, Strategy.ExitTarget, points, 0)])
  }

  lemma SingleScore(v: Named, exitDay: int, points: real)
    requires v == Single(v.name, exitDay, points)
    ensures Score(Trades(Chosen(v.trades, {0}, 0, 0, None)), 1) == Some(points)
  {
    hide Expectancy, Sum;
    var t := v.trades[0];
    assert Day(t.entryTime) == 0;
    EmptyChosen({0}, 0, 0, None);
    assert v.trades[..0] == [];
    ChosenSnoc(v.trades, 0, {0}, 0, 0, None);
    assert Trades(Chosen(v.trades, {0}, 0, 0, None)) == [t];
    assert Points([t]) == [points];
    ExpectancyIsAverage([points]);
    EmptySum();
    SumSnoc([], points);
    assert [] + [points] == [points];
  }

  /** Without the cutoff it leaks: two inputs that differ only in how a trade ends after the
      train block lead to different picks. */
  lemma LeaksWithoutCutoff()
    ensures
      var quiet := Single("base", 0, 0.0);
      var vs, ws := [quiet, Single("other", 5, 1.0)], [quiet, Single("other", 5, -1.0)];
      && (forall i :: 0 <= i < 2 ==> TrainView(vs[i].trades, {0}, 0, 0) == TrainView(ws[i].trades, {0}, 0, 0))
      && Selected(vs, "base", {0}, 0, 0, 1, false) == "other"
      && Selected(ws, "base", {0}, 0, 0, 1, false) == "base"
  {
    hide Chosen, Score;
    var quiet, good, bad := Single("base", 0, 0.0), Single("other", 5, 1.0), Single("other", 5, -1.0);
    SingleScore(quiet, 0, 0.0);
    SingleScore(good, 5, 1.0);
    SingleScore(bad, 5, -1.0);
    OutsideView(good.trades[0]);
    OutsideView(bad.trades[0]);
    assert "base" != "other";
    assert TrainScores([quiet, good], {0}, 0, 0, 1, false) == [Some(0.0), Some(1.0)];
    assert TrainScores([quiet, bad], {0}, 0, 0, 1, false) == [Some(0.0), Some(-1.0)];
    assert Names([quiet, good]) == ["base", "other"] == Names([quiet, bad]);
    BestOfTwo([Some(0.0), Some(1.0)], ["base", "other"], "base");
    BestOfTwo([Some(0.0), Some(-1.0)], ["base", "other"], "base");
  }

  lemma OutsideView(t: Trade)
    requires Day(t.exitTime) > 0
    ensures TrainView([t], {0}, 0, 0) == []
  {
  }

  lemma BestOfTwo(scores: seq<Option<real>>, names: seq<string>, base: string)
    requires |scores| == |names| == 2
    ensures Best(scores, names, base) ==
      if Above(scores[1], names[1] == base, scores[0], names[0] == base) then 1 else 0
  {
  }

  // ---------------------------------------------------------------- the walk

  /** One window's outcome: the pick and its test trades, and the baseline's. */
  datatype Measured = Measured(picked: string, trades: seq<Trade>, baseline: seq<Trade>)

  function TradesNamed(vs: seq<Named>, name: string): seq<Trade> {
    if |vs| == 0 then [] else if vs[0].name == name then vs[0].trades else TradesNamed(vs[1..], name)
  }

  function DaySet(ordinals: seq<int>): set<int> { set d | d in ordinals }

  /** Window i: selected on its train block, measured on its test block. */
  function MeasuredAt(
      vs: seq<Named>, base: string, ordinals: seq<int>, p: Plan, minTrades: int, cutoff: bool, i: nat): Measured
    requires vs != [] && ValidPlan(p) && WindowAt(p, i).testEnd <= |ordinals|
    requires 0 <= WindowAt(p, i).trainStart < WindowAt(p, i).trainEnd
  {
    var w := WindowAt(p, i);
    var name :=
      Selected(vs, base, DaySet(ordinals), ordinals[w.trainStart], ordinals[w.trainEnd - 1], minTrades, cutoff);
    Measured(name, Trades(TestEntries(TradesNamed(vs, name), ordinals, w)),
           Trades(TestEntries(TradesNamed(vs, base), ordinals, w)))
  }

  /** What window i reports: its pick, and the trades the pick and the baseline entered on its test days, each
      from its own list. */
  lemma MeasuredIs(
      vs: seq<Named>, base: string, ordinals: seq<int>, p: Plan, minTrades: int, cutoff: bool, i: nat)
    requires vs != [] && ValidPlan(p) && WindowAt(p, i).testEnd <= |ordinals|
    requires 0 <= WindowAt(p, i).trainStart < WindowAt(p, i).trainEnd
    ensures
      var w, r := WindowAt(p, i), MeasuredAt(vs, base, ordinals, p, minTrades, cutoff, i);
      var days, first, last := DaySet(ordinals), ordinals[w.testStart], ordinals[w.testStart + p.testDays - 1];
      && r.picked ==
           Selected(vs, base, days, ordinals[w.trainStart], ordinals[w.testStart - 1], minTrades, cutoff)
      && r.trades == EnteredView(TradesNamed(vs, r.picked), days, first, last)
      && r.baseline == EnteredView(TradesNamed(vs, base), days, first, last)
  {
    hide Selected, Chosen, EnteredView;
    var w, r := WindowAt(p, i), MeasuredAt(vs, base, ordinals, p, minTrades, cutoff, i);
    var days, first, last := DaySet(ordinals), ordinals[w.testStart], ordinals[w.testEnd - 1];
    ChosenIsEntered(TradesNamed(vs, r.picked), days, first, last);
    ChosenIsEntered(TradesNamed(vs, base), days, first, last);
  }

  /** The out-of-sample trades: the picks' test trades, window after window. */
  function Picks(ws: seq<Measured>): seq<Trade> {
    if |ws| == 0 then [] else Picks(ws[..|ws| - 1]) + ws[|ws| - 1].trades
  }

  function Baselines(ws: seq<Measured>): seq<Trade> {
    if |ws| == 0 then [] else Baselines(ws[..|ws| - 1]) + ws[|ws| - 1].baseline
  }

  /** The whole walk; a step of zero means the test length. */
  method Walk(
      vs: seq<Named>, base: string, ordinals: seq<int>, plan: Plan, minTrades: int, cutoff: bool)
    returns (r: Option<seq<Measured>>, picked: seq<Trade>, baseline: seq<Trade>, p: Plan)
    requires vs != []
    ensures p == if plan.stepDays == 0 then plan.(stepDays := plan.testDays) else plan
    ensures r.Some? <==> ValidPlan(p)
    ensures r.Some? ==> WindowAt(p, |r.value|).testEnd > |ordinals|
    ensures r.Some? ==> picked == Picks(r.value) && baseline == Baselines(r.value)
    ensures r.Some? ==> forall i :: 0 <= i < |r.value| ==>
      && WindowAt(p, i).testEnd <= |ordinals| && 0 <= WindowAt(p, i).trainStart < WindowAt(p, i).trainEnd
      && r.value[i] == MeasuredAt(vs, base, ordinals, p, minTrades, cutoff, i)
  {
    hide Selected, Chosen, MeasuredAt;
    p := if plan.stepDays == 0 then plan.(stepDays := plan.testDays) else plan;
    picked, baseline := [], [];
    var bounds := WindowBounds(|ordinals|, p);
    if bounds.None? {
      return None, picked, baseline, p;
    }
    var measured: seq<Measured> := [];
    for i := 0 to |bounds.value|
      invariant |measured| == i && picked == Picks(measured) && baseline == Baselines(measured)
      invariant forall j :: 0 <= j < i ==>
        && WindowAt(p, j).testEnd <= |ordinals| && 0 <= WindowAt(p, j).trainStart < WindowAt(p, j).trainEnd
        && measured[j] == MeasuredAt(vs, base, ordinals, p, minTrades, cutoff, j)
    {
      var w := Measure(vs, base, ordinals, p, minTrades, cutoff, i, bounds.value[i]);
      picked, baseline := picked + w.trades, baseline + w.baseline;
      PicksSnoc(measured, w);
      measured := measured + [w];
    }
    return Some(measured), picked, baseline, p;
  }

  /** One window: the selection, and the test trades of the pick and of the baseline. */
  method Measure(
      vs: seq<Named>, base: string, ordinals: seq<int>, p: Plan, minTrades: int, cutoff: bool, i: nat, w: Window)
    returns (r: Measured)
    requires vs != [] && ValidPlan(p) && w == WindowAt(p, i) && w.testEnd <= |ordinals|
    ensures 0 <= w.trainStart < w.trainEnd
    ensures r == MeasuredAt(vs, base, ordinals, p, minTrades, cutoff, i)
  {
    hide Selected, Chosen;
    WindowsInOrder(p, i, i + 1);
    var days := DaySet(ordinals);
    var name := SelectVariant(vs, base, days, ordinals[w.trainStart], ordinals[w.trainEnd - 1], minTrades, cutoff);
    var first, last := ordinals[w.testStart], ordinals[w.testEnd - 1];
    var trades := Pick(TradesNamed(vs, name), days, first, last, None);
    var baseline := Pick(TradesNamed(vs, base), days, first, last, None);
    r := Measured(name, trades, baseline);
  }

  lemma PicksSnoc(ws: seq<Measured>, w: Measured)
    ensures Picks(ws + [w]) == Picks(ws) + w.trades && Baselines(ws + [w]) == Baselines(ws) + w.baseline
  {
    assert (ws + [w])[..|ws|] == ws;
  }

  lemma {:induction false} SumConcat(xs: seq<real>, ys: seq<real>)
    ensures Sum(xs + ys) == Sum(xs) + Sum(ys)
  {
    if |ys| == 0 {
      assert xs + ys == xs;
    } else {
      var n := |ys| - 1;
      assert (xs + ys)[..|xs + ys| - 1] == xs + ys[..n];
      SumConcat(xs, ys[..n]);
    }
  }

  /** The windows' own nets, added up. */
  function NetOf(ws: seq<Measured>): real {
    if |ws| == 0 then 0.0 else NetOf(ws[..|ws| - 1]) + Sum(Points(ws[|ws| - 1].trades))
  }

  /** The out-of-sample total is the sum of what the windows report. */
  lemma {:induction false} OutOfSampleNet(ws: seq<Measured>)
    ensures Sum(Points(Picks(ws))) == NetOf(ws)
  {
    hide Sum, Points;
    if |ws| == 0 {
      EmptySum();
    } else {
      var init, last := Picks(ws[..|ws| - 1]), ws[|ws| - 1].trades;
      OutOfSampleNet(ws[..|ws| - 1]);
      PointsConcat(init, last);
      SumConcat(Points(init), Points(last));
    }
  }

  lemma PointsConcat(a: seq<Trade>, b: seq<Trade>)
    ensures Points(a + b) == Points(a) + Points(b)
  {
  }

  ghost predicate Rises(ordinals: seq<int>) {
    forall i, j :: 0 <= i < j < |ordinals| ==> ordinals[i] < ordinals[j]
  }

  function TestEntries(trades: seq<Trade>, ordinals: seq<int>, w: Window): seq<Entry>
    requires 0 <= w.testStart < w.testEnd <= |ordinals|
  {
    Chosen(trades, DaySet(ordinals), ordinals[w.testStart], ordinals[w.testEnd - 1], None)
  }

  lemma EntriesOfTest(trades: seq<Trade>, ordinals: seq<int>, w: Window, t: Trade)
    requires 0 <= w.testStart < w.testEnd <= |ordinals| && t in Trades(TestEntries(trades, ordinals, w))
    ensures ordinals[w.testStart] <= Day(t.entryTime) <= ordinals[w.testEnd - 1]
  {
    var es := TestEntries(trades, ordinals, w);
    var i :| 0 <= i < |es| && es[i].trade == t;
    assert es[i] in Kept(trades, DaySet(ordinals));
    assert es[i] in Entries(trades);
  }

  /** Test blocks of different windows share no day when the step is at least the test length: whatever each
      window picked, a trade counted in an earlier one was entered on an earlier day than any counted in a
      later one. So no trade is counted twice out of sample. */
  lemma NoTradeTwice(
      vs: seq<Named>, base: string, ordinals: seq<int>, p: Plan, minTrades: int, cutoff: bool, i: nat, j: nat,
      x: Trade, y: Trade)
    requires vs != [] && ValidPlan(p) && p.stepDays >= p.testDays && i < j && Rises(ordinals)
    requires WindowAt(p, i).testEnd <= |ordinals| && WindowAt(p, j).testEnd <= |ordinals|
    requires 0 <= WindowAt(p, i).trainStart < WindowAt(p, i).trainEnd
    requires 0 <= WindowAt(p, j).trainStart < WindowAt(p, j).trainEnd
    requires x in MeasuredAt(vs, base, ordinals, p, minTrades, cutoff, i).trades
    requires y in MeasuredAt(vs, base, ordinals, p, minTrades, cutoff, j).trades
    ensures Day(x.entryTime) < Day(y.entryTime)
  {
    hide Selected, TestEntries, Trades;
    WindowsInOrder(p, i, j);
    var a, b := WindowAt(p, i), WindowAt(p, j);
    EntriesOfTest(TradesNamed(vs, PickedAt(vs, base, ordinals, p, minTrades, cutoff, i)), ordinals, a, x);
    EntriesOfTest(TradesNamed(vs, PickedAt(vs, base, ordinals, p, minTrades, cutoff, j)), ordinals, b, y);
    assert ordinals[a.testEnd - 1] < ordinals[b.testStart];
  }

  function PickedAt(
      vs: seq<Named>, base: string, ordinals: seq<int>, p: Plan, minTrades: int, cutoff: bool, i: nat): string
    requires vs != [] && ValidPlan(p) && WindowAt(p, i).testEnd <= |ordinals|
    requires 0 <= WindowAt(p, i).trainStart < WindowAt(p, i).trainEnd
  {
    MeasuredAt(vs, base, ordinals, p, minTrades, cutoff, i).picked
  }

  lemma {:induction false} FilterInOrder(es: seq<Entry>, p: Entry -> bool)
    requires EnteredInOrder(Trades(es))
    ensures EnteredInOrder(Trades(Filter(es, p)))
  {
    if |es| > 0 {
      var n := |es| - 1;
      var init := Filter(es[..n], p);
      assert Trades(es[..n]) == Trades(es)[..n];
      FilterInOrder(es[..n], p);
      forall i | 0 <= i < |init|
        ensures init[i].trade.entryTime < es[n].trade.entryTime
      {
        assert init[i] in es[..n];
        var k :| 0 <= k < n && es[k] == init[i];
        assert Trades(es)[k].entryTime < Trades(es)[n].entryTime;
      }
      assert forall i :: 0 <= i < |init| ==> Trades(init)[i] == init[i].trade;
    }
  }

  lemma TestInOrder(trades: seq<Trade>, ordinals: seq<int>, w: Window)
    requires EnteredInOrder(trades) && 0 <= w.testStart < w.testEnd <= |ordinals|
    ensures EnteredInOrder(Trades(TestEntries(trades, ordinals, w)))
  {
    hide Filter, OnDays, Wants;
    var days := DaySet(ordinals);
    assert Trades(Entries(trades)) == trades;
    FilterInOrder(Entries(trades), OnDays(days));
    FilterInOrder(Kept(trades, days), Wants(ordinals[w.testStart], ordinals[w.testEnd - 1], None));
  }

  /** What a walk measured. */
  ghost predicate Walked(
      ws: seq<Measured>, vs: seq<Named>, base: string, ordinals: seq<int>, p: Plan, minTrades: int, cutoff: bool)
  {
    && vs != [] && ValidPlan(p)
    && (forall i :: 0 <= i < |ws| ==>
          && WindowAt(p, i).testEnd <= |ordinals| && 0 <= WindowAt(p, i).trainStart < WindowAt(p, i).trainEnd
          && ws[i] == MeasuredAt(vs, base, ordinals, p, minTrades, cutoff, i))
  }

  lemma {:induction false} PickedSomewhere(ws: seq<Measured>, t: Trade) returns (i: nat)
    requires t in Picks(ws)
    ensures i < |ws| && t in ws[i].trades
  {
    var n := |ws| - 1;
    if t in ws[n].trades {
      i := n;
    } else {
      i := PickedSomewhere(ws[..n], t);
    }
  }

  lemma {:induction false} NamedInOrder(vs: seq<Named>, name: string)
    requires forall v :: v in vs ==> EnteredInOrder(v.trades)
    ensures EnteredInOrder(TradesNamed(vs, name))
  {
    if |vs| > 0 && vs[0].name != name {
      NamedInOrder(vs[1..], name);
    }
  }

  lemma WindowInOrder(
      vs: seq<Named>, base: string, ordinals: seq<int>, p: Plan, minTrades: int, cutoff: bool, i: nat)
    requires vs != [] && ValidPlan(p) && WindowAt(p, i).testEnd <= |ordinals|
    requires 0 <= WindowAt(p, i).trainStart < WindowAt(p, i).trainEnd
    requires forall v :: v in vs ==> EnteredInOrder(v.trades)
    ensures EnteredInOrder(MeasuredAt(vs, base, ordinals, p, minTrades, cutoff, i).trades)
  {
    hide Selected, TestEntries, Trades, EnteredInOrder;
    WindowsInOrder(p, i, i + 1);
    var name := PickedAt(vs, base, ordinals, p, minTrades, cutoff, i);
    NamedInOrder(vs, name);
    TestInOrder(TradesNamed(vs, name), ordinals, WindowAt(p, i));
  }

  lemma InOrderConcat(a: seq<Trade>, b: seq<Trade>)
    requires EnteredInOrder(a) && EnteredInOrder(b)
    requires forall x, y :: x in a && y in b ==> x.entryTime < y.entryTime
    ensures EnteredInOrder(a + b)
  {
  }

  /** So when the step is at least the test length the whole out-of-sample list of a walk is in strictly
      rising order of entry, although every window may have picked another variant. */
  lemma {:induction false} OutOfSampleInOrder(
      ws: seq<Measured>, vs: seq<Named>, base: string, ordinals: seq<int>, p: Plan, minTrades: int, cutoff: bool)
    requires Walked(ws, vs, base, ordinals, p, minTrades, cutoff) && p.stepDays >= p.testDays && Rises(ordinals)
    requires forall v :: v in vs ==> EnteredInOrder(v.trades)
    ensures EnteredInOrder(Picks(ws))
  {
    hide Rises, MeasuredAt, EnteredInOrder, ValidPlan, WindowAt;
    if |ws| == 0 {
      NothingInOrder();
    } else {
      var n := |ws| - 1;
      OutOfSampleInOrder(ws[..n], vs, base, ordinals, p, minTrades, cutoff);
      WindowInOrder(vs, base, ordinals, p, minTrades, cutoff, n);
      forall x, y | x in Picks(ws[..n]) && y in ws[n].trades
        ensures x.entryTime < y.entryTime
      {
        var i := PickedSomewhere(ws[..n], x);
        assert ws[..n][i] == ws[i];
        NoTradeTwice(vs, base, ordinals, p, minTrades, cutoff, i, n, x, y);
      }
      InOrderConcat(Picks(ws[..n]), ws[n].trades);
    }
  }

  lemma NothingInOrder()
    ensures EnteredInOrder([])
  {
  }

  /** And a test block holds only trades entered after every day of its own train block. */
  lemma TestAfterTrain(trades: seq<Trade>, ordinals: seq<int>, p: Plan, i: nat, e: Entry, k: nat)
    requires ValidPlan(p) && Rises(ordinals)
    requires 0 <= WindowAt(p, i).testStart < WindowAt(p, i).testEnd <= |ordinals|
    requires k < WindowAt(p, i).trainEnd && e in TestEntries(trades, ordinals, WindowAt(p, i))
    ensures e.day > ordinals[k]
  {
  }
}
