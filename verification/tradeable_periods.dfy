/** The historical bias scan: every daily bar from the sixth on is given the wick
    bias of the five bars before it, the SELL and BUY days are grouped into streaks
    separated by gaps of more than 3 days, streaks shorter than 3 days are dropped,
    and the longest five are recommended. Bar times are integer seconds (the broker's
    epoch seconds); a date is the day number `time / 86400`. */
module TradeablePeriods {
  import opened Market
  import opened Indicators

  /** One classified date: its day number, the bias, and the dominant wick's size. */
  datatype BiasDay = BiasDay(day: int, bias: Action, wickSize: real)

  /** The bot a bias day is good for: PainBot for SELL, GainBot for BUY. */
  function GoodFor(bias: Action): (bot: BotType)
    ensures BotAction(bot) == bias
  {
    match bias
    case Sell => Pain
    case Buy => Gain
  }

  const SecondsPerDay := 86400

  function DayOf(b: Bar): int {
    b.time / SecondsPerDay
  }

  /** The bias bar `i` is given: `check_wick_direction` on the five bars before it,
      which reads only the bar two before `i`; a window of five always has a direction. */
  function WindowBias(bars: seq<Bar>, i: nat): (w: WickBias)
    requires 5 <= i <= |bars|
    ensures w.direction != NoDirection
    ensures w.direction == Up <==> UpperWick(bars[i - 2]) > LowerWick(bars[i - 2])
    ensures w.direction == Down <==> UpperWick(bars[i - 2]) <= LowerWick(bars[i - 2])
  {
    var window := bars[i - 5..i];
    assert window[|window| - 2] == bars[i - 2];
    CheckWickDirection(window)
  }

  /** The direction that puts a date on the `side` list: DOWN for SELL, UP for BUY. */
  function DirectionFor(side: Action): Direction {
    if side == Sell then Down else Up
  }

  /** The `side` list after the bars before `n` are classified, in bar order. */
  function SideDays(bars: seq<Bar>, n: nat, side: Action): (days: seq<BiasDay>)
    requires n <= |bars|
    ensures |days| <= if n <= 5 then 0 else n - 5
    ensures forall k :: 0 <= k < |days| ==> days[k].bias == side
  {
    if n <= 5 then []
    else
      var w := WindowBias(bars, n - 1);
      SideDays(bars, n - 1, side) + (if w.direction == DirectionFor(side) then [BiasDay(DayOf(bars[n - 1]), side, w.size)] else [])
  }

  /** Every bar from the sixth on lands on exactly one of the two lists. */
  lemma {:induction false} EveryDayOnOneList(bars: seq<Bar>, n: nat)
    requires n <= |bars|
    ensures |SideDays(bars, n, Sell)| + |SideDays(bars, n, Buy)| == if n <= 5 then 0 else n - 5
  {
    if n > 5 {
      EveryDayOnOneList(bars, n - 1);
    }
  }

  /** The printed neutral count, the bars on neither list, is always the five warm-up bars. */
  lemma NeutralIsWarmup(bars: seq<Bar>)
    ensures |bars| - |SideDays(bars, |bars|, Sell)| - |SideDays(bars, |bars|, Buy)| == (if |bars| < 5 then |bars| else 5)
  {
    EveryDayOnOneList(bars, |bars|);
  }

  /** Bar times strictly increase. */
  predicate Chronological(bars: seq<Bar>) {
    forall i, j :: 0 <= i < j < |bars| ==> bars[i].time < bars[j].time
  }

  /** Dates in a list never go backwards. */
  predicate DaysAscending(p: seq<BiasDay>) {
    forall i, j :: 0 <= i < j < |p| ==> p[i].day <= p[j].day
  }

  lemma DayMonotone(a: int, b: int)
    requires a < b
    ensures a / SecondsPerDay <= b / SecondsPerDay
  {
  }

  /** On chronological bars both lists are in date order, and their dates come from bars after the fifth. */
  lemma {:induction false} SideDaysAscending(bars: seq<Bar>, n: nat, side: Action)
    requires n <= |bars| && Chronological(bars)
    ensures DaysAscending(SideDays(bars, n, side))
    ensures forall k :: 0 <= k < |SideDays(bars, n, side)| ==>
      exists i :: 5 <= i < n && SideDays(bars, n, side)[k].day == DayOf(bars[i])
  {
    if n > 5 {
      SideDaysAscending(bars, n - 1, side);
      var prev := SideDays(bars, n - 1, side);
      forall k | 0 <= k < |prev|
        ensures prev[k].day <= DayOf(bars[n - 1])
      {
        var i :| 5 <= i < n - 1 && prev[k].day == DayOf(bars[i]);
        DayMonotone(bars[i].time, bars[n - 1].time);
      }
    }
  }

  /** The classification loop: for every i from 5, the date of bar i goes to the
      SELL list on a DOWN bias and to the BUY list on an UP one. */
  method ClassifyDays(bars: seq<Bar>) returns (sells: seq<BiasDay>, buys: seq<BiasDay>)
    ensures sells == SideDays(bars, |bars|, Sell)
    ensures buys == SideDays(bars, |bars|, Buy)
  {
    sells, buys := [], [];
    if |bars| <= 5 {
      return;
    }
    for i := 5 to |bars|
      invariant sells == SideDays(bars, i, Sell) && buys == SideDays(bars, i, Buy)
    {
      var w := WindowBias(bars, i);
      var date := DayOf(bars[i]);
      if w.direction == Down {
        sells := sells + [BiasDay(date, Sell, w.size)];
      } else if w.direction == Up {
        buys := buys + [BiasDay(date, Buy, w.size)];
      }
    }
  }

  /** The largest gap, in days, that still continues a streak. */
  const MaxGapDays := 3

  /** The shortest streak worth recommending. */
  const MinStreakDays := 3

  function Flatten(rs: seq<seq<BiasDay>>): seq<BiasDay> {
    if rs == [] then [] else Flatten(rs[..|rs| - 1]) + Last(rs)
  }

  /** Every run of the list, kept or not: a new run starts where a date is more than
      3 days after the one before it. */
  function Runs(p: seq<BiasDay>): (rs: seq<seq<BiasDay>>)
    ensures rs == [] <==> p == []
    ensures forall k :: 0 <= k < |rs| ==> rs[k] != []
    ensures Flatten(rs) == p
  {
    if p == [] then []
    else
      var init := p[..|p| - 1];
      var rs := Runs(init);
      var x := Last(p);
      if init == [] then [[x]]
      else if x.day - Last(init).day <= MaxGapDays then
        assert Flatten(rs[..|rs| - 1] + [Last(rs) + [x]]) == Flatten(rs[..|rs| - 1]) + Last(rs) + [x] by {
          assert (rs[..|rs| - 1] + [Last(rs) + [x]])[..|rs| - 1] == rs[..|rs| - 1];
        }
        assert Flatten(rs) == Flatten(rs[..|rs| - 1]) + Last(rs);
        assert init + [x] == p;
        rs[..|rs| - 1] + [Last(rs) + [x]]
      else
        assert (rs + [[x]])[..|rs|] == rs;
        assert init + [x] == p;
        rs + [[x]]
  }

  /** Appending a date either extends the last run or opens a new one. */
  lemma RunsSnoc(init: seq<BiasDay>, x: BiasDay)
    ensures init == [] ==> Runs(init + [x]) == [[x]]
    ensures init != [] && x.day - Last(init).day <= MaxGapDays ==>
      Runs(init + [x]) == Runs(init)[..|Runs(init)| - 1] + [Last(Runs(init)) + [x]]
    ensures init != [] && x.day - Last(init).day > MaxGapDays ==> Runs(init + [x]) == Runs(init) + [[x]]
  {
    assert (init + [x])[..|init|] == init;
  }

  /** Inside a run consecutive dates are at most 3 days apart. */
  predicate Tight(r: seq<BiasDay>) {
    forall j :: 0 < j < |r| ==> r[j].day - r[j - 1].day <= MaxGapDays
  }

  /** The last run's last date is the list's last date. */
  lemma LastRunEndsList(p: seq<BiasDay>)
    requires p != []
    ensures Last(Last(Runs(p))) == Last(p)
  {
    var init := p[..|p| - 1];
    if init != [] && Last(p).day - Last(init).day <= MaxGapDays {
      assert Last(Runs(p)) == Last(Runs(init)) + [Last(p)];
    }
  }

  /** Every run is tight, and each starts more than 3 days after the one before ends. */
  predicate Maximal(rs: seq<seq<BiasDay>>) {
    (forall k :: 0 <= k < |rs| ==> rs[k] != [] && Tight(rs[k])) &&
    forall k :: 0 < k < |rs| ==> rs[k][0].day - Last(rs[k - 1]).day > MaxGapDays
  }

  /** A date within 3 days of the last run's end keeps the runs maximal when added to it. */
  lemma MaximalExtend(rs: seq<seq<BiasDay>>, x: BiasDay)
    requires rs != [] && Maximal(rs) && x.day - Last(Last(rs)).day <= MaxGapDays
    ensures Maximal(rs[..|rs| - 1] + [Last(rs) + [x]])
  {
    var r := Last(rs) + [x];
    assert Tight(r) by {
      forall j | 0 < j < |r|
        ensures r[j].day - r[j - 1].day <= MaxGapDays
      {
        if j < |r| - 1 {
          assert r[j] == Last(rs)[j] && r[j - 1] == Last(rs)[j - 1];
        }
      }
    }
    var rs': seq<seq<BiasDay>> := rs[..|rs| - 1] + [r];
    forall k | 0 < k < |rs'|
      ensures rs'[k][0].day - Last(rs'[k - 1]).day > MaxGapDays
    {
      assert rs'[k - 1] == rs[k - 1];
      assert rs'[k][0] == rs[k][0];
    }
  }

  /** A date more than 3 days after the last run's end keeps the runs maximal as a run of its own. */
  lemma MaximalOpen(rs: seq<seq<BiasDay>>, x: BiasDay)
    requires Maximal(rs) && (rs != [] ==> x.day - Last(Last(rs)).day > MaxGapDays)
    ensures Maximal(rs + [[x]])
  {
    var rs': seq<seq<BiasDay>> := rs + [[x]];
    forall k | 0 < k < |rs'|
      ensures rs'[k][0].day - Last(rs'[k - 1]).day > MaxGapDays
    {
      assert rs'[k - 1] == rs[k - 1];
    }
  }

  /** Adding one date to the list keeps its runs maximal. */
  lemma RunsSnocMaximal(init: seq<BiasDay>, x: BiasDay)
    requires Maximal(Runs(init))
    ensures Maximal(Runs(init + [x]))
  {
    RunsSnoc(init, x);
    if init == [] {
      MaximalOpen([], x);
    } else {
      LastRunEndsList(init);
      if x.day - Last(init).day <= MaxGapDays {
        MaximalExtend(Runs(init), x);
      } else {
        MaximalOpen(Runs(init), x);
      }
    }
  }

  /** Runs are tight inside and separated by more than 3 days from each other. */
  lemma {:induction false} RunsAreMaximal(p: seq<BiasDay>)
    ensures Maximal(Runs(p))
  {
    if p != [] {
      var init := p[..|p| - 1];
      RunsAreMaximal(init);
      RunsSnocMaximal(init, Last(p));
      assert p == init + [Last(p)];
    }
  }

  /** The runs long enough to recommend, in order. */
  function Long(rs: seq<seq<BiasDay>>): (ls: seq<seq<BiasDay>>)
    ensures |ls| <= |rs|
    ensures forall k :: 0 <= k < |ls| ==> |ls[k]| >= MinStreakDays && ls[k] in rs
  {
    if rs == [] then []
    else Long(rs[..|rs| - 1]) + (if |Last(rs)| >= MinStreakDays then [Last(rs)] else [])
  }

  lemma LongAppend(rs: seq<seq<BiasDay>>, r: seq<BiasDay>)
    ensures Long(rs + [r]) == Long(rs) + (if |r| >= MinStreakDays then [r] else [])
  {
    assert (rs + [r])[..|rs|] == rs;
  }

  /** A run is kept exactly when it has at least 3 days. */
  lemma {:induction false} LongMembers(rs: seq<seq<BiasDay>>)
    ensures forall r :: r in Long(rs) <==> r in rs && |r| >= MinStreakDays
  {
    if rs != [] {
      LongMembers(rs[..|rs| - 1]);
      assert rs == rs[..|rs| - 1] + [Last(rs)];
    }
  }

  /** The streak grouping of `analyze_daily_bias_history`: the runs of at least 3 days. */
  function Streaks(p: seq<BiasDay>): (s: seq<seq<BiasDay>>)
    ensures forall r :: r in s <==> r in Runs(p) && |r| >= MinStreakDays
  {
    LongMembers(Runs(p));
    Long(Runs(p))
  }

  /** One step of the grouping loop, stated on the runs of the prefix read so far. */
  lemma GroupStep(p: seq<BiasDay>, i: nat, closed: seq<seq<BiasDay>>, current: seq<BiasDay>)
    requires 0 < i < |p| && Runs(p[..i]) == closed + [current]
    ensures p[i].day - p[i - 1].day <= MaxGapDays ==> Runs(p[..i + 1]) == closed + [current + [p[i]]]
    ensures p[i].day - p[i - 1].day > MaxGapDays ==> Runs(p[..i + 1]) == (closed + [current]) + [[p[i]]]
  {
    assert p[..i + 1] == p[..i] + [p[i]];
    assert Last(p[..i]) == p[i - 1];
    RunsSnoc(p[..i], p[i]);
    assert (closed + [current])[..|closed|] == closed;
  }

  /** Takes date `p[i]` into the open run `current`, or closes `current` (keeping it
      when it has at least 3 dates) and opens a new run with `p[i]`. */
  method TakeDate(p: seq<BiasDay>, i: nat, ghost closed: seq<seq<BiasDay>>, current: seq<BiasDay>,
                  streaks: seq<seq<BiasDay>>)
    returns (ghost closed': seq<seq<BiasDay>>, current': seq<BiasDay>, streaks': seq<seq<BiasDay>>)
    requires 0 < i < |p| && Runs(p[..i]) == closed + [current] && streaks == Long(closed)
    ensures Runs(p[..i + 1]) == closed' + [current'] && streaks' == Long(closed')
  {
    GroupStep(p, i, closed, current);
    if p[i].day - p[i - 1].day <= MaxGapDays {
      closed', current', streaks' := closed, current + [p[i]], streaks;
    } else {
      LongAppend(closed, current);
      streaks' := streaks;
      if |current| >= MinStreakDays {
        streaks' := streaks + [current];
      }
      closed', current' := closed + [current], [p[i]];
    }
  }

  /** The grouping loop: `current` is the open run; a closed run is kept when it has
      at least 3 dates, and so is the last one after the loop. */
  method GroupStreaks(p: seq<BiasDay>) returns (streaks: seq<seq<BiasDay>>)
    ensures streaks == Streaks(p)
  {
    streaks := [];
    if p == [] {
      return;
    }
    var current := [p[0]];
    ghost var closed: seq<seq<BiasDay>> := [];
    assert p[..1] == [p[0]];
    for i := 1 to |p|
      invariant Runs(p[..i]) == closed + [current]
      invariant streaks == Long(closed)
    {
      closed, current, streaks := TakeDate(p, i, closed, current, streaks);
    }
    assert p[..|p|] == p;
    LongAppend(closed, current);
    if |current| >= MinStreakDays {
      streaks := streaks + [current];
    }
  }

  /** Lengths never increase along the list. */
  predicate LongestFirst(s: seq<seq<BiasDay>>) {
    forall i, j :: 0 <= i < j < |s| ==> |s[i]| >= |s[j]|
  }

  /** Puts `x` before the first strictly shorter streak: after every streak at least as long. */
  function Insert(x: seq<BiasDay>, s: seq<seq<BiasDay>>): (r: seq<seq<BiasDay>>)
    ensures |r| == |s| + 1
  {
    if s == [] then [x]
    else if |s[0]| < |x| then [x] + s
    else [s[0]] + Insert(x, s[1..])
  }

  lemma {:induction false} InsertIsPermutation(x: seq<BiasDay>, s: seq<seq<BiasDay>>)
    ensures multiset(Insert(x, s)) == multiset(s) + multiset{x}
  {
    if s != [] && |s[0]| >= |x| {
      InsertIsPermutation(x, s[1..]);
      assert s == [s[0]] + s[1..];
      assert multiset(Insert(x, s)) == multiset([s[0]]) + multiset(Insert(x, s[1..]));
    }
  }

  /** No streak longer than `m` comes out of inserting into streaks no longer than `m`. */
  lemma {:induction false} InsertBounded(x: seq<BiasDay>, s: seq<seq<BiasDay>>, m: nat)
    requires |x| <= m
    requires forall k :: 0 <= k < |s| ==> |s[k]| <= m
    ensures forall k :: 0 <= k < |Insert(x, s)| ==> |Insert(x, s)[k]| <= m
  {
    if s != [] && |s[0]| >= |x| {
      InsertBounded(x, s[1..], m);
    }
  }

  lemma {:induction false} InsertKeepsOrder(x: seq<BiasDay>, s: seq<seq<BiasDay>>)
    requires LongestFirst(s)
    ensures LongestFirst(Insert(x, s))
  {
    if s != [] && |s[0]| >= |x| {
      assert LongestFirst(s[1..]);
      InsertKeepsOrder(x, s[1..]);
      InsertBounded(x, s[1..], |s[0]|);
    }
  }

  /** `streaks.sort(key=len, reverse=True)`: an insertion sort, taking the streaks in order. */
  function SortByLength(s: seq<seq<BiasDay>>): (r: seq<seq<BiasDay>>)
    ensures |r| == |s|
  {
    if s == [] then [] else Insert(Last(s), SortByLength(s[..|s| - 1]))
  }

  /** The sort is ordered longest first and a permutation of its input. */
  lemma {:induction false} SortIsPermutation(s: seq<seq<BiasDay>>)
    ensures LongestFirst(SortByLength(s))
    ensures multiset(SortByLength(s)) == multiset(s)
  {
    if s != [] {
      SortIsPermutation(s[..|s| - 1]);
      InsertKeepsOrder(Last(s), SortByLength(s[..|s| - 1]));
      InsertIsPermutation(Last(s), SortByLength(s[..|s| - 1]));
      assert s == s[..|s| - 1] + [Last(s)];
    }
  }

  /** The streaks of one length, in order. */
  function OfLength(s: seq<seq<BiasDay>>, n: nat): seq<seq<BiasDay>> {
    if s == [] then [] else OfLength(s[..|s| - 1], n) + (if |Last(s)| == n then [Last(s)] else [])
  }

  lemma OfLengthCons(x: seq<BiasDay>, s: seq<seq<BiasDay>>, n: nat)
    ensures OfLength([x] + s, n) == (if |x| == n then [x] else []) + OfLength(s, n)
    decreases |s|
  {
    if s != [] {
      assert ([x] + s)[..|s|] == [x] + s[..|s| - 1];
      OfLengthCons(x, s[..|s| - 1], n);
    } else {
      assert [x] + s == [x];
    }
  }

  lemma {:induction false} OfLengthShorter(s: seq<seq<BiasDay>>, n: nat)
    requires forall k :: 0 <= k < |s| ==> |s[k]| < n
    ensures OfLength(s, n) == []
  {
    if s != [] {
      OfLengthShorter(s[..|s| - 1], n);
    }
  }

  /** Inserting `x` adds it behind the streaks of its own length and leaves the others alone. */
  lemma {:induction false} InsertIsStable(x: seq<BiasDay>, s: seq<seq<BiasDay>>, n: nat)
    requires LongestFirst(s)
    ensures OfLength(Insert(x, s), n) == OfLength(s, n) + (if |x| == n then [x] else [])
    decreases |s|, 1
  {
    if s == [] {
      assert OfLength([x], n) == OfLength([], n) + (if |x| == n then [x] else []);
    } else if |s[0]| < |x| {
      OfLengthCons(x, s, n);
      if |x| == n {
        OfLengthShorter(s, n);
      }
    } else {
      InsertBehindIsStable(x, s, n);
    }
  }

  /** The case of `InsertIsStable` where `x` goes behind the first streak. */
  lemma {:induction false} InsertBehindIsStable(x: seq<BiasDay>, s: seq<seq<BiasDay>>, n: nat)
    requires LongestFirst(s) && s != [] && |s[0]| >= |x|
    ensures OfLength(Insert(x, s), n) == OfLength(s, n) + (if |x| == n then [x] else [])
    decreases |s|, 0
  {
    var r := Insert(x, s[1..]);
    var head := if |s[0]| == n then [s[0]] else [];
    assert Insert(x, s) == [s[0]] + r;
    assert [s[0]] + s[1..] == s;
    assert LongestFirst(s[1..]);
    InsertIsStable(x, s[1..], n);
    OfLengthCons(s[0], r, n);
    OfLengthCons(s[0], s[1..], n);
    var tail := if |x| == n then [x] else [];
    assert OfLength(s, n) == head + OfLength(s[1..], n);
    calc {
      OfLength(Insert(x, s), n);
      head + OfLength(r, n);
      head + (OfLength(s[1..], n) + tail);
      { ConcatAssoc(head, OfLength(s[1..], n), tail); }
      (head + OfLength(s[1..], n)) + tail;
      OfLength(s, n) + tail;
    }
  }

  /** The sort is stable: streaks of equal length keep their original order. */
  lemma {:induction false} SortIsStable(s: seq<seq<BiasDay>>, n: nat)
    ensures OfLength(SortByLength(s), n) == OfLength(s, n)
  {
    if s != [] {
      SortIsStable(s[..|s| - 1], n);
      SortIsPermutation(s[..|s| - 1]);
      InsertIsStable(Last(s), SortByLength(s[..|s| - 1]), n);
    }
  }

  /** The position the in-place insertion finds is where `Insert` puts `x`. */
  lemma {:induction false} InsertAt(x: seq<BiasDay>, s: seq<seq<BiasDay>>, j: nat)
    requires LongestFirst(s) && j <= |s|
    requires forall k :: j <= k < |s| ==> |s[k]| < |x|
    requires j == 0 || |s[j - 1]| >= |x|
    ensures Insert(x, s) == s[..j] + [x] + s[j..]
  {
    if j > 0 {
      assert |s[0]| >= |s[j - 1]|;
      InsertAt(x, s[1..], j - 1);
      assert s[1..][..j - 1] == s[1..j];
      assert s[1..][j - 1..] == s[j..];
      assert s[..j] == [s[0]] + s[1..j];
    } else if s != [] {
      assert s[..0] + [x] + s[0..] == [x] + s;
    }
  }

  /** One pass of the insertion sort: `a[i]` moves left past every shorter streak. */
  method InsertLast(a: array<seq<BiasDay>>, i: nat)
    requires i < a.Length && LongestFirst(a[..i])
    modifies a
    ensures a[..i + 1] == Insert(old(a[i]), old(a[..i]))
    ensures forall k :: i < k < a.Length ==> a[k] == old(a[k])
  {
    ghost var s := a[..i];
    var x := a[i];
    var j := i;
    while j > 0 && |a[j - 1]| < |x|
      invariant 0 <= j <= i
      invariant forall k :: 0 <= k < j ==> a[k] == s[k]
      invariant forall k :: j < k <= i ==> a[k] == s[k - 1]
      invariant forall k :: j <= k < i ==> |s[k]| < |x|
      invariant forall k :: i < k < a.Length ==> a[k] == old(a[k])
    {
      a[j] := a[j - 1];
      j := j - 1;
    }
    a[j] := x;
    InsertAt(x, s, j);
    Shifted(a[..], s, x, j);
  }

  /** The array after the shift: `s` with `x` placed at `j`. */
  lemma Shifted(arr: seq<seq<BiasDay>>, s: seq<seq<BiasDay>>, x: seq<BiasDay>, j: nat)
    requires j <= |s| < |arr|
    requires forall k :: 0 <= k < j ==> arr[k] == s[k]
    requires arr[j] == x
    requires forall k :: j < k <= |s| ==> arr[k] == s[k - 1]
    ensures arr[..|s| + 1] == s[..j] + [x] + s[j..]
  {
    var r := s[..j] + [x] + s[j..];
    forall k | 0 <= k <= |s|
      ensures arr[k] == r[k]
    {
      if k > j {
        assert r[k] == s[k - 1];
      }
    }
  }

  /** `streaks.sort(key=lambda x: len(x), reverse=True)`, in place. */
  method SortStreaks(a: array<seq<BiasDay>>)
    modifies a
    ensures a[..] == SortByLength(old(a[..]))
  {
    ghost var input := a[..];
    for i := 0 to a.Length
      invariant a[..i] == SortByLength(input[..i])
      invariant forall k :: i <= k < a.Length ==> a[k] == input[k]
    {
      SortIsPermutation(input[..i]);
      assert input[..i + 1] == input[..i] + [input[i]];
      InsertLast(a, i);
    }
    assert input[..a.Length] == input;
  }

  /** `streaks[:5]`. */
  function TopFive(s: seq<seq<BiasDay>>): (r: seq<seq<BiasDay>>)
    ensures |r| <= 5 && r <= s
    ensures |s| <= 5 ==> r == s
  {
    if |s| <= 5 then s else s[..5]
  }

  /** The recommended streaks of one list: kept streaks, longest first, at most five. */
  function Recommended(p: seq<BiasDay>): (r: seq<seq<BiasDay>>)
    ensures |Streaks(p)| <= 5 ==> multiset(r) == multiset(Streaks(p))
    ensures |Streaks(p)| > 5 ==> |r| == 5
  {
    SortIsPermutation(Streaks(p));
    TopFive(SortByLength(Streaks(p)))
  }

  /** What the recommendation promises: at most five streaks, longest first, each of at
      least 3 dates that are at most 3 days apart, all taken from the list. */
  lemma RecommendedShape(p: seq<BiasDay>)
    ensures |Recommended(p)| <= 5
    ensures LongestFirst(Recommended(p))
    ensures forall k :: 0 <= k < |Recommended(p)| ==>
      |Recommended(p)[k]| >= MinStreakDays && Tight(Recommended(p)[k]) && Recommended(p)[k] in Runs(p)
  {
    var sorted := SortByLength(Streaks(p));
    SortIsPermutation(Streaks(p));
    RunsAreMaximal(p);
    forall k | 0 <= k < |Recommended(p)|
      ensures |Recommended(p)[k]| >= MinStreakDays && Tight(Recommended(p)[k]) && Recommended(p)[k] in Runs(p)
    {
      var r := Recommended(p)[k];
      assert r == sorted[k];
      assert r in multiset(Streaks(p));
      assert r in Streaks(p);
    }
  }

  /** How one scan ends: the broker could not be initialised, no bars came back,
      or the two lists, the neutral count and the recommended streaks. */
  datatype Analysis =
    | InitFailed
    | NoData
    | Analysed(sells: seq<BiasDay>, buys: seq<BiasDay>, neutral: int,
               sellStreaks: seq<seq<BiasDay>>, buyStreaks: seq<seq<BiasDay>>)

  /** The recommendation of one list, computed as the scan does: group, sort in place, take five. */
  method Recommend(p: seq<BiasDay>) returns (top: seq<seq<BiasDay>>)
    ensures top == Recommended(p)
  {
    if p == [] {
      return [];
    }
    var streaks := GroupStreaks(p);
    var a := new seq<BiasDay>[|streaks|](k requires 0 <= k < |streaks| => streaks[k]);
    assert a[..] == streaks;
    SortStreaks(a);
    top := if a.Length <= 5 then a[..] else a[..5];
  }

  /** `analyze_daily_bias_history` on the daily bars the broker returned. */
  method AnalyzeBiasHistory(initialized: bool, rates: Option<seq<Bar>>) returns (r: Analysis)
    ensures !initialized ==> r == InitFailed
    ensures initialized && (rates.None? || rates.value == []) ==> r == NoData
    ensures initialized && rates.Some? && rates.value != [] ==>
      var bars := rates.value;
      && r == Analysed(SideDays(bars, |bars|, Sell), SideDays(bars, |bars|, Buy), (if |bars| < 5 then |bars| else 5),
                       Recommended(SideDays(bars, |bars|, Sell)), Recommended(SideDays(bars, |bars|, Buy)))
  {
    if !initialized {
      return InitFailed;
    }
    if rates.None? || rates.value == [] {
      return NoData;
    }
    var bars := rates.value;
    var sells, buys := ClassifyDays(bars);
    NeutralIsWarmup(bars);
    var sellTop := Recommend(sells);
    var buyTop := Recommend(buys);
    r := Analysed(sells, buys, |bars| - |sells| - |buys|, sellTop, buyTop);
  }
}
