/** The stopwatch state machine: the running state derived from the
    record, the effect of the two buttons on the record, the split and lap
    durations, and the view model object whose published fields the
    display observes. */
module StopwatchViewModel {
  import opened StopwatchModel

  // ---------------------------------------------------------------------
  // Running state

  datatype RunningState = Running | Stop | Empty

  /** `runningState()`: derived from the lengths of the start and stop
      sequences alone. */
  function StateOf(m: Stopwatch): (r: RunningState)
    ensures r == Empty <==> |m.startTimes| == 0
    ensures r == Stop <==> |m.startTimes| > 0 && |m.startTimes| == |m.stopTimes|
    ensures r == Running <==> |m.startTimes| > 0 && |m.startTimes| != |m.stopTimes|
  {
    if |m.startTimes| == 0 then Empty
    else if |m.startTimes| == |m.stopTimes| then Stop
    else Running
  }

  /** The shape every reachable record has: at most one start more than
      stops, and no lap without a start. */
  ghost predicate Balanced(m: Stopwatch)
  {
    && |m.stopTimes| <= |m.startTimes| <= |m.stopTimes| + 1
    && (|m.lapTimes| > 0 ==> |m.startTimes| > 0)
  }

  /** On a balanced record, running means exactly one unmatched start. */
  lemma RunningIsOneUnmatchedStart(m: Stopwatch)
    requires Balanced(m)
    ensures StateOf(m) == Running <==> |m.startTimes| == |m.stopTimes| + 1
    ensures StateOf(m) == Empty ==> m.stopTimes == [] && m.lapTimes == []
  {
  }

  // ---------------------------------------------------------------------
  // The two buttons, as transitions of the record

  /** The effect of `rightBtnTapped()` on the record. */
  function PrimaryTap(m: Stopwatch, now: Date): (r: Stopwatch)
    ensures StateOf(m) != Running ==>
      r.startTimes == m.startTimes + [now] && r.stopTimes == m.stopTimes
    ensures StateOf(m) == Running ==>
      r.startTimes == m.startTimes && r.stopTimes == m.stopTimes + [now]
    ensures r.lapTimes == m.lapTimes && r.name == m.name
    ensures Balanced(m) ==> Balanced(r)
    ensures Balanced(m) ==> StateOf(r) == (if StateOf(m) == Running then Stop else Running)
  {
    match StateOf(m)
    case Empty | Stop => m.(startTimes := m.startTimes + [now])
    case Running => m.(stopTimes := m.stopTimes + [now])
  }

  /** The effect of `leftBtnTapped()` on the record. */
  function SecondaryTap(m: Stopwatch, now: Date): (r: Stopwatch)
    ensures StateOf(m) != Running ==>
      r.startTimes == [] && r.stopTimes == [] && r.lapTimes == []
    ensures StateOf(m) == Running ==>
      r.startTimes == m.startTimes && r.stopTimes == m.stopTimes
      && r.lapTimes == m.lapTimes + [now]
    ensures r.name == m.name
    ensures Balanced(m) ==> Balanced(r)
    ensures StateOf(r) == (if StateOf(m) == Running then Running else Empty)
  {
    match StateOf(m)
    case Empty | Stop => m.(startTimes := [], stopTimes := [], lapTimes := [])
    case Running => m.(lapTimes := m.lapTimes + [now])
  }

  /** A button press at a given time. */
  datatype Tap = Primary(at: Date) | Secondary(at: Date)

  function Apply(m: Stopwatch, tap: Tap): Stopwatch
  {
    match tap
    case Primary(t) => PrimaryTap(m, t)
    case Secondary(t) => SecondaryTap(m, t)
  }

  /** The record after a sequence of button presses, in order. */
  function Replay(m: Stopwatch, taps: seq<Tap>): Stopwatch
    decreases |taps|
  {
    if taps == [] then m else Replay(Apply(m, taps[0]), taps[1..])
  }

  /** Whatever the presses, a record that starts balanced stays balanced
      and keeps its name. */
  lemma {:induction false} ReplayKeepsBalance(m: Stopwatch, taps: seq<Tap>)
    requires Balanced(m)
    ensures Balanced(Replay(m, taps))
    ensures Replay(m, taps).name == m.name
    decreases |taps|
  {
    if taps != [] {
      ReplayKeepsBalance(Apply(m, taps[0]), taps[1..]);
    }
  }

  /** From a fresh record, every sequence of presses leaves
      |stopTimes| <= |startTimes| <= |stopTimes| + 1, laps only with
      starts, and the name "Name". */
  lemma ReachableIsBalanced(taps: seq<Tap>)
    ensures var m := Replay(NewStopwatch(), taps);
      |m.stopTimes| <= |m.startTimes| <= |m.stopTimes| + 1
      && (|m.lapTimes| > 0 ==> |m.startTimes| > 0)
      && m.name == "Name"
  {
    ReplayKeepsBalance(NewStopwatch(), taps);
  }

  // ---------------------------------------------------------------------
  // Chronology: the events of a record in wall-clock order, as they are
  // when every press reads a clock that never goes back. Starts and stops
  // alternate in time, laps are in order and come after the first start,
  // and nothing is later than the time `t`.

  /** Each start is no earlier than the first, each stop no earlier than
      its start, and each resume no earlier than the stop before it. */
  ghost predicate RunsInOrder(m: Stopwatch)
  {
    && (forall i :: 0 <= i < |m.startTimes| ==> m.startTimes[0] <= m.startTimes[i])
    && (forall i :: 0 <= i < |m.stopTimes| && i < |m.startTimes| ==>
          m.startTimes[i] <= m.stopTimes[i])
    && (forall i :: 0 <= i < |m.stopTimes| && i + 1 < |m.startTimes| ==>
          m.stopTimes[i] <= m.startTimes[i + 1])
  }

  /** Laps are in non-decreasing order and none is before the first start. */
  ghost predicate LapsInOrder(m: Stopwatch)
  {
    && (forall i, j :: 0 <= i < j < |m.lapTimes| ==> m.lapTimes[i] <= m.lapTimes[j])
    && (|m.lapTimes| > 0 && |m.startTimes| > 0 ==> m.startTimes[0] <= m.lapTimes[0])
  }

  /** No event is later than `t`, and while stopped no lap is later than
      the last stop. */
  ghost predicate NotAfter(m: Stopwatch, t: Date)
  {
    && (|m.startTimes| > 0 ==> Last(m.startTimes) <= t)
    && (|m.stopTimes| > 0 ==> Last(m.stopTimes) <= t)
    && (|m.lapTimes| > 0 ==> Last(m.lapTimes) <= t)
    && (|m.lapTimes| > 0 && StateOf(m) == Stop ==> Last(m.lapTimes) <= Last(m.stopTimes))
  }

  ghost predicate Chronological(m: Stopwatch, t: Date)
  {
    Balanced(m) && RunsInOrder(m) && LapsInOrder(m) && NotAfter(m, t)
  }

  /** STOP read from a clock at or after every earlier event. */
  lemma StopTapKeepsChronology(m: Stopwatch, t: Date, now: Date)
    requires Chronological(m, t) && t <= now && StateOf(m) == Running
    ensures Chronological(PrimaryTap(m, now), now)
  {
    var r := PrimaryTap(m, now);
    assert r.startTimes == m.startTimes && r.lapTimes == m.lapTimes;
    forall i | 0 <= i < |r.stopTimes| && i < |r.startTimes|
      ensures r.startTimes[i] <= r.stopTimes[i]
    {
      if i == |m.stopTimes| {
        assert r.startTimes[i] == Last(m.startTimes);
      }
    }
    assert RunsInOrder(r);
    assert LapsInOrder(r);
  }

  /** Appending a start at `now` after matched runs that all end by `now`
      keeps the runs in order. */
  lemma AppendStartKeepsRuns(m: Stopwatch, now: Date)
    requires RunsInOrder(m) && 0 < |m.startTimes| == |m.stopTimes|
    requires Last(m.startTimes) <= now && Last(m.stopTimes) <= now
    ensures RunsInOrder(m.(startTimes := m.startTimes + [now]))
  {
    var starts := m.startTimes + [now];
    var n := |m.startTimes|;
    assert m.startTimes[0] <= m.startTimes[n - 1];
    forall i | 0 <= i <= n
      ensures starts[0] <= starts[i]
    {
      if i < n {
        assert starts[i] == m.startTimes[i];
      }
    }
    forall i | 0 <= i < n
      ensures starts[i] <= m.stopTimes[i] && m.stopTimes[i] <= starts[i + 1]
    {
      assert starts[i] == m.startTimes[i];
      if i + 1 < n {
        assert starts[i + 1] == m.startTimes[i + 1];
      }
    }
  }

  /** START read from a clock at or after every earlier event. */
  lemma StartTapKeepsChronology(m: Stopwatch, t: Date, now: Date)
    requires Chronological(m, t) && t <= now && StateOf(m) != Running
    ensures Chronological(PrimaryTap(m, now), now)
  {
    var r := PrimaryTap(m, now);
    assert r == m.(startTimes := m.startTimes + [now]);
    if m.startTimes == [] {
      assert m.stopTimes == [] && m.lapTimes == [];
      assert r.startTimes == [now];
    } else {
      AppendStartKeepsRuns(m, now);
      assert r.startTimes[0] == m.startTimes[0];
      assert LapsInOrder(r);
    }
    assert StateOf(r) == Running;
  }

  /** LAP or RESET read from a clock at or after every earlier event. */
  lemma SecondaryKeepsChronology(m: Stopwatch, t: Date, now: Date)
    requires Chronological(m, t) && t <= now
    ensures Chronological(SecondaryTap(m, now), now)
  {
    var r := SecondaryTap(m, now);
    if StateOf(m) == Running {
      assert r.startTimes == m.startTimes && r.stopTimes == m.stopTimes;
      assert m.startTimes[0] <= Last(m.startTimes);
      forall i, j | 0 <= i < j < |r.lapTimes|
        ensures r.lapTimes[i] <= r.lapTimes[j]
      {
        if j == |m.lapTimes| && i < j - 1 {
          assert m.lapTimes[i] <= Last(m.lapTimes);
        }
      }
      assert LapsInOrder(r);
      assert RunsInOrder(r);
    }
  }

  /** A press read from a clock at or after every earlier event keeps the
      record in wall-clock order. */
  lemma TapKeepsChronology(m: Stopwatch, t: Date, tap: Tap)
    requires Chronological(m, t) && t <= tap.at
    ensures Chronological(Apply(m, tap), tap.at)
  {
    match tap
    case Primary(now) =>
      if StateOf(m) == Running {
        StopTapKeepsChronology(m, t, now);
      } else {
        StartTapKeepsChronology(m, t, now);
      }
    case Secondary(now) => SecondaryKeepsChronology(m, t, now);
  }

  /** The presses happen at `t` or later, in non-decreasing time order. */
  ghost predicate TimedFrom(t: Date, taps: seq<Tap>)
    decreases |taps|
  {
    taps == [] || (t <= taps[0].at && TimedFrom(taps[0].at, taps[1..]))
  }

  /** The time of the last press, or `t` when there is none. */
  function EndTime(t: Date, taps: seq<Tap>): Date
  {
    if taps == [] then t else taps[|taps| - 1].at
  }

  /** Presses at non-decreasing times keep a record in wall-clock order. */
  lemma {:induction false} ReplayKeepsChronology(m: Stopwatch, t: Date, taps: seq<Tap>)
    requires Chronological(m, t) && TimedFrom(t, taps)
    ensures Chronological(Replay(m, taps), EndTime(t, taps))
    decreases |taps|
  {
    if taps != [] {
      TapKeepsChronology(m, t, taps[0]);
      ReplayKeepsChronology(Apply(m, taps[0]), taps[0].at, taps[1..]);
      assert EndTime(taps[0].at, taps[1..]) == EndTime(t, taps);
    }
  }

  // ---------------------------------------------------------------------
  // Split time: running time accumulated over all start/stop pairs

  /** The total of `stops[i] - starts[i]` over the first `n` indices. */
  function PairedSum(starts: seq<Date>, stops: seq<Date>, n: nat): Duration
    requires n <= |starts| && n <= |stops|
  {
    if n == 0 then 0 else PairedSum(starts, stops, n - 1) + (stops[n - 1] - starts[n - 1])
  }

  /** The value `culcSplitTime(time:)` returns. */
  function SplitTime(m: Stopwatch, t: Date): Duration
    requires |m.stopTimes| <= |m.startTimes|
  {
    if |m.startTimes| == 0 then 0
    else if |m.stopTimes| == 0 then
      (if t - Last(m.startTimes) > 0 then t - Last(m.startTimes) else 0)
    else
      var paired := PairedSum(m.startTimes, m.stopTimes, |m.stopTimes|);
      if |m.startTimes| == |m.stopTimes| then paired
      else paired + (t - Last(m.startTimes))
  }

  /** Extending both sequences does not change a sum over a prefix. */
  lemma {:induction false} PairedSumPrefix(starts: seq<Date>, stops: seq<Date>,
                                           moreStarts: seq<Date>, moreStops: seq<Date>, n: nat)
    requires n <= |starts| && n <= |stops|
    ensures PairedSum(starts + moreStarts, stops + moreStops, n) == PairedSum(starts, stops, n)
  {
    if n > 0 {
      PairedSumPrefix(starts, stops, moreStarts, moreStops, n - 1);
    }
  }

  /** While stopped (or never started) the split does not depend on the
      clock; while stopped it is the sum over all completed pairs. */
  lemma SplitFrozenWhileStopped(m: Stopwatch, t1: Date, t2: Date)
    requires |m.stopTimes| <= |m.startTimes|
    requires StateOf(m) != Running
    ensures SplitTime(m, t1) == SplitTime(m, t2)
    ensures SplitTime(m, t1) == PairedSum(m.startTimes, m.stopTimes, |m.stopTimes|)
  {
    if StateOf(m) == Empty {
      assert PairedSum(m.startTimes, m.stopTimes, 0) == 0;
    }
  }

  /** While running, from the last start on, the split grows exactly as
      the clock does. */
  lemma SplitAdvancesWhileRunning(m: Stopwatch, t1: Date, t2: Date)
    requires Balanced(m) && StateOf(m) == Running
    requires Last(m.startTimes) <= t1
    ensures SplitTime(m, t2) == SplitTime(m, t1) + (t2 - t1)
      || (|m.stopTimes| == 0 && t2 < Last(m.startTimes) && SplitTime(m, t2) == 0)
  {
  }

  /** Stopping at `t` freezes the split at exactly the value it had at
      `t`: nothing is lost on pause. */
  lemma StopKeepsSplit(m: Stopwatch, t: Date, later: Date)
    requires Balanced(m) && StateOf(m) == Running
    requires Last(m.startTimes) <= t
    ensures SplitTime(PrimaryTap(m, t), later) == SplitTime(m, t)
  {
    var r := PrimaryTap(m, t);
    var n := |m.stopTimes|;
    assert r.startTimes == m.startTimes[..n] + [Last(m.startTimes)];
    PairedSumPrefix(m.startTimes[..n], m.stopTimes, [Last(m.startTimes)], [t], n);
    assert m.startTimes[..n] + [Last(m.startTimes)] == m.startTimes;
    if n > 0 {
      PairedSumPrefix(m.startTimes[..n], m.stopTimes, [Last(m.startTimes)], [], n);
      assert m.stopTimes + [] == m.stopTimes;
    }
  }

  /** Resuming at `t` continues from the frozen split: the value at any
      later time is the split at `t` plus the time since the resume. */
  lemma ResumeContinuesSplit(m: Stopwatch, t: Date, later: Date)
    requires Balanced(m) && StateOf(m) != Running
    requires t <= later
    ensures SplitTime(PrimaryTap(m, t), later) == SplitTime(m, t) + (later - t)
  {
    if StateOf(m) == Stop {
      var n := |m.stopTimes|;
      PairedSumPrefix(m.startTimes, m.stopTimes, [t], [], n);
      assert m.stopTimes + [] == m.stopTimes;
    }
  }

  /** Over chronological pairs, the sum of the first `n` segments lies
      between zero and the span from the first start to the `n`-th stop. */
  lemma {:induction false} PairedSumBounds(starts: seq<Date>, stops: seq<Date>, n: nat)
    requires 0 < n <= |stops| <= |starts|
    requires forall i :: 0 <= i < |stops| && i < |starts| ==> starts[i] <= stops[i]
    requires forall i :: 0 <= i < |stops| && i + 1 < |starts| ==> stops[i] <= starts[i + 1]
    ensures 0 <= PairedSum(starts, stops, n) <= stops[n - 1] - starts[0]
  {
    if n > 1 {
      PairedSumBounds(starts, stops, n - 1);
      assert stops[n - 2] <= starts[n - 1];
    }
  }

  /** In a chronological record, the split is never negative and never
      more than the wall time since the first start. */
  lemma SplitBounds(m: Stopwatch, t: Date)
    requires Chronological(m, t) && |m.startTimes| > 0
    ensures 0 <= SplitTime(m, t) <= t - m.startTimes[0]
  {
    var n := |m.stopTimes|;
    assert RunsInOrder(m);
    if n > 0 {
      PairedSumBounds(m.startTimes, m.stopTimes, n);
      if n < |m.startTimes| {
        assert m.stopTimes[n - 1] <= m.startTimes[n];
      }
    }
  }

  // ---------------------------------------------------------------------
  // Lap time

  /** The value `culcLapTime(time:)` returns. */
  function LapTime(m: Stopwatch, t: Date): Duration
    requires |m.stopTimes| <= |m.startTimes|
    requires |m.lapTimes| > 0 ==> |m.startTimes| > 0
  {
    if |m.lapTimes| == 0 then SplitTime(m, t)
    else
      var effective :=
        if |m.startTimes| == |m.stopTimes| && |m.stopTimes| > 0 then Last(m.stopTimes) else t;
      if Last(m.startTimes) - Last(m.lapTimes) > 0 then effective - Last(m.startTimes)
      else effective - Last(m.lapTimes)
  }

  /** While stopped the lap time, like the split, does not depend on the
      clock. */
  lemma LapFrozenWhileStopped(m: Stopwatch, t1: Date, t2: Date)
    requires Balanced(m) && StateOf(m) != Running
    ensures LapTime(m, t1) == LapTime(m, t2)
  {
    SplitFrozenWhileStopped(m, t1, t2);
  }

  /** Stopping at `t` freezes the lap time at exactly the value it had at
      `t`, with or without laps. */
  lemma StopKeepsLap(m: Stopwatch, t: Date, later: Date)
    requires Balanced(m) && StateOf(m) == Running
    requires |m.lapTimes| > 0 || Last(m.startTimes) <= t
    ensures LapTime(PrimaryTap(m, t), later) == LapTime(m, t)
  {
    if |m.lapTimes| == 0 {
      StopKeepsSplit(m, t, later);
    }
  }

  /** A lap recorded at `t` restarts the lap clock at `t`. */
  lemma LapCountsFromLapMark(m: Stopwatch, t: Date, later: Date)
    requires Balanced(m) && StateOf(m) == Running
    requires Last(m.startTimes) <= t
    ensures LapTime(SecondaryTap(m, t), later) == later - t
  {
  }

  /** A resume strictly after the last lap restarts the lap clock at the
      resume, not at the stale lap mark. */
  lemma LapRestartsOnResume(m: Stopwatch, t: Date, later: Date)
    requires Balanced(m) && StateOf(m) == Stop && |m.lapTimes| > 0
    requires Last(m.lapTimes) < t
    ensures LapTime(PrimaryTap(m, t), later) == later - t
  {
  }

  /** In a chronological record the current lap is never negative and
      never longer than the split. */
  lemma LapWithinSplit(m: Stopwatch, t: Date)
    requires Chronological(m, t)
    ensures 0 <= LapTime(m, t) <= SplitTime(m, t)
  {
    if |m.lapTimes| == 0 {
      if |m.startTimes| > 0 {
        SplitBounds(m, t);
      }
    } else {
      var n := |m.stopTimes|;
      assert RunsInOrder(m) && NotAfter(m, t);
      if StateOf(m) == Running {
        if n > 0 {
          PairedSumBounds(m.startTimes, m.stopTimes, n);
        }
      } else {
        assert m.startTimes[n - 1] <= m.stopTimes[n - 1];
        if n > 1 {
          PairedSumBounds(m.startTimes, m.stopTimes, n - 1);
        }
        assert PairedSum(m.startTimes, m.stopTimes, n)
          == PairedSum(m.startTimes, m.stopTimes, n - 1) + (Last(m.stopTimes) - Last(m.startTimes));
        assert Last(m.lapTimes) <= Last(m.stopTimes);
      }
    }
  }

  // ---------------------------------------------------------------------
  // Decimal rendering of the lap count (Swift's `String(Int)`)

  function DigitChar(d: nat): (c: char)
    requires d < 10
    ensures '0' <= c <= '9' && c as int - '0' as int == d
  {
    ('0' as int + d) as char
  }

  /** The decimal digits of `n`, most significant first, no leading zero. */
  function DecimalString(n: nat): (s: string)
    ensures |s| > 0
    ensures forall i :: 0 <= i < |s| ==> '0' <= s[i] <= '9'
    ensures s[0] == '0' ==> n == 0 && s == "0"
    ensures n < 10 <==> |s| == 1
  {
    if n < 10 then [DigitChar(n)] else DecimalString(n / 10) + [DigitChar(n % 10)]
  }

  /** The number a string of decimal digits denotes. */
  function DecimalValue(s: string): nat
    requires forall i :: 0 <= i < |s| ==> '0' <= s[i] <= '9'
  {
    if s == [] then 0
    else DecimalValue(s[..|s| - 1]) * 10 + (s[|s| - 1] as int - '0' as int)
  }

  /** Reading back the decimal string of `n` gives `n`. */
  lemma {:induction false} DecimalRoundTrip(n: nat)
    ensures DecimalValue(DecimalString(n)) == n
  {
    if n >= 10 {
      DecimalRoundTrip(n / 10);
      var s := DecimalString(n);
      assert s[..|s| - 1] == DecimalString(n / 10);
    }
  }

  // ---------------------------------------------------------------------
  // The view model object

  const InitialTime: string := "00:00:00"
  const StartTitle: string := "START"
  const StopTitle: string := "STOP"
  const ResetTitle: string := "RESET"
  const LapTitle: string := "LAP"

  class ViewModel {
    var model: Stopwatch
    var splitTime: string
    var lapTime: string
    var lapNumber: string
    var name: string
    var leftBtnTitle: string
    var rightBtnTitle: string
    /** Whether the periodic ticker is scheduled. */
    var timerActive: bool

    /** The button titles the current running state calls for. */
    ghost predicate TitlesMatch()
      reads this
    {
      if StateOf(model) == Running then rightBtnTitle == StopTitle && leftBtnTitle == LapTitle
      else rightBtnTitle == StartTitle && leftBtnTitle == ResetTitle
    }

    ghost predicate Valid()
      reads this
    {
      && Balanced(model)
      && TitlesMatch()
      && timerActive == (StateOf(model) == Running)
    }

    /** The initial published values. */
    constructor ()
      ensures Valid()
      ensures model == NewStopwatch()
      ensures splitTime == "00:00:00" && lapTime == "00:00:00" && lapNumber == "0"
      ensures name == "Name" && leftBtnTitle == "RESET" && rightBtnTitle == "START"
      ensures !timerActive
    {
      model := NewStopwatch();
      splitTime := InitialTime;
      lapTime := InitialTime;
      lapNumber := "0";
      name := DefaultName;
      leftBtnTitle := ResetTitle;
      rightBtnTitle := StartTitle;
      timerActive := false;
    }

    /** LAP while running, RESET otherwise. */
    method LeftBtnTapped(now: Date)
      requires Valid()
      modifies this`model, this`leftBtnTitle, this`rightBtnTitle, this`timerActive
      ensures Valid()
      ensures model == SecondaryTap(old(model), now)
      ensures old(StateOf(model)) == Running ==>
        model == old(model).(lapTimes := old(model.lapTimes) + [now])
      ensures old(StateOf(model)) != Running ==>
        model == old(model).(startTimes := [], stopTimes := [], lapTimes := [])
      ensures StateOf(model) == Running ==>
        leftBtnTitle == "LAP" && rightBtnTitle == "STOP" && timerActive
      ensures StateOf(model) != Running ==>
        leftBtnTitle == "RESET" && rightBtnTitle == "START" && !timerActive
    {
      match StateOf(model) {
        case Empty | Stop =>
          ResetTime();
        case Running =>
          model := model.(lapTimes := model.lapTimes + [now]);
      }
      JudgeBtnTitle();
      JudgeTimerState();
    }

    /** START when not running, STOP when running. */
    method RightBtnTapped(now: Date)
      requires Valid()
      modifies this`model, this`leftBtnTitle, this`rightBtnTitle, this`timerActive
      ensures Valid()
      ensures model == PrimaryTap(old(model), now)
      ensures old(StateOf(model)) != Running ==>
        model == old(model).(startTimes := old(model.startTimes) + [now])
      ensures old(StateOf(model)) == Running ==>
        model == old(model).(stopTimes := old(model.stopTimes) + [now])
      ensures StateOf(model) == Running ==>
        leftBtnTitle == "LAP" && rightBtnTitle == "STOP" && timerActive
      ensures StateOf(model) != Running ==>
        leftBtnTitle == "RESET" && rightBtnTitle == "START" && !timerActive
    {
      match StateOf(model) {
        case Empty | Stop =>
          model := model.(startTimes := model.startTimes + [now]);
        case Running =>
          model := model.(stopTimes := model.stopTimes + [now]);
      }
      JudgeBtnTitle();
      JudgeTimerState();
    }

    /** Empties the three timestamp sequences; the name is kept. */
    method ResetTime()
      modifies this`model
      ensures model == old(model).(startTimes := [], stopTimes := [], lapTimes := [])
    {
      model := model.(startTimes := []);
      model := model.(stopTimes := []);
      model := model.(lapTimes := []);
    }

    /** The only writer of the record's name. */
    method ResetName()
      modifies this`model
      ensures model == old(model).(name := "Name")
    {
      model := model.(name := DefaultName);
    }

    method JudgeBtnTitle()
      modifies this`leftBtnTitle, this`rightBtnTitle
      ensures TitlesMatch()
    {
      match StateOf(model) {
        case Empty | Stop =>
          rightBtnTitle := StartTitle;
          leftBtnTitle := ResetTitle;
        case Running =>
          rightBtnTitle := StopTitle;
          leftBtnTitle := LapTitle;
      }
    }

    method JudgeTimerState()
      modifies this`timerActive
      ensures timerActive == (StateOf(model) == Running)
    {
      match StateOf(model) {
        case Empty | Stop =>
          StopTimer();
        case Running =>
          StartTimer();
      }
    }

    method StartTimer()
      modifies this`timerActive
      ensures timerActive
    {
      timerActive := true;
    }

    method StopTimer()
      modifies this`timerActive
      ensures !timerActive
    {
      timerActive := false;
    }

    /** `culcSplitTime(time:)`: completed pairs summed by a loop, plus the
        live segment while running. */
    method CulcSplitTime(time: Date) returns (seconds: Duration)
      requires |model.stopTimes| <= |model.startTimes|
      ensures seconds == SplitTime(model, time)
    {
      if |model.startTimes| == 0 {
        return 0;
      }
      var last := Last(model.startTimes);
      if |model.stopTimes| == 0 {
        return if time - last > 0 then time - last else 0;
      }
      seconds := 0;
      for index := 0 to |model.stopTimes|
        invariant seconds == PairedSum(model.startTimes, model.stopTimes, index)
      {
        seconds := seconds + (model.stopTimes[index] - model.startTimes[index]);
      }
      if |model.startTimes| == |model.stopTimes| {
        return seconds;
      }
      seconds := seconds + (time - Last(model.startTimes));
    }

    /** `culcLapTime(time:)`: from the later of the last lap and the last
        resume, up to the last stop when stopped. */
    method CulcLapTime(time: Date) returns (seconds: Duration)
      requires |model.stopTimes| <= |model.startTimes|
      requires |model.lapTimes| > 0 ==> |model.startTimes| > 0
      ensures seconds == LapTime(model, time)
    {
      if |model.lapTimes| == 0 {
        seconds := CulcSplitTime(time);
        return;
      }
      var last := Last(model.lapTimes);
      var effective := time;
      if |model.startTimes| == |model.stopTimes| && |model.stopTimes| > 0 {
        effective := Last(model.stopTimes);
      }
      if Last(model.startTimes) - last > 0 {
        seconds := effective - Last(model.startTimes);
      } else {
        seconds := effective - last;
      }
    }

    /** One tick: publishes split, lap and lap count. `format` stands for
        the duration-to-string step. */
    method Update(now: Date, format: Duration -> string)
      requires Valid()
      modifies this`splitTime, this`lapTime, this`lapNumber
      ensures Valid()
      ensures splitTime == format(SplitTime(model, now))
      ensures lapTime == format(LapTime(model, now))
      ensures lapNumber == DecimalString(|model.lapTimes|)
    {
      UpdateSplit(now, format);
      UpdateLap(now, format);
      UpdateLapNumber();
    }

    method UpdateSplit(time: Date, format: Duration -> string)
      requires |model.stopTimes| <= |model.startTimes|
      modifies this`splitTime
      ensures splitTime == format(SplitTime(model, time))
    {
      var seconds := CulcSplitTime(time);
      splitTime := format(seconds);
    }

    method UpdateLap(time: Date, format: Duration -> string)
      requires |model.stopTimes| <= |model.startTimes|
      requires |model.lapTimes| > 0 ==> |model.startTimes| > 0
      modifies this`lapTime
      ensures lapTime == format(LapTime(model, time))
    {
      var seconds := CulcLapTime(time);
      lapTime := format(seconds);
    }

    method UpdateLapNumber()
      modifies this`lapNumber
      ensures lapNumber == DecimalString(|model.lapTimes|)
      ensures DecimalValue(lapNumber) == |model.lapTimes|
    {
      lapNumber := DecimalString(|model.lapTimes|);
      DecimalRoundTrip(|model.lapTimes|);
    }
  }

  // Sessions driven through the view model; times in milliseconds.

  /** Start at 0, tick at 5 s: split 5 s, no laps, lap equals split. */
  method ScenarioOneRun()
  {
    var vm := new ViewModel();
    vm.RightBtnTapped(0);
    var split := vm.CulcSplitTime(5000);
    var lap := vm.CulcLapTime(5000);
    assert split == 5000 && lap == 5000 && |vm.model.lapTimes| == 0;
  }

  /** Start at 0, lap at 3 s, tick at 5 s: lap 2 s, split 5 s. */
  method ScenarioOneLap()
  {
    var vm := new ViewModel();
    vm.RightBtnTapped(0);
    vm.LeftBtnTapped(3000);
    var split := vm.CulcSplitTime(5000);
    var lap := vm.CulcLapTime(5000);
    assert split == 5000 && lap == 2000 && |vm.model.lapTimes| == 1;
  }

  /** Start at 0, stop at 5 s, resume at 10 s, tick at 12 s: the pause is
      not counted. */
  method ScenarioPause()
  {
    var vm := new ViewModel();
    vm.RightBtnTapped(0);
    vm.RightBtnTapped(5000);
    vm.RightBtnTapped(10000);
    assert vm.model.startTimes == [0, 10000] && vm.model.stopTimes == [5000];
    assert PairedSum(vm.model.startTimes, vm.model.stopTimes, 0) == 0;
    var split := vm.CulcSplitTime(12000);
    assert split == 7000;
  }

  /** As before with a lap at 3 s: the lap restarts at the resume; a
      later RESET while stopped empties everything. */
  method ScenarioLapThenPause()
  {
    var vm := new ViewModel();
    vm.RightBtnTapped(0);
    vm.LeftBtnTapped(3000);
    vm.RightBtnTapped(5000);
    vm.RightBtnTapped(10000);
    assert vm.model.startTimes == [0, 10000] && vm.model.stopTimes == [5000];
    assert PairedSum(vm.model.startTimes, vm.model.stopTimes, 0) == 0;
    var lap := vm.CulcLapTime(12000);
    var split := vm.CulcSplitTime(12000);
    assert lap == 2000 && split == 7000;
    vm.RightBtnTapped(13000);
    vm.LeftBtnTapped(14000);
    assert vm.model.startTimes == [] && vm.model.lapTimes == [];
    assert vm.rightBtnTitle == "START" && vm.leftBtnTitle == "RESET";
  }
}
