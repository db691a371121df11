/** The stats record `{lastTotal, history}` and the three jobs that use it:
    the two-hourly playtime check (checkRust, index.js:40-64), the midnight
    snapshot (saveDaily, index.js:68-83) and the chart data
    (generateChartURL, index.js:87-115). */
module Tracker {

  import opened Wrappers
  import opened History
  import opened Charts

  /** Hours of growth a check must see before it notifies; smaller changes
      are treated as noise and not saved. */
  const Threshold: real := 0.1

  /** The persisted record, as a value. */
  datatype Snapshot = Snapshot(lastTotal: real, history: seq<Entry>)

  /** The record a first run starts from. */
  const Initial: Snapshot := Snapshot(0.0, [])

  /** A zero `lastTotal` means no baseline has been taken yet. */
  datatype Phase = Bootstrapping | Tracking

  function PhaseOf(s: Snapshot): Phase
  {
    if s.lastTotal == 0.0 then Bootstrapping else Tracking
  }

  /** What one check leaves behind: the new record and the increase it
      announces, if any. */
  datatype Outcome = Outcome(next: Snapshot, notice: Option<real>)

  /** One check against a freshly fetched total. */
  function Check(s: Snapshot, total: real): (o: Outcome)
    ensures o.next.history == s.history
    ensures o.notice.Some? ==> PhaseOf(s) == Tracking && o.next.lastTotal == total
    ensures o.notice.Some? ==> o.notice.value == total - s.lastTotal > Threshold
  {
    if PhaseOf(s) == Bootstrapping then
      Outcome(Snapshot(total, s.history), None)
    else
      var diff := total - s.lastTotal;
      if diff > Threshold then Outcome(Snapshot(total, s.history), Some(diff))
      else Outcome(s, None)
  }

  /** The first check takes the fetched total as the baseline and announces
      nothing. */
  lemma CheckBootstrap(s: Snapshot, total: real)
    requires s.lastTotal == 0.0
    ensures Check(s, total) == Outcome(Snapshot(total, s.history), None)
  {
  }

  /** A growth above the threshold is announced once, with its size, and
      becomes the new baseline. */
  lemma CheckNotifies(s: Snapshot, total: real)
    requires s.lastTotal != 0.0 && total - s.lastTotal > Threshold
    ensures Check(s, total) == Outcome(Snapshot(total, s.history), Some(total - s.lastTotal))
  {
  }

  /** A growth at or below the threshold, or a fall, changes nothing. */
  lemma CheckBelowThreshold(s: Snapshot, total: real)
    requires s.lastTotal != 0.0 && total - s.lastTotal <= Threshold
    ensures Check(s, total) == Outcome(s, None)
  {
  }

  /** Once tracking, the baseline never goes back, and every move it makes
      is a jump of more than the threshold that is announced. */
  lemma CheckMonotone(s: Snapshot, total: real)
    requires PhaseOf(s) == Tracking
    ensures Check(s, total).next.lastTotal >= s.lastTotal
    ensures Check(s, total).next.lastTotal != s.lastTotal
            <==> Check(s, total).notice.Some?
    ensures Check(s, total).next.lastTotal != s.lastTotal
            ==> Check(s, total).next.lastTotal > s.lastTotal + Threshold
  {
  }

  /** Polling twice with the same total announces at most once: the second
      check changes nothing. */
  lemma CheckRepeatIsNoOp(s: Snapshot, total: real)
    ensures Check(Check(s, total).next, total) == Outcome(Check(s, total).next, None)
  {
  }

  /** The midnight job: the current baseline, dated, enters the window. */
  function DailySnapshot(s: Snapshot, today: string): (r: Snapshot)
    ensures r.lastTotal == s.lastTotal
    ensures |r.history| > 0
    ensures r.history[|r.history| - 1] == Entry(today, s.lastTotal)
    ensures |s.history| <= Capacity ==> |r.history| <= Capacity
  {
    Snapshot(s.lastTotal, Rotate(s.history, Entry(today, s.lastTotal)))
  }

  /** The two scheduled jobs, in whatever order the timers fire them. */
  datatype Event = Poll(total: real) | Midnight(today: string)

  function Step(s: Snapshot, e: Event): Snapshot
  {
    match e
    case Poll(total) => Check(s, total).next
    case Midnight(today) => DailySnapshot(s, today)
  }

  function Run(s: Snapshot, events: seq<Event>): Snapshot
    decreases |events|
  {
    if events == [] then s else Run(Step(s, events[0]), events[1..])
  }

  /** Every poll fetched a playtime, which is never negative. */
  ghost predicate PlaytimesNonnegative(events: seq<Event>)
  {
    forall i :: 0 <= i < |events| && events[i].Poll? ==> events[i].total >= 0.0
  }

  /** The record as the jobs keep it: a window within capacity, snapshots
      that never go down, none above the baseline, and a baseline that is
      not negative. */
  ghost predicate Consistent(s: Snapshot)
  {
    && |s.history| <= Capacity
    && 0.0 <= s.lastTotal
    && Rising(s.history)
    && AtMost(s.history, s.lastTotal)
  }

  /** Snapshot hours never go down along the window. */
  ghost predicate Rising(h: seq<Entry>)
  {
    forall i, j :: 0 <= i < j < |h| ==> h[i].hours <= h[j].hours
  }

  /** No snapshot records more than `x` hours. */
  ghost predicate AtMost(h: seq<Entry>, x: real)
  {
    forall i :: 0 <= i < |h| ==> h[i].hours <= x
  }

  lemma PushKeepsRising(h: seq<Entry>, e: Entry)
    requires Rising(h) && AtMost(h, e.hours)
    ensures Rising(h + [e]) && AtMost(h + [e], e.hours)
  {
    var p := h + [e];
    forall i | 0 <= i < |p|
      ensures p[i].hours <= e.hours
    {
      if i < |h| { assert p[i] == h[i]; }
    }
    forall i, j | 0 <= i < j < |p|
      ensures p[i].hours <= p[j].hours
    {
      if j < |h| { assert p[i] == h[i] && p[j] == h[j]; }
    }
  }

  lemma DropKeepsRising(h: seq<Entry>, k: nat, x: real)
    requires k <= |h| && Rising(h) && AtMost(h, x)
    ensures Rising(h[k..]) && AtMost(h[k..], x)
  {
    var t := h[k..];
    forall i | 0 <= i < |t|
      ensures t[i].hours <= x
    {
      assert t[i] == h[k + i];
    }
    forall i, j | 0 <= i < j < |t|
      ensures t[i].hours <= t[j].hours
    {
      assert t[i] == h[k + i] && t[j] == h[k + j];
    }
  }

  lemma MidnightKeepsConsistent(s: Snapshot, today: string)
    requires Consistent(s)
    ensures Consistent(DailySnapshot(s, today))
  {
    var e := Entry(today, s.lastTotal);
    var pushed := s.history + [e];
    var r := DailySnapshot(s, today).history;
    assert r == pushed[|pushed| - |r|..];
    PushKeepsRising(s.history, e);
    DropKeepsRising(pushed, |pushed| - |r|, s.lastTotal);
  }

  lemma StepKeepsConsistent(s: Snapshot, e: Event)
    requires Consistent(s)
    requires e.Poll? ==> e.total >= 0.0
    ensures Consistent(Step(s, e))
    ensures Step(s, e).lastTotal >= s.lastTotal
  {
    match e
    case Poll(total) =>
    case Midnight(today) => MidnightKeepsConsistent(s, today);
  }

  /** Whatever the order of polls and midnight jobs, a record that starts
      consistent stays consistent and its baseline never decreases. */
  lemma {:induction false} RunKeepsConsistent(s: Snapshot, events: seq<Event>)
    requires Consistent(s)
    requires PlaytimesNonnegative(events)
    ensures Consistent(Run(s, events))
    ensures Run(s, events).lastTotal >= s.lastTotal
    decreases |events|
  {
    if events != [] {
      StepKeepsConsistent(s, events[0]);
      assert PlaytimesNonnegative(events[1..]) by {
        forall i | 0 <= i < |events[1..]| && events[1..][i].Poll?
          ensures events[1..][i].total >= 0.0
        {
          assert events[1..][i] == events[i + 1];
        }
      }
      RunKeepsConsistent(Step(s, events[0]), events[1..]);
    }
  }

  /** From the first-run record, the window never exceeds seven days and the
      daily chart never shows a negative bar. */
  lemma ReportsFromAnyRun(events: seq<Event>)
    requires PlaytimesNonnegative(events)
    ensures |Run(Initial, events).history| <= Capacity
    ensures forall i :: 0 <= i < |Deltas(Hours(Run(Initial, events).history))|
              ==> Deltas(Hours(Run(Initial, events).history))[i] >= 0.0
  {
    RunKeepsConsistent(Initial, events);
    var h := Run(Initial, events).history;
    NondecreasingHasNonnegativeDeltas(Hours(h));
  }

  /** A series with one difference per pair of neighbouring snapshots is
      the `Deltas` of the hours. */
  lemma DailyDifferencesAreDeltas(h: seq<Entry>, daily: seq<real>)
    requires |daily| == if |h| == 0 then 0 else |h| - 1
    requires forall k {:trigger daily[k]} :: 0 <= k < |daily| ==> daily[k] == h[k + 1].hours - h[k].hours
    ensures daily == Deltas(Hours(h))
  {
    var hours := Hours(h);
    forall k | 0 <= k < |daily|
      ensures daily[k] == hours[k + 1] - hours[k]
    {
      assert hours[k] == h[k].hours && hours[k + 1] == h[k + 1].hours;
    }
    DeltasUnique(hours, daily);
  }

  /** The stats record as the bot holds it between jobs. */
  class Stats {
    var lastTotal: real
    var history: seq<Entry>

    function State(): Snapshot
      reads this
    {
      Snapshot(lastTotal, history)
    }

    /** The record as read back from storage. */
    constructor (stored: Snapshot)
      ensures State() == stored
    {
      lastTotal := stored.lastTotal;
      history := stored.history;
    }

    /** One two-hourly check. `fetched` is the playtime in hours, or None
        when fetching it failed; `channelFound` says whether looking up the
        announcement channel, which happens just before a notification is
        sent, succeeded. Either failure ends the job before it saves
        anything. */
    method CheckRust(fetched: Option<real>, channelFound: bool) returns (notice: Option<real>)
      modifies this
      ensures history == old(history)
      ensures fetched.None? ==> lastTotal == old(lastTotal) && notice == None
      ensures fetched.Some? && old(lastTotal) == 0.0
              ==> lastTotal == fetched.value && notice == None
      ensures fetched.Some? && old(lastTotal) != 0.0 && fetched.value - old(lastTotal) > Threshold
              ==> if channelFound
                  then lastTotal == fetched.value && notice == Some(fetched.value - old(lastTotal))
                  else lastTotal == old(lastTotal) && notice == None
      ensures fetched.Some? && old(lastTotal) != 0.0 && fetched.value - old(lastTotal) <= Threshold
              ==> lastTotal == old(lastTotal) && notice == None
      ensures fetched.Some? && channelFound
              ==> Outcome(State(), notice) == Check(old(State()), fetched.value)
      ensures fetched.Some? && !channelFound
              ==> notice == None
                  && State() == if Check(old(State()), fetched.value).notice.Some?
                                then old(State()) else Check(old(State()), fetched.value).next
    {
      if fetched.None? {
        return None;
      }
      var total := fetched.value;
      if lastTotal == 0.0 {
        lastTotal := total;
        return None;
      }
      var diff := total - lastTotal;
      notice := None;
      if diff > Threshold {
        if !channelFound {
          return None;
        }
        notice := Some(diff);
        lastTotal := total;
      }
    }

    /** The midnight snapshot: push today's entry and drop the oldest one
        when the window has grown past seven. */
    method SaveDaily(today: string)
      modifies this
      ensures lastTotal == old(lastTotal)
      ensures history == Rotate(old(history), Entry(today, old(lastTotal)))
      ensures State() == DailySnapshot(old(State()), today)
    {
      history := history + [Entry(today, lastTotal)];
      if |history| > Capacity {
        history := history[1..];
      }
    }

    /** The bar chart: hours played on each day after the first, labelled
        with that day's date. */
    method DailySeries() returns (chart: Series)
      ensures chart.shape == Bar && chart.legend == DailyLegend
      ensures |chart.data| == |chart.labels| == if |history| == 0 then 0 else |history| - 1
      ensures forall i {:trigger chart.data[i]} :: 0 <= i < |chart.data| ==>
                chart.data[i] == history[i + 1].hours - history[i].hours
      ensures forall i {:trigger chart.labels[i]} :: 0 <= i < |chart.labels| ==>
                chart.labels[i] == history[i + 1].date
      ensures chart.data == Deltas(Hours(history))
      ensures chart.labels == DropFirst(Dates(history))
    {
      var h := history;
      var daily: seq<real> := [];
      var i := 1;
      while i < |h|
        invariant 1 <= i <= if |h| == 0 then 1 else |h|
        invariant |daily| == i - 1
        invariant forall k {:trigger daily[k]} :: 0 <= k < i - 1 ==> daily[k] == h[k + 1].hours - h[k].hours
      {
        daily := daily + [h[i].hours - h[i - 1].hours];
        i := i + 1;
      }
      DailyDifferencesAreDeltas(h, daily);
      chart := Series(Bar, DailyLegend, DropFirst(Dates(h)), daily);
    }

    /** The line chart: the cumulative hours of every snapshot, labelled
        with every date. */
    function TotalSeries(): (chart: Series)
      reads this
      ensures chart.shape == Line && chart.legend == TotalLegend
      ensures |chart.data| == |chart.labels| == |history|
      ensures forall i :: 0 <= i < |history| ==>
                chart.data[i] == history[i].hours && chart.labels[i] == history[i].date
    {
      Series(Line, TotalLegend, Dates(history), Hours(history))
    }

    /** The chart data asked for by name; any other name yields nothing. */
    method ChartData(kind: string) returns (chart: Option<Series>)
      ensures kind == "daily" ==>
                chart == Some(Series(Bar, DailyLegend, DropFirst(Dates(history)), Deltas(Hours(history))))
      ensures kind == "total" ==> chart == Some(TotalSeries())
      ensures kind != "daily" && kind != "total" ==> chart == None
    {
      if kind == "daily" {
        var daily := DailySeries();
        return Some(daily);
      }
      if kind == "total" {
        return Some(TotalSeries());
      }
      return None;
    }
  }

  /** What a caller can conclude from the contracts alone: a first run that
      takes a baseline, announces the next session and records the day. */
  method FirstRunScenario()
  {
    var stats := new Stats(Initial);
    var notice := stats.CheckRust(Some(2.0), true);
    assert notice == None && stats.lastTotal == 2.0;
    notice := stats.CheckRust(Some(2.3), true);
    assert notice == Some(0.3) && stats.lastTotal == 2.3;
    stats.SaveDaily("d1");
    assert stats.history == [Entry("d1", 2.3)];
  }

  /** Growth of 0.05 hours is noise; growth of 0.2 hours is announced, by the
      next check if the channel could not be found. */
  method ThresholdScenario()
  {
    var stats := new Stats(Snapshot(10.0, []));
    var notice := stats.CheckRust(Some(10.05), true);
    assert notice == None && stats.lastTotal == 10.0;
    notice := stats.CheckRust(Some(10.2), false);
    assert notice == None && stats.lastTotal == 10.0;
    notice := stats.CheckRust(Some(10.2), true);
    assert notice == Some(0.2) && stats.lastTotal == 10.2;
  }

  /** Three snapshots give two daily bars, labelled with the last two dates;
      asking for the daily chart twice gives the same chart. */
  method DailyChartScenario()
  {
    var stats := new Stats(Snapshot(8.0, [Entry("d1", 5.0), Entry("d2", 8.0), Entry("d3", 8.0)]));
    var daily := stats.DailySeries();
    assert daily.data == [3.0, 0.0] && daily.labels == ["d2", "d3"];
    var first := stats.ChartData("daily");
    var second := stats.ChartData("daily");
    assert first == second == Some(daily);
  }
}
