/**
  Grading how long an update took against the span of changes it folded. Durations are
  exact numbers of seconds here; rounding to nanoseconds is not the point.
 */
module Pace {

  import opened Prelude

  /** One published update: the interval it was given, how long it took, and the window it folded. */
  datatype Run = Run(interval: real, took: real, upload: real, window: real)

  /** What it leaves for the next one to compare with. */
  datatype Sample = Sample(window: real, took: real, fold: real)

  const NO_SAMPLE := Sample(0.0, 0.0, 0.0)

  datatype Verdict = OnTime | Cadence | OverWindow | FallingBehind | WindowUnknown

  /** `refreshSample`: a run whose window was not measured leaves nothing. */
  function SampleOf(run: Run): Sample {
    if run.window <= 0.0 then NO_SAMPLE else Sample(run.window, run.took, run.took - run.upload)
  }

  /** `gradeRefresh`. */
  function Grade(run: Run, prev: Sample): Verdict {
    if run.interval <= 0.0 || run.took <= run.interval then OnTime
    else if run.window <= 0.0 then WindowUnknown
    else if run.took <= run.window then Cadence
    else if prev.window > 0.0 && prev.took > prev.window && run.window > prev.window && run.took - prev.took > run.window - prev.window then FallingBehind
    else OverWindow
  }

  /** The foreseeable lag: a verdict of falling behind is two runs past their windows whose cost outgrew the window. */
  lemma FallingBehindMeansCostOutgrewTheWindow(run: Run, before: Run)
    ensures Grade(run, SampleOf(before)) == FallingBehind <==>
            && run.interval > 0.0 && run.took > run.interval && run.took > run.window && before.took > before.window
            && run.window > before.window > 0.0 && run.took - before.took > run.window - before.window
  {
  }

  /** The run was given an interval and took longer. */
  predicate Late(run: Run) {
    run.interval > 0.0 && run.took > run.interval
  }

  /** The other readings: quiet inside the interval, unknown without a window, cadence when the lag holds where it is, over the window when it grew and two runs do not say it goes on growing. */
  lemma ReadingsExactly(run: Run, prev: Sample)
    ensures var v := Grade(run, prev);
            && (v == OnTime <==> !Late(run))
            && (v == WindowUnknown <==> Late(run) && run.window <= 0.0)
            && (v == Cadence <==> Late(run) && 0.0 < run.took <= run.window)
            && (v == OverWindow <==> Late(run) && 0.0 < run.window < run.took && v != FallingBehind)
  {
  }

  /** What a reading means for the next run, which folds at least the time this one took: after a cadence reading no more than this one's window, after one over the window more. */
  lemma ReadingForetellsTheNextWindow(run: Run, prev: Sample)
    requires Late(run) && run.window > 0.0
    ensures Grade(run, prev) == Cadence <==> MaxReal(run.interval, run.took) <= run.window
    ensures Grade(run, prev) == OverWindow || Grade(run, prev) == FallingBehind <==> MaxReal(run.interval, run.took) > run.window
  {
  }

  // ------------------------------------------------------------ affine costs

  /** What a run over a window costs: a floor that does not move with it, and a slope. */
  function Cost(floor: real, slope: real, window: real): real {
    floor + slope * window
  }

  function MaxReal(a: real, b: real): real {
    if a >= b then a else b
  }

  /** The next update cannot start before this one ends, nor before its interval has passed. */
  function NextWindow(floor: real, slope: real, interval: real, window: real): real {
    MaxReal(interval, Cost(floor, slope, window))
  }

  function WindowAfter(floor: real, slope: real, interval: real, first: real, n: nat): real {
    if n == 0 then first else NextWindow(floor, slope, interval, WindowAfter(floor, slope, interval, first, n - 1))
  }

  lemma Scale(slope: real, x: real, y: real)
    requires slope >= 0.0 && x <= y
    ensures slope * x <= slope * y
  {
  }

  lemma StaysBelow(floor: real, slope: real, interval: real, window: real, bound: real)
    requires 0.0 <= slope < 1.0 && window <= bound && interval <= bound && floor <= (1.0 - slope) * bound
    ensures NextWindow(floor, slope, interval, window) <= bound
  {
    Scale(slope, window, bound);
  }

  /** With a slope under one the windows stay within the first one, the interval, or where the cost meets the window. */
  lemma {:induction false} WindowsStayBounded(floor: real, slope: real, interval: real, first: real, n: nat)
    requires 0.0 <= slope < 1.0 && floor >= 0.0
    ensures WindowAfter(floor, slope, interval, first, n) <= MaxReal(MaxReal(first, interval), floor / (1.0 - slope))
  {
    if n > 0 {
      var bound := MaxReal(MaxReal(first, interval), floor / (1.0 - slope));
      WindowsStayBounded(floor, slope, interval, first, n - 1);
      MeetingPoint(floor, slope, bound);
      StaysBelow(floor, slope, interval, WindowAfter(floor, slope, interval, first, n - 1), bound);
    }
  }

  lemma MeetingPoint(floor: real, slope: real, bound: real)
    requires slope < 1.0 && bound >= floor / (1.0 - slope)
    ensures floor <= (1.0 - slope) * bound
  {
    var gap := 1.0 - slope;
    assert floor == gap * (floor / gap);
    Scale(gap, floor / gap, bound);
  }

  /** And above where they settle they close in on it, each by the slope. */
  lemma WindowsCloseIn(floor: real, slope: real, interval: real, window: real)
    requires 0.0 <= slope < 1.0 && floor >= 0.0 && window >= MaxReal(interval, floor / (1.0 - slope))
    ensures var settled := MaxReal(interval, floor / (1.0 - slope));
            NextWindow(floor, slope, interval, window) - settled <= slope * (window - settled)
  {
    var settled := MaxReal(interval, floor / (1.0 - slope));
    MeetingPoint(floor, slope, settled);
    assert slope * (window - settled) == slope * window - slope * settled;
    Scale(slope, settled, window);
  }

  lemma SlopeOverOne(slope: real, x: real)
    requires x > 0.0
    ensures slope * x > x <==> slope > 1.0
    ensures slope >= 1.0 ==> slope * x >= x
  {
    assert slope * x - x == (slope - 1.0) * x;
    if slope > 1.0 {
      assert (slope - 1.0) * x > 0.0;
    } else {
      Scale(x, slope, 1.0);
    }
  }

  lemma OneMore(n: nat, x: real)
    requires n > 0
    ensures n as real * x == (n - 1) as real * x + x
  {
    assert n as real == (n - 1) as real + 1.0;
  }

  /** With a slope of one or more and any floor they grow without end. */
  lemma {:induction false} WindowsRunAway(floor: real, slope: real, interval: real, first: real, n: nat)
    requires slope >= 1.0 && floor > 0.0 && first > 0.0
    ensures WindowAfter(floor, slope, interval, first, n) >= first + n as real * floor > 0.0
  {
    Scale(floor, 0.0, n as real);
    if n > 0 {
      WindowsRunAway(floor, slope, interval, first, n - 1);
      var w := WindowAfter(floor, slope, interval, first, n - 1);
      SlopeOverOne(slope, w);
      OneMore(n, floor);
      assert Cost(floor, slope, w) >= floor + w;
      assert WindowAfter(floor, slope, interval, first, n) == NextWindow(floor, slope, interval, w);
    }
  }

  /** Two runs past their windows over a growing window: the verdict is the slope, exactly. */
  lemma VerdictIsTheSlope(floor: real, slope: real, run: Run, before: Run)
    requires run.took == Cost(floor, slope, run.window) && before.took == Cost(floor, slope, before.window)
    requires run.interval > 0.0 && run.took > run.interval && run.took > run.window
    requires before.took > before.window > 0.0 && run.window > before.window
    ensures Grade(run, SampleOf(before)) == FallingBehind <==> slope > 1.0
  {
    var grown := run.window - before.window;
    assert slope * grown == slope * run.window - slope * before.window;
    SlopeDecides(run.took - before.took, slope, grown);
    FallingBehindMeansCostOutgrewTheWindow(run, before);
  }

  lemma SlopeDecides(cost: real, slope: real, grown: real)
    requires grown > 0.0 && cost == slope * grown
    ensures cost > grown <==> slope > 1.0
  {
    SlopeOverOne(slope, grown);
  }

  // --------------------------------------------------------- whole histories

  /** What a cycle came to. A skipped one folded nothing. */
  datatype Cycle = Skipped | Refused | Panicked | Published(run: Run)

  /** The last cycle that folded. */
  function LastFolded(log: seq<Cycle>): Option<Cycle> {
    if log == [] then None else if log[|log| - 1].Skipped? then LastFolded(log[..|log| - 1]) else Some(log[|log| - 1])
  }

  /** The sample a cycle compares itself with: the last cycle that folded, if it published. */
  function Compared(log: seq<Cycle>): Sample {
    var last := LastFolded(log);
    if last.Some? && last.value.Published? then SampleOf(last.value.run) else NO_SAMPLE
  }

  class PaceBook {
    var pace: Sample
    ghost var log: seq<Cycle>

    ghost predicate Valid()
      reads this
    {
      pace == Compared(log)
    }

    constructor ()
      ensures Valid() && log == []
    {
      pace := NO_SAMPLE;
      log := [];
    }

    /** `takeRefreshPace`: the sample leaves the book before the fold can fail. */
    method TakePace() returns (prev: Sample)
      modifies this`pace
      ensures prev == old(pace) && pace == NO_SAMPLE
    {
      prev := pace;
      pace := NO_SAMPLE;
    }

    /** One cycle, as `runRefresh` leaves it: only a published fold puts a sample back. */
    method Run(cycle: Cycle) returns (verdict: Option<Verdict>)
      requires Valid()
      modifies this
      ensures Valid() && log == old(log) + [cycle]
      ensures verdict == if cycle.Published? then Some(Grade(cycle.run, Compared(old(log)))) else None
    {
      log := log + [cycle];
      assert log[..|log| - 1] == old(log);
      if cycle.Skipped? {
        return None;
      }
      var prev := TakePace();
      if !cycle.Published? {
        return None;
      }
      pace := SampleOf(cycle.run);
      return Some(Grade(cycle.run, prev));
    }
  }

  lemma {:induction false} ComparedWith(log: seq<Cycle>) returns (k: int)
    ensures -1 <= k < |log| && (forall j | k < j < |log| :: log[j] == Skipped)
    ensures k >= 0 ==> log[k] != Skipped
    ensures Compared(log) == if k >= 0 && log[k].Published? && log[k].run.window > 0.0 then Sample(log[k].run.window, log[k].run.took, log[k].run.took - log[k].run.upload) else Sample(0.0, 0.0, 0.0)
    decreases |log|
  {
    if log == [] {
      k := -1;
    } else if log[|log| - 1].Skipped? {
      k := ComparedWith(log[..|log| - 1]);
    } else {
      k := |log| - 1;
    }
  }

  /** A verdict of falling behind compares with a cycle that published, with nothing but skipped ones since: a refusal or a crash in between ends the comparison. */
  lemma FallingBehindComparesNeighbours(log: seq<Cycle>, run: Run)
    requires Grade(run, Compared(log)) == FallingBehind
    ensures exists k | 0 <= k < |log| ::
              && log[k].Published? && (forall j | k < j < |log| :: log[j] == Skipped)
              && log[k].run.window > 0.0 && log[k].run.took > log[k].run.window
              && run.took - log[k].run.took > run.window - log[k].run.window > 0.0
  {
    var k := ComparedWith(log);
    assert k >= 0;
  }

  /** Two published runs whose cost grew by no more than their window, whichever came first. */
  ghost predicate CostFollowsWindow(a: Run, b: Run) {
    a.window <= b.window ==> b.took - a.took <= b.window - a.window
  }

  /** Any cost with a slope of one or less does. */
  lemma GentleSlopeFollowsWindow(floor: real, slope: real, a: Run, b: Run)
    requires slope <= 1.0 && a.took == Cost(floor, slope, a.window) && b.took == Cost(floor, slope, b.window)
    ensures CostFollowsWindow(a, b)
  {
    if a.window <= b.window {
      Scale(b.window - a.window, slope, 1.0);
      assert slope * (b.window - a.window) == slope * b.window - slope * a.window;
    }
  }

  /**
    A server whose cost never outgrows the window is never told it is falling behind, over
    any history of skips, refusals, crashes and published runs.
   */
  method GradeHistory(cycles: seq<Cycle>) returns (verdicts: seq<Option<Verdict>>)
    ensures |verdicts| == |cycles|
    ensures forall i | 0 <= i < |cycles| ::
              verdicts[i] == if cycles[i].Published? then Some(Grade(cycles[i].run, Compared(cycles[..i]))) else None
    ensures (forall i, j | 0 <= i < j < |cycles| && cycles[i].Published? && cycles[j].Published? :: CostFollowsWindow(cycles[i].run, cycles[j].run)) ==>
            forall i | 0 <= i < |verdicts| :: verdicts[i] != Some(FallingBehind)
  {
    var b := new PaceBook();
    verdicts := [];
    for i := 0 to |cycles|
      invariant fresh(b) && b.Valid() && b.log == cycles[..i] && |verdicts| == i
      invariant forall j | 0 <= j < i :: verdicts[j] == if cycles[j].Published? then Some(Grade(cycles[j].run, Compared(cycles[..j]))) else None
    {
      var v := b.Run(cycles[i]);
      verdicts := verdicts + [v];
      assert cycles[..i + 1] == cycles[..i] + [cycles[i]];
    }
    if forall i, j | 0 <= i < j < |cycles| && cycles[i].Published? && cycles[j].Published? :: CostFollowsWindow(cycles[i].run, cycles[j].run) {
      forall i | 0 <= i < |verdicts|
        ensures verdicts[i] != Some(FallingBehind)
      {
        if cycles[i].Published? {
          var k := LastFoldedIndex(cycles[..i]);
          assert Compared(cycles[..i]) == NO_SAMPLE || (k >= 0 && cycles[k].Published? && CostFollowsWindow(cycles[k].run, cycles[i].run));
        }
      }
    }
  }

  ghost function LastFoldedIndex(log: seq<Cycle>): (k: int)
    ensures -1 <= k < |log|
    ensures if k == -1 then LastFolded(log).None? else LastFolded(log) == Some(log[k]) && !log[k].Skipped?
  {
    if log == [] then -1 else if log[|log| - 1].Skipped? then LastFoldedIndex(log[..|log| - 1]) else |log| - 1
  }
}
