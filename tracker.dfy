/**
 * The focus-change tracker `track_time`. Each poll yields an observation: the
 * foreground window title, the clock reading, and the detail the classifier
 * would fetch at that moment. A title different from the tracked one closes the
 * tracked interval into a record (only when the tracked title is truthy, i.e.
 * neither `None` nor empty) and starts a new interval. On interrupt the records
 * gathered so far are flushed to the log store; the interval still open then is
 * never recorded.
 */
module Tracker {
  import opened Wrappers
  import opened Records
  import opened Classifier
  import opened LogStore

  /** One poll: the active window title, the clock, and the detail `get_active_url` would give. */
  datatype Observation = Observation(title: string, time: int, detail: string)

  /** The three variables of `track_time`. `start` means nothing while `active` is `None`. */
  datatype TrackerState = TrackerState(active: Option<string>, start: int, logs: seq<Record>)

  /** `active_window = None`, `start_time = None`, `logs = []`. */
  const Initial: TrackerState := TrackerState(None, 0, [])

  /** The record that closes the interval of `app` begun at `start` and ended at `end`. */
  function Close(app: string, start: int, end: int, detail: string): (r: Record)
    ensures r.application == app && r.start == start && r.end == end
    ensures r.category == Browser && r.detail == detail
    ensures ConsistentDuration(r)
  {
    var c := CategorizeWindow(app, detail);
    Record(app, c.category, c.detail, start, end, end - start)
  }

  /** One iteration of the polling loop. */
  function Next(s: TrackerState, o: Observation): (r: TrackerState)
    // the same title: nothing changes
    ensures Some(o.title) == s.active ==> r == s
    // a new title: it is tracked from this poll on
    ensures Some(o.title) != s.active ==> r.active == Some(o.title) && r.start == o.time
    // earlier records stay; one is added exactly when a truthy title is left
    ensures s.logs <= r.logs
    ensures |r.logs| == |s.logs| + (if Some(o.title) != s.active && TruthyOption(s.active) then 1 else 0)
    ensures |r.logs| > |s.logs| ==>
              s.active.Some? && r.logs[|s.logs|] == Close(s.active.value, s.start, o.time, o.detail)
  {
    if Some(o.title) == s.active then s
    else
      var logs := if TruthyOption(s.active) then s.logs + [Close(s.active.value, s.start, o.time, o.detail)]
                  else s.logs;
      TrackerState(Some(o.title), o.time, logs)
  }

  /** The state after polling `obs` in order, starting from `s`. */
  function Run(s: TrackerState, obs: seq<Observation>): (r: TrackerState)
    ensures obs == [] ==> r == s
    ensures obs != [] ==> r.active == Some(obs[|obs| - 1].title)
    ensures s.logs <= r.logs
    decreases |obs|
  {
    if obs == [] then s else Next(Run(s, obs[..|obs| - 1]), obs[|obs| - 1])
  }

  /**
   * An independent count of the records a run emits: the polls whose title
   * differs from the previous poll's, where the previous title is non-empty.
   */
  function ClosedCount(obs: seq<Observation>): nat
    decreases |obs|
  {
    if |obs| < 2 then 0
    else
      var n := |obs|;
      ClosedCount(obs[..n - 1]) + (if obs[n - 2].title != obs[n - 1].title && obs[n - 2].title != "" then 1 else 0)
  }

  /** The clock never goes backwards across the observations. */
  predicate NonDecreasing(obs: seq<Observation>)
  {
    forall i, j :: 0 <= i < j < |obs| ==> obs[i].time <= obs[j].time
  }

  /** Every record is well formed: consistent duration, a non-empty application, a Browser category. */
  predicate WellFormedLogs(logs: seq<Record>)
  {
    forall r :: r in logs ==> ConsistentDuration(r) && r.application != "" && r.category == Browser
  }

  /**
   * From the initial state, the tracked title is the last observed title and the
   * number of records is the number of closing transitions.
   */
  lemma {:induction false} RunFromInitial(obs: seq<Observation>)
    ensures obs == [] ==> Run(Initial, obs) == Initial
    ensures obs != [] ==> Run(Initial, obs).active == Some(obs[|obs| - 1].title)
    ensures |Run(Initial, obs).logs| == ClosedCount(obs)
    decreases |obs|
  {
    if obs != [] {
      var n := |obs|;
      var prefix := obs[..n - 1];
      RunFromInitial(prefix);
      if n >= 2 {
        assert prefix[n - 2] == obs[n - 2];
        assert obs[..n - 1] == prefix;
      }
    }
  }

  /** Every record a run emits is well formed, if the starting logs were. */
  lemma {:induction false} RunKeepsLogsWellFormed(s: TrackerState, obs: seq<Observation>)
    requires WellFormedLogs(s.logs)
    ensures WellFormedLogs(Run(s, obs).logs)
    decreases |obs|
  {
    if obs != [] {
      RunKeepsLogsWellFormed(s, obs[..|obs| - 1]);
    }
  }

  /** Logs only grow at the end: the records of any prefix run are a prefix of the full run's. */
  lemma {:induction false} RunAppendOnly(s: TrackerState, obs: seq<Observation>, k: nat)
    requires k <= |obs|
    ensures Run(s, obs[..k]).logs <= Run(s, obs).logs
    decreases |obs| - k
  {
    if k < |obs| {
      var n := |obs|;
      RunAppendOnly(s, obs[..n - 1], k);
      assert obs[..n - 1][..k] == obs[..k];
    } else {
      assert obs[..k] == obs;
    }
  }

  /**
   * With a non-decreasing clock, every record has a non-negative duration and
   * ends no later than the start of the interval still open; that start is no
   * later than the last observation.
   */
  lemma {:induction false} RunTimesOrdered(obs: seq<Observation>)
    requires NonDecreasing(obs)
    ensures forall r :: r in Run(Initial, obs).logs ==> r.start <= r.end && r.end <= Run(Initial, obs).start
    ensures obs != [] ==> Run(Initial, obs).start <= obs[|obs| - 1].time
    decreases |obs|
  {
    if obs != [] {
      var n := |obs|;
      var prefix := obs[..n - 1];
      assert NonDecreasing(prefix);
      RunTimesOrdered(prefix);
      RunFromInitial(prefix);
      if n >= 2 {
        assert Run(Initial, prefix).start <= obs[n - 2].time;
        assert obs[n - 2].time <= obs[n - 1].time;
      }
    }
  }

  /**
   * Durations are non-negative under a non-decreasing clock, and every record's
   * duration is its end minus its start.
   */
  lemma DurationsNonNegative(obs: seq<Observation>)
    requires NonDecreasing(obs)
    ensures forall r :: r in Run(Initial, obs).logs ==> r.duration == r.end - r.start && r.duration >= 0
  {
    RunTimesOrdered(obs);
    RunKeepsLogsWellFormed(Initial, obs);
  }

  /**
   * The interval open at the end of a run is not recorded: further polls that
   * keep the same title add nothing, so nothing is logged for it unless a later
   * change of title closes it.
   */
  lemma {:induction false} OpenIntervalNotLogged(obs: seq<Observation>, more: seq<Observation>)
    requires obs != []
    requires forall k :: 0 <= k < |more| ==> more[k].title == obs[|obs| - 1].title
    ensures Run(Initial, obs + more) == Run(Initial, obs)
    decreases |more|
  {
    if more == [] {
      assert obs + more == obs;
    } else {
      var m := |more|;
      OpenIntervalNotLogged(obs, more[..m - 1]);
      assert (obs + more)[..|obs + more| - 1] == obs + more[..m - 1];
      RunFromInitial(obs);
    }
  }

  /**
   * The polls Editor, Editor, "Browser - Tab", Editor at seconds 0..3 give two
   * records: Editor for 2 seconds and "Browser - Tab" for 1 second.
   */
  lemma ExampleRun(d0: string, d1: string, d2: string, d3: string)
    ensures var obs := [Observation("Editor", 0, d0), Observation("Editor", 1, d1),
                        Observation("Browser - Tab", 2, d2), Observation("Editor", 3, d3)];
            Run(Initial, obs).logs ==
              [Record("Editor", Browser, d2, 0, 2, 2), Record("Browser - Tab", Browser, d3, 2, 3, 1)]
  {
    var obs := [Observation("Editor", 0, d0), Observation("Editor", 1, d1),
                Observation("Browser - Tab", 2, d2), Observation("Editor", 3, d3)];
    assert obs[..0] == [];
    assert obs[..1][..0] == [];
    assert obs[..2][..1] == obs[..1];
    assert obs[..3][..2] == obs[..2];
    assert obs[..4][..3] == obs[..3];
    assert obs[..4] == obs;
    assert Run(Initial, obs[..1]) == TrackerState(Some("Editor"), 0, []);
    assert Run(Initial, obs[..2]) == TrackerState(Some("Editor"), 0, []);
    assert Run(Initial, obs[..3]).logs == [Record("Editor", Browser, d2, 0, 2, 2)];
  }

  /** The mutable state of `track_time`. */
  class Tracker {
    var activeWindow: Option<string>
    var startTime: int
    var logs: seq<Record>

    function State(): TrackerState
      reads this
    {
      TrackerState(activeWindow, startTime, logs)
    }

    constructor ()
      ensures State() == Initial
    {
      activeWindow := None;
      startTime := 0;
      logs := [];
    }

    /** One poll of the loop body. */
    method Step(o: Observation)
      modifies this
      ensures State() == Next(old(State()), o)
      // the same title: nothing changes
      ensures Some(o.title) == old(activeWindow) ==> State() == old(State())
      // a new title: it is tracked from now on
      ensures Some(o.title) != old(activeWindow) ==> activeWindow == Some(o.title) && startTime == o.time
      // exactly one record, for the outgoing truthy title, from its start to now
      ensures Some(o.title) != old(activeWindow) && TruthyOption(old(activeWindow)) ==>
                logs == old(logs) + [Record(old(activeWindow).value, Browser, o.detail, old(startTime), o.time, o.time - old(startTime))]
      // no record when the outgoing title is None or empty
      ensures !TruthyOption(old(activeWindow)) ==> logs == old(logs)
    {
      if Some(o.title) != activeWindow {
        var endTime := o.time;
        if activeWindow.Some? && activeWindow.value != "" {
          var duration := endTime - startTime;
          var c := CategorizeWindow(activeWindow.value, o.detail);
          logs := logs + [Record(activeWindow.value, c.category, c.detail, startTime, endTime, duration)];
        }
        activeWindow := Some(o.title);
        startTime := o.time;
      }
    }
  }

  /**
   * The polling loop of `track_time` over `obs`, up to the interrupt: returns
   * the records gathered, one per closing transition.
   */
  method RunTracker(obs: seq<Observation>) returns (logs: seq<Record>)
    ensures logs == Run(Initial, obs).logs
    ensures |logs| == ClosedCount(obs)
    ensures WellFormedLogs(logs)
  {
    var tracker := new Tracker();
    var i := 0;
    while i < |obs|
      invariant 0 <= i <= |obs|
      invariant tracker.State() == Run(Initial, obs[..i])
    {
      assert obs[..i + 1][..i] == obs[..i];
      tracker.Step(obs[i]);
      i := i + 1;
    }
    assert obs[..i] == obs;
    logs := tracker.logs;
    RunFromInitial(obs);
    RunKeepsLogsWellFormed(Initial, obs);
  }

  /** `track_time` followed by the flush on interrupt: the records are appended to the log file. */
  method TrackTime(obs: seq<Observation>, store: LogFile)
    modifies store
    ensures store.table == Some(Appended(old(store.table), Run(Initial, obs).logs))
  {
    var logs := RunTracker(obs);
    store.LogData(logs);
  }
}
