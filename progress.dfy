/** ProgressReporter: remembers the latest byte counts and emits a "progress"
    event only when at least the report interval has passed since the last
    emission. Time is integer milliseconds supplied by the caller; the source's
    interval of 0.5 s is 500. */
module Progress {
  import opened Wrappers
  import opened PyValues
  import opened Events

  const REPORT_INTERVAL: int := 500

  /** The three fields the reporter updates. */
  datatype ReporterState = ReporterState(current: int, total: int, last: int)

  /** The state `__init__` sets up. */
  const INITIAL: ReporterState := ReporterState(0, 0, 0)

  /** The "percentage" field: `current / total * 100` when `total > 0`, else
      the integer 0. The division is only reached with a positive divisor. */
  function Percentage(current: int, total: int): (v: Value)
    ensures total <= 0 ==> v == Int(0)
    ensures total > 0 ==> v.Real? && v.r * (total as real) == (current as real) * 100.0
  {
    if total > 0 then Real(current as real / total as real * 100.0) else Int(0)
  }

  /** The event `report` sends for the given counts. */
  function ProgressEvent(current: int, total: int): (ev: Event)
    ensures ev.kind == "progress" && ev.data.Keys == {"current", "total", "percentage"}
    ensures ev.data["current"] == Int(current) && ev.data["total"] == Int(total)
    ensures ev.data["percentage"] == Percentage(current, total)
  {
    SendProgress("progress", Some(map["current" := Int(current), "total" := Int(total),
                                      "percentage" := Percentage(current, total)]))
  }

  /** One call's effect: the new state and the event it emits, if any. */
  datatype Step = Step(state: ReporterState, emitted: Option<Event>)

  /** `report(progress, current, total)` at time `now`. */
  function ReportStep(s: ReporterState, now: int, current: Option<int>, total: Option<int>): (r: Step)
    ensures r.state.total == (if total.Some? then total.value else s.total)
    ensures r.state.current == (if current.Some? then current.value else s.current)
    ensures r.emitted.Some? <==> now - s.last >= REPORT_INTERVAL
    ensures r.state.last == (if r.emitted.Some? then now else s.last)
    ensures r.emitted.Some? ==> r.emitted.value == ProgressEvent(r.state.current, r.state.total)
  {
    var s1 := ReporterState(current.GetOr(s.current), total.GetOr(s.total), s.last);
    if now - s1.last >= REPORT_INTERVAL then
      Step(s1.(last := now), Some(ProgressEvent(s1.current, s1.total)))
    else
      Step(s1, None)
  }

  /** One call of `report`: the time it reads and its optional counts. */
  datatype Call = Call(now: int, current: Option<int>, total: Option<int>)

  /** The state after a sequence of calls and the times at which they emitted. */
  datatype Trace = Trace(final: ReporterState, emissions: seq<int>)

  function Replay(s: ReporterState, calls: seq<Call>): Trace
    decreases |calls|
  {
    if calls == [] then Trace(s, [])
    else
      var st := ReportStep(s, calls[0].now, calls[0].current, calls[0].total);
      var rest := Replay(st.state, calls[1..]);
      Trace(rest.final, (if st.emitted.Some? then [calls[0].now] else []) + rest.emissions)
  }

  /** Replaying the first call of a non-empty sequence, then the rest. */
  lemma ReplayCons(s: ReporterState, calls: seq<Call>)
    requires calls != []
    ensures var st := ReportStep(s, calls[0].now, calls[0].current, calls[0].total);
      var rest := Replay(st.state, calls[1..]);
      && Replay(s, calls).final == rest.final
      && Replay(s, calls).emissions ==
           (if st.emitted.Some? then [calls[0].now] + rest.emissions else rest.emissions)
  {
  }

  /** `last` ends at the time of the last emission, or stays put if there was none. */
  lemma {:induction false} FinalIsLastEmission(s: ReporterState, calls: seq<Call>)
    ensures var r := Replay(s, calls);
      r.final.last == if r.emissions == [] then s.last else r.emissions[|r.emissions| - 1]
    decreases |calls|
  {
    if calls != [] {
      var st := ReportStep(s, calls[0].now, calls[0].current, calls[0].total);
      ReplayCons(s, calls);
      FinalIsLastEmission(st.state, calls[1..]);
    }
  }

  /** The k-th emission (from 0) is at least k + 1 intervals after the starting `last`. */
  lemma {:induction false} EmissionsAfterBase(s: ReporterState, calls: seq<Call>)
    ensures var t := Replay(s, calls).emissions;
      forall i :: 0 <= i < |t| ==> t[i] - s.last >= REPORT_INTERVAL * (i + 1)
    decreases |calls|
  {
    if calls != [] {
      var c := calls[0];
      var st := ReportStep(s, c.now, c.current, c.total);
      var rest := Replay(st.state, calls[1..]).emissions;
      ReplayCons(s, calls);
      EmissionsAfterBase(st.state, calls[1..]);
      if st.emitted.Some? {
        var t := [c.now] + rest;
        forall i | 0 <= i < |t| ensures t[i] - s.last >= REPORT_INTERVAL * (i + 1) {
          if i > 0 {
            assert t[i] == rest[i - 1];
          }
        }
      }
    }
  }

  /** Any two emissions are at least one interval apart per emission between them. */
  lemma {:induction false} EmissionsPairwise(s: ReporterState, calls: seq<Call>)
    ensures var t := Replay(s, calls).emissions;
      forall i, j :: 0 <= i < j < |t| ==> t[j] - t[i] >= REPORT_INTERVAL * (j - i)
    decreases |calls|
  {
    if calls != [] {
      var c := calls[0];
      var st := ReportStep(s, c.now, c.current, c.total);
      var rest := Replay(st.state, calls[1..]).emissions;
      ReplayCons(s, calls);
      EmissionsPairwise(st.state, calls[1..]);
      if st.emitted.Some? {
        EmissionsAfterBase(st.state, calls[1..]);
        assert st.state.last == c.now;
        var t := [c.now] + rest;
        forall i, j | 0 <= i < j < |t| ensures t[j] - t[i] >= REPORT_INTERVAL * (j - i) {
          assert t[j] == rest[j - 1];
          if i == 0 {
            assert t[j] - c.now >= REPORT_INTERVAL * j;
          } else {
            assert t[i] == rest[i - 1];
            assert rest[j - 1] - rest[i - 1] >= REPORT_INTERVAL * (j - i);
          }
        }
      }
    }
  }

  /** Emissions are spaced by the interval: the k-th one (from 0) is at least
      (k + 1) intervals after the starting `last`, and any two are at least one
      interval apart per emission between them. No assumption on the order of
      the clock readings is needed, because `last` moves only at an emission. */
  lemma EmissionsSpaced(s: ReporterState, calls: seq<Call>)
    ensures var t := Replay(s, calls).emissions;
      && (forall i :: 0 <= i < |t| ==> t[i] - s.last >= REPORT_INTERVAL * (i + 1))
      && (forall i, j :: 0 <= i < j < |t| ==> t[j] - t[i] >= REPORT_INTERVAL * (j - i))
    ensures Replay(s, calls).final.last ==
      if Replay(s, calls).emissions == [] then s.last
      else Replay(s, calls).emissions[|Replay(s, calls).emissions| - 1]
  {
    EmissionsAfterBase(s, calls);
    EmissionsPairwise(s, calls);
    FinalIsLastEmission(s, calls);
  }

  /** From a fresh reporter, any two emissions are at least 0.5 s apart. */
  lemma FreshReporterThrottles(calls: seq<Call>)
    ensures var t := Replay(INITIAL, calls).emissions;
      forall i, j :: 0 <= i < j < |t| ==> t[j] - t[i] >= REPORT_INTERVAL
  {
    EmissionsSpaced(INITIAL, calls);
  }

  class ProgressReporter {
    var currentBytes: int
    var totalBytes: int
    var lastReportTime: int
    const reportInterval: int := REPORT_INTERVAL

    function State(): ReporterState
      reads this
    {
      ReporterState(currentBytes, totalBytes, lastReportTime)
    }

    constructor ()
      ensures State() == INITIAL
    {
      currentBytes := 0;
      totalBytes := 0;
      lastReportTime := 0;
    }

    /** Records the counts that are given and returns the "progress" event
        sent, if enough time has passed since the last one. */
    method Report(now: int, current: Option<int>, total: Option<int>) returns (emitted: Option<Event>)
      modifies this
      ensures Step(State(), emitted) == ReportStep(old(State()), now, current, total)
    {
      if total.Some? {
        totalBytes := total.value;
      }
      if current.Some? {
        currentBytes := current.value;
      }
      if now - lastReportTime >= reportInterval {
        emitted := Some(SendProgress("progress", Some(map[
          "current" := Int(currentBytes),
          "total" := Int(totalBytes),
          "percentage" := if totalBytes > 0 then Real(currentBytes as real / totalBytes as real * 100.0) else Int(0)
        ])));
        lastReportTime := now;
      } else {
        emitted := None;
      }
    }
  }
}
