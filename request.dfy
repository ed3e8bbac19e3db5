/**
 * service/request.py: one monitored target (`Request`). It owns a live
 * `RequestMetrics` record and the running sum of successful delays, folds every
 * probe outcome into them, and has a two-state start/stop lifecycle.
 *
 * The asyncio machinery is not modelled. `__update_metrics` contains no
 * `await`, so a burst of concurrent probes is the same as one atomic fold per
 * probe, in the order the probes complete; that order is an input here.
 */
module RequestService {
  import opened Wrappers
  import opened Errors
  import opened RequestModels

  /** What one call of `ping3.ping` produced. */
  datatype ProbeOutcome =
    | ReturnedNumber(seconds: real)  // a round-trip delay, in seconds
    | ReturnedBool(flag: bool)       // ping3 reports some failures as `False`
    | ReturnedNone                   // ping3 reports a timeout as `None`
    | Raised                         // the call raised; it is logged and swallowed

  /** The delay `__run_request` hands to `__update_metrics`: only a number is a success. */
  function DelayOf(o: ProbeOutcome): (d: Option<real>)
    ensures d.Some? <==> o.ReturnedNumber?
    ensures o.ReturnedNumber? ==> d.value == o.seconds
  {
    match o
    case ReturnedNumber(s) => Some(s)
    case _ => None
  }

  function Delays(outcomes: seq<ProbeOutcome>): (ds: seq<Option<real>>)
    ensures |ds| == |outcomes|
    ensures forall i :: 0 <= i < |outcomes| ==> ds[i] == DelayOf(outcomes[i])
  {
    seq(|outcomes|, i requires 0 <= i < |outcomes| => DelayOf(outcomes[i]))
  }

  /** What one fold reads and writes: the metrics record and `average_time_sum_ms`. */
  datatype AggregateState = AggregateState(metrics: Metrics, averageTimeSumMs: real)

  /** `error / total * 100` with true division. */
  function Loss(errors: nat, total: nat): (r: real)
    requires total > 0
    ensures r * total as real == errors as real * 100.0
    ensures 0.0 <= r && (errors <= total ==> r <= 100.0)
    ensures r == 0.0 <==> errors == 0
    ensures r == 100.0 <==> errors == total
  {
    (errors as real / total as real) * 100.0
  }

  /**
   * `__update_metrics`: one probe outcome folded into the aggregate. A present
   * delay is in seconds and is scaled to milliseconds first.
   */
  function Fold(s: AggregateState, delay: Option<real>): (r: AggregateState)
    ensures r.metrics.callersNumber == s.metrics.callersNumber
    ensures r.metrics.totalNumber == s.metrics.totalNumber + 1
    ensures r.metrics.lossPercentage == Loss(r.metrics.errorNumber, r.metrics.totalNumber)
    ensures delay.None? ==>
      && r.metrics == s.metrics.(totalNumber := r.metrics.totalNumber,
                                 errorNumber := s.metrics.errorNumber + 1,
                                 lossPercentage := r.metrics.lossPercentage)
      && r.averageTimeSumMs == s.averageTimeSumMs
    ensures delay.Some? ==>
      var ms := delay.value * 1000.0;
      && r.metrics.sucessNumber == s.metrics.sucessNumber + 1
      && r.metrics.errorNumber == s.metrics.errorNumber
      && r.averageTimeSumMs == s.averageTimeSumMs + ms
      && r.metrics.lastTimeMs == Some(ms)
      && r.metrics.averageTimeMs ==
           (if s.metrics.averageTimeMs.None? then Some(ms)
            else Some(r.averageTimeSumMs / r.metrics.sucessNumber as real))
      && Extended(r.metrics.minTimeMs, s.metrics.minTimeMs, ms, (a, b) => a <= b)
      && Extended(r.metrics.maxTimeMs, s.metrics.maxTimeMs, ms, (a, b) => a >= b)
  {
    var m := s.metrics;
    var total := m.totalNumber + 1;
    match delay
    case None =>
      var errors := m.errorNumber + 1;
      AggregateState(
        m.(totalNumber := total, errorNumber := errors, lossPercentage := Loss(errors, total)),
        s.averageTimeSumMs)
    case Some(seconds) =>
      var ms := seconds * 1000.0;
      var successes := m.sucessNumber + 1;
      var sum := s.averageTimeSumMs + ms;
      var average := if m.averageTimeMs.None? then ms else sum / successes as real;
      var minimum := if m.minTimeMs.None? || m.minTimeMs.value > ms then ms else m.minTimeMs.value;
      var maximum := if m.maxTimeMs.None? || m.maxTimeMs.value < ms then ms else m.maxTimeMs.value;
      AggregateState(
        m.(totalNumber := total, sucessNumber := successes, lossPercentage := Loss(m.errorNumber, total),
           averageTimeMs := Some(average), minTimeMs := Some(minimum), maxTimeMs := Some(maximum),
           lastTimeMs := Some(ms)),
        sum)
  }

  /**
   * `r` is the running extreme after seeing `x`, where `better(a, b)` means `a`
   * is at least as extreme as `b`: defined, at least as extreme as `x` and as
   * the old value, and equal to one of them.
   */
  ghost predicate Extended(r: Option<real>, old_: Option<real>, x: real, better: (real, real) -> bool) {
    && r.Some?
    && better(r.value, x)
    && (old_.Some? ==> better(r.value, old_.value))
    && (r.value == x || r == old_)
  }

  /** Folding a sequence of outcomes, in order. */
  function FoldAll(s: AggregateState, ds: seq<Option<real>>): AggregateState
    decreases |ds|
  {
    if ds == [] then s else Fold(FoldAll(s, ds[..|ds| - 1]), ds[|ds| - 1])
  }

  /** How many outcomes in `ds` are successes. */
  function Successes(ds: seq<Option<real>>): nat
    decreases |ds|
  {
    if ds == [] then 0
    else Successes(ds[..|ds| - 1]) + (if ds[|ds| - 1].Some? then 1 else 0)
  }

  /**
   * The invariant the aggregate of a freshly built `Request` keeps: counters
   * add up, the loss is recomputed from them, the timing fields are all
   * undefined until the first success, and from then on the average is the sum
   * over the successes and lies between a minimum and a maximum that bracket
   * every success.
   */
  ghost predicate Coherent(s: AggregateState) {
    var m := s.metrics;
    && m.totalNumber == m.sucessNumber + m.errorNumber
    && m.lossPercentage == (if m.totalNumber == 0 then 0.0 else Loss(m.errorNumber, m.totalNumber))
    && (m.sucessNumber == 0 ==> m.TimingUndefined() && s.averageTimeSumMs == 0.0)
    && (m.sucessNumber > 0 ==>
         && m.averageTimeMs.Some? && m.minTimeMs.Some? && m.maxTimeMs.Some? && m.lastTimeMs.Some?
         && m.averageTimeMs.value == s.averageTimeSumMs / m.sucessNumber as real
         && m.minTimeMs.value * m.sucessNumber as real <= s.averageTimeSumMs
         && s.averageTimeSumMs <= m.maxTimeMs.value * m.sucessNumber as real
         && m.minTimeMs.value <= m.lastTimeMs.value <= m.maxTimeMs.value)
  }

  /** A new `Request` starts from the dataclass defaults and a zero sum. */
  lemma FreshIsCoherent(callersNumber: int)
    ensures Coherent(AggregateState(Defaults(callersNumber), 0.0))
  {
  }

  /** Every fold keeps `Coherent`. */
  lemma FoldKeepsCoherent(s: AggregateState, delay: Option<real>)
    requires Coherent(s)
    ensures Coherent(Fold(s, delay))
  {
    match delay
    case None => FailureKeepsCoherent(s);
    case Some(seconds) =>
      if s.metrics.sucessNumber == 0 {
        FirstSuccessIsCoherent(s, seconds);
      } else {
        SuccessKeepsCoherent(s, seconds);
      }
  }

  lemma FailureKeepsCoherent(s: AggregateState)
    requires Coherent(s)
    ensures Coherent(Fold(s, None))
  {
  }

  lemma FirstSuccessIsCoherent(s: AggregateState, seconds: real)
    requires Coherent(s) && s.metrics.sucessNumber == 0
    ensures Coherent(Fold(s, Some(seconds)))
  {
    var ms := seconds * 1000.0;
    assert ms / 1.0 == ms;
  }

  lemma SuccessKeepsCoherent(s: AggregateState, seconds: real)
    requires Coherent(s) && s.metrics.sucessNumber > 0
    ensures Coherent(Fold(s, Some(seconds)))
  {
    var r := Fold(s, Some(seconds));
    var ms := seconds * 1000.0;
    var n := s.metrics.sucessNumber as real;
    assert (n + 1.0) == r.metrics.sucessNumber as real;
    BracketStep(s.metrics.minTimeMs.value, r.metrics.minTimeMs.value, ms, s.averageTimeSumMs, n);
    BracketStep(-s.metrics.maxTimeMs.value, -r.metrics.maxTimeMs.value, -ms, -s.averageTimeSumMs, n);
    assert -r.metrics.maxTimeMs.value * (n + 1.0) == -(r.metrics.maxTimeMs.value * (n + 1.0));
  }

  /**
   * The bracketing step for a new sample `x`: if `lo` bounds the mean of `n`
   * samples from below and `lo'` is at most `lo` and `x`, then `lo'` bounds
   * the mean of the `n + 1` samples.
   */
  lemma BracketStep(lo: real, lo': real, x: real, sum: real, n: real)
    requires n >= 0.0 && lo * n <= sum && lo' <= lo && lo' <= x
    ensures lo' * (n + 1.0) <= sum + x
  {
    assert lo * n - lo' * n == (lo - lo') * n;
    assert lo' * (n + 1.0) == lo' * n + lo';
  }

  /** `Coherent` holds after any sequence of folds from a coherent start. */
  lemma {:induction false} FoldAllKeepsCoherent(s: AggregateState, ds: seq<Option<real>>)
    requires Coherent(s)
    ensures Coherent(FoldAll(s, ds))
    decreases |ds|
  {
    if ds != [] {
      FoldAllKeepsCoherent(s, ds[..|ds| - 1]);
      FoldKeepsCoherent(FoldAll(s, ds[..|ds| - 1]), ds[|ds| - 1]);
    }
  }

  /** In a coherent aggregate with a success, the minimum, average and maximum are ordered. */
  lemma CoherentBounds(s: AggregateState)
    requires Coherent(s) && s.metrics.sucessNumber > 0
    ensures s.metrics.minTimeMs.value <= s.metrics.averageTimeMs.value <= s.metrics.maxTimeMs.value
  {
    var n := s.metrics.sucessNumber as real;
    BelowMean(s.metrics.minTimeMs.value, s.averageTimeSumMs, n);
    BelowMean(-s.metrics.maxTimeMs.value, -s.averageTimeSumMs, n);
    assert -s.metrics.maxTimeMs.value * n == -(s.metrics.maxTimeMs.value * n);
    assert -s.averageTimeSumMs / n == -(s.averageTimeSumMs / n);
  }

  /** A lower bound of `n` samples' sum, divided by `n`, bounds their mean. */
  lemma BelowMean(lo: real, sum: real, n: real)
    requires n > 0.0 && lo * n <= sum
    ensures lo <= sum / n
  {
    assert sum / n - lo == (sum - lo * n) / n;
  }

  /**
   * Counting over any sequence of folds: the total grows by the number of
   * outcomes, the successes by the number of delays, the errors by the rest.
   */
  lemma {:induction false} FoldAllCounts(s: AggregateState, ds: seq<Option<real>>)
    ensures var r := FoldAll(s, ds).metrics;
      && r.totalNumber == s.metrics.totalNumber + |ds|
      && r.sucessNumber == s.metrics.sucessNumber + Successes(ds)
      && r.errorNumber == s.metrics.errorNumber + (|ds| - Successes(ds))
      && r.callersNumber == s.metrics.callersNumber
    decreases |ds|
  {
    if ds != [] {
      FoldAllCounts(s, ds[..|ds| - 1]);
    }
  }

  lemma {:induction false} NoSuccesses(ds: seq<Option<real>>)
    requires forall i :: 0 <= i < |ds| ==> ds[i].None?
    ensures Successes(ds) == 0
    decreases |ds|
  {
    if ds != [] {
      NoSuccesses(ds[..|ds| - 1]);
    }
  }

  /**
   * A target that never answers shows 100% loss with every timing field
   * undefined, never a division by zero.
   */
  lemma UnreachableTarget(callersNumber: int, ds: seq<Option<real>>)
    requires ds != [] && forall i :: 0 <= i < |ds| ==> ds[i].None?
    ensures var r := FoldAll(AggregateState(Defaults(callersNumber), 0.0), ds).metrics;
      r.lossPercentage == 100.0 && r.TimingUndefined() && r.errorNumber == |ds|
  {
    var s := AggregateState(Defaults(callersNumber), 0.0);
    FreshIsCoherent(callersNumber);
    FoldAllKeepsCoherent(s, ds);
    FoldAllCounts(s, ds);
    NoSuccesses(ds);
    var r := FoldAll(s, ds).metrics;
    assert r.errorNumber == r.totalNumber == |ds|;
    assert r.errorNumber as real / r.totalNumber as real == 1.0;
  }

  /** The successful delays of `ds` added up, in milliseconds. */
  function SumMs(ds: seq<Option<real>>): real
    decreases |ds|
  {
    if ds == [] then 0.0
    else SumMs(ds[..|ds| - 1]) + (match ds[|ds| - 1] case Some(d) => d * 1000.0 case None => 0.0)
  }

  /** `average_time_sum_ms` grows by exactly the successful delays folded, in milliseconds. */
  lemma {:induction false} SumTracks(s: AggregateState, ds: seq<Option<real>>)
    ensures FoldAll(s, ds).averageTimeSumMs == s.averageTimeSumMs + SumMs(ds)
    decreases |ds|
  {
    if ds != [] {
      SumTracks(s, ds[..|ds| - 1]);
    }
  }

  /**
   * From a fresh request, the average is undefined until a probe succeeds and
   * is then the mean of all successful delays, whatever the failures between them.
   */
  lemma MeanOfSuccesses(callersNumber: int, ds: seq<Option<real>>)
    ensures var m := FoldAll(AggregateState(Defaults(callersNumber), 0.0), ds).metrics;
      && (Successes(ds) == 0 ==> m.averageTimeMs == None)
      && (Successes(ds) > 0 ==> m.averageTimeMs == Some(SumMs(ds) / Successes(ds) as real))
  {
    var s := AggregateState(Defaults(callersNumber), 0.0);
    FreshIsCoherent(callersNumber);
    FoldAllKeepsCoherent(s, ds);
    FoldAllCounts(s, ds);
    SumTracks(s, ds);
  }

  /** `x` is the smallest successful delay of `ds`, in milliseconds. */
  ghost predicate IsMinMs(x: real, ds: seq<Option<real>>) {
    && (exists i :: 0 <= i < |ds| && ds[i].Some? && ds[i].value * 1000.0 == x)
    && (forall i :: 0 <= i < |ds| && ds[i].Some? ==> x <= ds[i].value * 1000.0)
  }

  /** `x` is the largest successful delay of `ds`, in milliseconds. */
  ghost predicate IsMaxMs(x: real, ds: seq<Option<real>>) {
    && (exists i :: 0 <= i < |ds| && ds[i].Some? && ds[i].value * 1000.0 == x)
    && (forall i :: 0 <= i < |ds| && ds[i].Some? ==> x >= ds[i].value * 1000.0)
  }

  /** A success anywhere in `ds` is counted. */
  lemma {:induction false} SuccessCounted(ds: seq<Option<real>>, i: int)
    requires 0 <= i < |ds| && ds[i].Some?
    ensures Successes(ds) > 0
    decreases |ds|
  {
    if i < |ds| - 1 {
      SuccessCounted(ds[..|ds| - 1], i);
    }
  }

  /**
   * From a fresh request, the minimum and maximum are undefined until a probe
   * succeeds and are then the smallest and largest successful delay seen.
   */
  lemma {:induction false} ExtremesOfSuccesses(callersNumber: int, ds: seq<Option<real>>)
    ensures var m := FoldAll(AggregateState(Defaults(callersNumber), 0.0), ds).metrics;
      && (m.minTimeMs.Some? <==> Successes(ds) > 0)
      && (m.maxTimeMs.Some? <==> Successes(ds) > 0)
      && (Successes(ds) > 0 ==> IsMinMs(m.minTimeMs.value, ds) && IsMaxMs(m.maxTimeMs.value, ds))
    decreases |ds|
  {
    if ds != [] {
      var init, last := ds[..|ds| - 1], ds[|ds| - 1];
      ExtremesOfSuccesses(callersNumber, init);
      var p := FoldAll(AggregateState(Defaults(callersNumber), 0.0), init).metrics;
      var m := FoldAll(AggregateState(Defaults(callersNumber), 0.0), ds).metrics;
      assert forall i :: 0 <= i < |init| ==> ds[i] == init[i];
      if last.Some? {
        var n := |ds| - 1;
        if Successes(init) == 0 {
          forall i | 0 <= i < |init| && init[i].Some?
            ensures false
          {
            SuccessCounted(init, i);
          }
          assert ds[n].Some? && ds[n].value * 1000.0 == m.minTimeMs.value;
          assert ds[n].Some? && ds[n].value * 1000.0 == m.maxTimeMs.value;
        } else {
          var j :| 0 <= j < |init| && init[j].Some? && init[j].value * 1000.0 == p.minTimeMs.value;
          var k :| 0 <= k < |init| && init[k].Some? && init[k].value * 1000.0 == p.maxTimeMs.value;
          if m.minTimeMs == p.minTimeMs {
            assert ds[j].Some? && ds[j].value * 1000.0 == m.minTimeMs.value;
          } else {
            assert ds[n].Some? && ds[n].value * 1000.0 == m.minTimeMs.value;
          }
          if m.maxTimeMs == p.maxTimeMs {
            assert ds[k].Some? && ds[k].value * 1000.0 == m.maxTimeMs.value;
          } else {
            assert ds[n].Some? && ds[n].value * 1000.0 == m.maxTimeMs.value;
          }
        }
      } else if Successes(ds) > 0 {
        var j :| 0 <= j < |init| && init[j].Some? && init[j].value * 1000.0 == p.minTimeMs.value;
        var k :| 0 <= k < |init| && init[k].Some? && init[k].value * 1000.0 == p.maxTimeMs.value;
        assert ds[j].Some? && ds[j].value * 1000.0 == m.minTimeMs.value;
        assert ds[k].Some? && ds[k].value * 1000.0 == m.maxTimeMs.value;
      }
    }
  }

  /** Successes of 10, 20 and 30 ms average to 20 ms. */
  lemma AverageExample(callersNumber: int)
    ensures FoldAll(AggregateState(Defaults(callersNumber), 0.0), [Some(0.01), Some(0.02), Some(0.03)])
              .metrics.averageTimeMs == Some(20.0)
  {
    var s0 := AggregateState(Defaults(callersNumber), 0.0);
    var ds := [Some(0.01), Some(0.02), Some(0.03)];
    assert ds[..2] == [Some(0.01), Some(0.02)] && ds[..2][..1] == [Some(0.01)];
    assert [Some(0.01)][..0] == [];
    assert FoldAll(s0, [Some(0.01)]) == Fold(s0, Some(0.01));
  }

  /** Successes of 50, 10 and 30 ms give a minimum of 10 ms and a maximum of 50 ms. */
  lemma MinMaxExample(callersNumber: int)
    ensures var m := FoldAll(AggregateState(Defaults(callersNumber), 0.0),
                             [Some(0.05), Some(0.01), Some(0.03)]).metrics;
      m.minTimeMs == Some(10.0) && m.maxTimeMs == Some(50.0)
  {
    var s0 := AggregateState(Defaults(callersNumber), 0.0);
    var ds := [Some(0.05), Some(0.01), Some(0.03)];
    assert ds[..2] == [Some(0.05), Some(0.01)] && ds[..2][..1] == [Some(0.05)];
    assert [Some(0.05)][..0] == [];
    assert FoldAll(s0, [Some(0.05)]) == Fold(s0, Some(0.05));
  }

  /**
   * What `stop` leaves behind, as written: `reset_values` on the record, and
   * `average_time_sum_ms` untouched.
   */
  function StopAsWritten(s: AggregateState): (r: AggregateState)
    ensures r.metrics.CountersZero() && r.metrics.TimingZero()
    ensures r.averageTimeSumMs == s.averageTimeSumMs
  {
    AggregateState(s.metrics.Reset(), s.averageTimeSumMs)
  }

  /**
   * After a stop/start cycle, the first positive delay cannot lower the
   * minimum below the 0 the reset left, and the average is taken over the
   * stale sum, so it differs from the only delay seen when that sum was not 0.
   */
  lemma RestartPinsMinimumAtZero(s: AggregateState, seconds: real)
    requires seconds > 0.0
    ensures var r := Fold(StopAsWritten(s), Some(seconds)).metrics;
      && r.minTimeMs == Some(0.0)
      && r.lastTimeMs == Some(seconds * 1000.0)
      && r.averageTimeMs == Some(s.averageTimeSumMs + seconds * 1000.0)
      && (s.averageTimeSumMs != 0.0 ==> r.averageTimeMs != r.lastTimeMs)
  {
    var r := Fold(StopAsWritten(s), Some(seconds));
    assert r.metrics.sucessNumber == 1;
  }

  /** A concrete instance: a 100 ms sum carried over, then one 20 ms probe. */
  lemma RestartExample(callersNumber: int)
    ensures var before := FoldAll(AggregateState(Defaults(callersNumber), 0.0), [Some(0.1)]);
      var after := Fold(StopAsWritten(before), Some(0.02)).metrics;
      after.minTimeMs == Some(0.0) && after.averageTimeMs == Some(120.0) && after.lastTimeMs == Some(20.0)
  {
    var before := FoldAll(AggregateState(Defaults(callersNumber), 0.0), [Some(0.1)]);
    assert before.averageTimeSumMs == 100.0;
    RestartPinsMinimumAtZero(before, 0.02);
  }

  /** What `stop` evidently means to leave: the defaults of a fresh record and a zero sum. */
  function IntendedStop(s: AggregateState): (r: AggregateState)
    ensures r.metrics.callersNumber == s.metrics.callersNumber
    ensures r.metrics.CountersZero() && r.metrics.TimingUndefined() && r.averageTimeSumMs == 0.0
  {
    AggregateState(Defaults(s.metrics.callersNumber), 0.0)
  }

  /**
   * With the intended reset, any run after a restart is again coherent, so
   * once a probe has succeeded the minimum, average and maximum are ordered.
   */
  lemma IntendedRestartIsCoherent(s: AggregateState, ds: seq<Option<real>>)
    ensures Coherent(FoldAll(IntendedStop(s), ds))
    ensures var m := FoldAll(IntendedStop(s), ds).metrics;
      m.sucessNumber > 0 ==> m.minTimeMs.value <= m.averageTimeMs.value <= m.maxTimeMs.value
  {
    FreshIsCoherent(s.metrics.callersNumber);
    FoldAllKeepsCoherent(IntendedStop(s), ds);
    var r := FoldAll(IntendedStop(s), ds);
    if r.metrics.sucessNumber > 0 {
      CoherentBounds(r);
    }
  }

  /** `range(callers_number)`: a non-positive count issues no probe. */
  function BurstSize(callersNumber: int): (n: nat)
    ensures callersNumber > 0 ==> n == callersNumber
    ensures callersNumber <= 0 ==> n == 0
  {
    if callersNumber > 0 then callersNumber else 0
  }

  /**
   * `__manage_requests` lines 64-67: the pause before the next burst, `None`
   * when the burst took the whole interval or more.
   */
  function SleepDuration(pollingInterval: real, initialTime: real, endTime: real): (d: Option<real>)
    ensures d.Some? <==> pollingInterval - (endTime - initialTime) > 0.0
    ensures d.Some? ==> d.value > 0.0
  {
    var remaining := pollingInterval - (endTime - initialTime);
    if remaining > 0.0 then Some(remaining) else None
  }

  /**
   * The next burst starts one interval after the previous one started, or
   * straight away when the burst overran: never earlier, and with no catch-up.
   */
  lemma NextBurstStart(pollingInterval: real, initialTime: real, endTime: real)
    ensures var next := match SleepDuration(pollingInterval, initialTime, endTime)
                        case Some(d) => endTime + d
                        case None => endTime;
      && next >= endTime && next >= initialTime + pollingInterval
      && (next == endTime || next == initialTime + pollingInterval)
  {
  }

  /** One iteration of the polling loop: the outcomes in completion order and the clock readings. */
  datatype BurstRecord = BurstRecord(completed: seq<ProbeOutcome>, initialTime: real, endTime: real)

  /** All delays of a run of bursts, burst after burst. */
  function RunDelays(bursts: seq<BurstRecord>): seq<Option<real>>
    decreases |bursts|
  {
    if bursts == [] then [] else RunDelays(bursts[..|bursts| - 1]) + Delays(bursts[|bursts| - 1].completed)
  }

  lemma {:induction false} FoldAllAppend(s: AggregateState, xs: seq<Option<real>>, ys: seq<Option<real>>)
    ensures FoldAll(s, xs + ys) == FoldAll(FoldAll(s, xs), ys)
    decreases |ys|
  {
    if ys == [] {
      assert xs + ys == xs;
    } else {
      var zs := xs + ys;
      assert zs[..|zs| - 1] == xs + ys[..|ys| - 1];
      FoldAllAppend(s, xs, ys[..|ys| - 1]);
    }
  }

  class Request {
    const address: string
    const timeout: int
    const pollingInterval: real
    const callersNumber: int
    const metrics: RequestMetrics
    var averageTimeSumMs: real
    /** `task is not None`. */
    var running: bool
    /** The exception the polling task ended with, if it ended by raising one. */
    var taskError: Option<Error>
    /** `update_callback` is set. */
    var hasCallback: bool

    /** The aggregate the fold works on. */
    function State(): AggregateState
      reads this, metrics
    {
      AggregateState(metrics.Value(), averageTimeSumMs)
    }

    constructor (address: string, timeout: int := 10, pollingInterval: real := 1.0,
                 callersNumber: int := 1, hasCallback: bool := false)
      ensures this.address == address && this.timeout == timeout
      ensures this.pollingInterval == pollingInterval && this.callersNumber == callersNumber
      ensures fresh(metrics) && State() == AggregateState(Defaults(callersNumber), 0.0)
      ensures !running && taskError.None? && this.hasCallback == hasCallback
    {
      this.address := address;
      this.timeout := timeout;
      this.pollingInterval := pollingInterval;
      this.callersNumber := callersNumber;
      this.hasCallback := hasCallback;
      metrics := new RequestMetrics(callersNumber);
      averageTimeSumMs := 0.0;
      running := false;
      taskError := None;
    }

    /** `start`: refuses a second start; otherwise the task exists and nothing else changes. */
    method Start() returns (res: Outcome<Error>)
      modifies this`running
      ensures old(running) ==> res == Fail(AlreadyStarted)
      ensures !old(running) ==> res == Pass
      ensures running
    {
      if running {
        return Fail(AlreadyStarted);
      }
      running := true;
      res := Pass;
    }

    /**
     * `stop`: refuses when there is no task. Awaiting a task that already ended
     * by raising re-raises that exception, so the task stays set and nothing is
     * reset. Otherwise the task is gone and the record is reset, while
     * `average_time_sum_ms` keeps its value.
     */
    method Stop() returns (res: Outcome<Error>)
      modifies this`running, metrics
      ensures averageTimeSumMs == old(averageTimeSumMs)
      ensures !old(running) ==> res == Fail(AlreadyStopped) && !running && unchanged(metrics)
      ensures old(running) && taskError.Some? ==> res == Fail(taskError.value) && running && unchanged(metrics)
      ensures old(running) && taskError.None? ==> res == Pass && !running && State() == StopAsWritten(old(State()))
    {
      if !running {
        return Fail(AlreadyStopped);
      }
      if taskError.Some? {
        return Fail(taskError.value);
      }
      running := false;
      ResetMetrics();
      res := Pass;
    }

    /** `__reset_metrics`. */
    method ResetMetrics()
      modifies metrics
      ensures metrics.Value() == old(metrics.Value()).Reset()
    {
      metrics.ResetValues();
    }

    /** `set_update_callback`. */
    method SetUpdateCallback()
      modifies this`hasCallback
      ensures hasCallback
    {
      hasCallback := true;
    }

    /**
     * The polling task ends because `error` escaped `__run_request` and
     * `gather`: the task stays set, but no probe of it runs any more.
     */
    method TaskRaised(error: Error)
      requires running && taskError.None?
      modifies this`taskError
      ensures taskError == Some(error)
    {
      taskError := Some(error);
    }

    /** `get_metrics`: a rounded snapshot of the live record. */
    function GetMetrics(round: Rounder): (m: Metrics)
      reads this, metrics
      ensures m.totalNumber == metrics.totalNumber && m.sucessNumber == metrics.sucessNumber
      ensures m.errorNumber == metrics.errorNumber && m.callersNumber == metrics.callersNumber
      ensures m.TimingUndefined() <==> metrics.Value().TimingUndefined()
    {
      metrics.Value().GetValuesFormated(round)
    }

    /** `__update_metrics`, assigning the fields one by one as the source does. */
    method UpdateMetrics(delay: Option<real>)
      modifies this`averageTimeSumMs, metrics
      ensures State() == Fold(old(State()), delay)
    {
      metrics.totalNumber := metrics.totalNumber + 1;
      if delay.Some? {
        var ms := delay.value * 1000.0;
        metrics.sucessNumber := metrics.sucessNumber + 1;
        averageTimeSumMs := averageTimeSumMs + ms;
        if metrics.averageTimeMs.None? {
          metrics.averageTimeMs := Some(ms);
        } else {
          metrics.averageTimeMs := Some(averageTimeSumMs / metrics.sucessNumber as real);
        }
        if metrics.minTimeMs.None? {
          metrics.minTimeMs := Some(ms);
        } else if metrics.minTimeMs.value > ms {
          metrics.minTimeMs := Some(ms);
        }
        if metrics.maxTimeMs.None? {
          metrics.maxTimeMs := Some(ms);
        } else if metrics.maxTimeMs.value < ms {
          metrics.maxTimeMs := Some(ms);
        }
        metrics.lastTimeMs := Some(ms);
      } else {
        metrics.errorNumber := metrics.errorNumber + 1;
      }
      metrics.lossPercentage := Loss(metrics.errorNumber, metrics.totalNumber);
    }

    /**
     * `__run_request` of a live polling task, after the probe returned: the outcome is folded and,
     * when a callback is set, the snapshot it would be called with is returned.
     */
    method RunRequest(outcome: ProbeOutcome, round: Rounder) returns (notification: Option<Metrics>)
      requires running && taskError.None?
      modifies this`averageTimeSumMs, metrics
      ensures State() == Fold(old(State()), DelayOf(outcome))
      ensures notification == if hasCallback then Some(GetMetrics(round)) else None
    {
      UpdateMetrics(DelayOf(outcome));
      notification := if hasCallback then Some(GetMetrics(round)) else None;
    }

    /**
     * One burst of `__manage_requests`: `callers_number` probes, folded in the
     * order they complete, each followed by its own notification carrying the
     * snapshot of the aggregate right after its fold.
     */
    method Burst(completed: seq<ProbeOutcome>, round: Rounder) returns (notifications: seq<Option<Metrics>>)
      requires running && taskError.None?
      requires |completed| == BurstSize(callersNumber)
      modifies this`averageTimeSumMs, metrics
      ensures State() == FoldAll(old(State()), Delays(completed))
      ensures |notifications| == |completed|
      ensures forall i :: 0 <= i < |completed| ==>
        notifications[i] == if hasCallback
          then Some(FoldAll(old(State()), Delays(completed)[..i + 1]).metrics.GetValuesFormated(round))
          else None
    {
      ghost var s0 := State();
      ghost var ds := Delays(completed);
      notifications := [];
      var i := 0;
      while i < |completed|
        invariant 0 <= i <= |completed|
        invariant State() == FoldAll(s0, ds[..i])
        invariant |notifications| == i
        invariant forall j :: 0 <= j < i ==>
          notifications[j] == if hasCallback
            then Some(FoldAll(s0, ds[..j + 1]).metrics.GetValuesFormated(round))
            else None
      {
        var n := RunRequest(completed[i], round);
        assert ds[..i + 1][..i] == ds[..i];
        notifications := notifications + [n];
        i := i + 1;
      }
      assert ds[..i] == ds;
    }

    /**
     * `__manage_requests` over the bursts that ran before the task was
     * cancelled: each burst folds its outcomes, then the loop sleeps by
     * `SleepDuration` of its clock readings.
     */
    method ManageRequests(bursts: seq<BurstRecord>, round: Rounder) returns (sleeps: seq<Option<real>>)
      requires running && taskError.None?
      requires forall k :: 0 <= k < |bursts| ==> |bursts[k].completed| == BurstSize(callersNumber)
      modifies this`averageTimeSumMs, metrics
      ensures State() == FoldAll(old(State()), RunDelays(bursts))
      ensures |sleeps| == |bursts|
      ensures forall k :: 0 <= k < |bursts| ==>
        sleeps[k] == SleepDuration(pollingInterval, bursts[k].initialTime, bursts[k].endTime)
    {
      sleeps := [];
      var k := 0;
      while k < |bursts|
        invariant 0 <= k <= |bursts|
        invariant State() == FoldAll(old(State()), RunDelays(bursts[..k]))
        invariant |sleeps| == k
        invariant forall j :: 0 <= j < k ==>
          sleeps[j] == SleepDuration(pollingInterval, bursts[j].initialTime, bursts[j].endTime)
      {
        ghost var before := State();
        var _ := Burst(bursts[k].completed, round);
        assert bursts[..k + 1][..k] == bursts[..k];
        FoldAllAppend(old(State()), RunDelays(bursts[..k]), Delays(bursts[k].completed));
        sleeps := sleeps + [SleepDuration(pollingInterval, bursts[k].initialTime, bursts[k].endTime)];
        k := k + 1;
      }
      assert bursts[..k] == bursts;
    }
  }
}
