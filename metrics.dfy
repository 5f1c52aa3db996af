/**
 * The timing recorder of src/utils/performance_metrics.py: phase start and end
 * marks, the latest duration of each phase, and a bounded history of the most
 * recent inference durations from which the inference rate is derived. Every
 * reading of `time.perf_counter()` is the parameter `now`, in seconds.
 */
module Metrics {
  import opened Wrappers
  import opened Sequences

  const DEFAULT_HISTORY_SIZE: nat := 100

  const PREPROCESSING := "preprocessing"
  const INFERENCE := "inference"
  const POSTPROCESSING := "postprocessing"

  /** The key under which the start mark of `phase` is kept. */
  function StartKey(phase: string): string {
    phase + "_start"
  }

  /** The duration in ms of `phase`, ended at `now`, from its start mark in `phaseTimes`. */
  function Duration(phaseTimes: map<string, real>, phase: string, now: real): real
    requires StartKey(phase) in phaseTimes
  {
    (now - phaseTimes[StartKey(phase)]) * 1000.0
  }

  /** The last `n` elements of `xs` (all of them when there are fewer). */
  function LastN(xs: seq<real>, n: nat): (r: seq<real>)
    ensures |r| == if |xs| < n then |xs| else n
    ensures r == xs[|xs| - |r|..]
  {
    if |xs| <= n then xs else xs[|xs| - n..]
  }

  /**
   * `q.append(x)` on a `deque(maxlen=maxlen)` holding at most `maxlen`
   * elements: when full, the oldest element is dropped first.
   */
  function BoundedAppend(q: seq<real>, x: real, maxlen: nat): (r: seq<real>)
    requires |q| <= maxlen
    ensures |r| <= maxlen
    ensures |r| == if |q| < maxlen then |q| + 1 else maxlen
    ensures r == (q + [x])[|q| + 1 - |r|..]
  {
    if maxlen == 0 then []
    else if |q| < maxlen then q + [x]
    else q[1..] + [x]
  }

  /** A deque of the last `n` values, appended to, holds the last `n` values of the longer sequence. */
  lemma BoundedAppendKeepsLast(xs: seq<real>, x: real, n: nat)
    ensures BoundedAppend(LastN(xs, n), x, n) == LastN(xs + [x], n)
  {
    var q := LastN(xs, n);
    var ys := xs + [x];
    var r := BoundedAppend(q, x, n);
    var m := |LastN(ys, n)|;
    assert |r| == m;
    assert q + [x] == ys[|ys| - |q| - 1..];
    assert ys[|ys| - |q| - 1..][|q| + 1 - m..] == ys[|ys| - m..];
  }

  /** Values of `get_current_metrics`, keyed as in the source. */
  const CURRENT_METRICS_KEYS := {"preprocessing_time", "inference_latency", "postprocessing_time", "total_latency", "real_time_fps"}

  class PerformanceMetrics {
    const historySize: nat
    var preprocessingTime: real
    var inferenceTime: real
    var postprocessingTime: real
    var totalTime: real
    /** The recent inference durations in ms, oldest first. */
    var inferenceHistory: seq<real>
    var startTime: Option<real>
    /** Phase durations in ms, and phase start marks under `StartKey(phase)`. */
    var phaseTimes: map<string, real>
    /** Every inference duration recorded since creation or the last reset. */
    ghost var inferenceDurations: seq<real>

    /** The history is the last `historySize` inference durations recorded, so it never outgrows its bound. */
    ghost predicate Valid()
      reads this
    {
      inferenceHistory == LastN(inferenceDurations, historySize)
    }

    constructor(historySize: nat := DEFAULT_HISTORY_SIZE)
      ensures Valid() && this.historySize == historySize && inferenceDurations == []
      ensures preprocessingTime == 0.0 && inferenceTime == 0.0 && postprocessingTime == 0.0 && totalTime == 0.0
      ensures inferenceHistory == [] && startTime == None && phaseTimes == map[]
    {
      this.historySize := historySize;
      preprocessingTime := 0.0;
      inferenceTime := 0.0;
      postprocessingTime := 0.0;
      totalTime := 0.0;
      inferenceHistory := [];
      startTime := None;
      phaseTimes := map[];
      inferenceDurations := [];
    }

    /** Starts a cycle at `now`: the three phase durations read 0 and earlier start marks are dropped. */
    method StartMeasurement(now: real)
      modifies this
      ensures startTime == Some(now)
      ensures phaseTimes == map[PREPROCESSING := 0.0, INFERENCE := 0.0, POSTPROCESSING := 0.0]
      ensures forall phase :: StartKey(phase) !in phaseTimes
      ensures preprocessingTime == old(preprocessingTime) && inferenceTime == old(inferenceTime)
      ensures postprocessingTime == old(postprocessingTime) && totalTime == old(totalTime)
      ensures inferenceHistory == old(inferenceHistory) && inferenceDurations == old(inferenceDurations)
    {
      startTime := Some(now);
      phaseTimes := map[PREPROCESSING := 0.0, INFERENCE := 0.0, POSTPROCESSING := 0.0];
      forall phase ensures StartKey(phase) !in phaseTimes {
        assert |StartKey(phase)| >= 6 && |StartKey(phase)| == |phase| + 6;
        assert StartKey(phase)[|phase|..] == "_start";
      }
    }

    /** Records `now` as the start of `phase`. */
    method MarkPhaseStart(phase: string, now: real)
      modifies this
      ensures phaseTimes == old(phaseTimes)[StartKey(phase) := now]
      ensures preprocessingTime == old(preprocessingTime) && inferenceTime == old(inferenceTime)
      ensures postprocessingTime == old(postprocessingTime) && totalTime == old(totalTime)
      ensures inferenceHistory == old(inferenceHistory) && startTime == old(startTime)
      ensures inferenceDurations == old(inferenceDurations)
    {
      phaseTimes := phaseTimes[StartKey(phase) := now];
    }

    /**
     * Ends `phase` at `now`. Without a start mark nothing changes; otherwise
     * the duration in ms is stored for the phase, the field of a known phase
     * takes it, and an inference duration also enters the bounded history.
     */
    method MarkPhaseEnd(phase: string, now: real)
      requires Valid()
      modifies this
      ensures Valid() && |inferenceHistory| <= historySize
      ensures StartKey(phase) !in old(phaseTimes) ==> unchanged(this)
      ensures StartKey(phase) in old(phaseTimes) ==>
                phaseTimes == old(phaseTimes)[phase := Duration(old(phaseTimes), phase, now)]
      ensures StartKey(phase) in old(phaseTimes) ==>
                preprocessingTime == if phase == PREPROCESSING then Duration(old(phaseTimes), phase, now) else old(preprocessingTime)
      ensures StartKey(phase) in old(phaseTimes) ==>
                inferenceTime == if phase == INFERENCE then Duration(old(phaseTimes), phase, now) else old(inferenceTime)
      ensures StartKey(phase) in old(phaseTimes) ==>
                postprocessingTime == if phase == POSTPROCESSING then Duration(old(phaseTimes), phase, now) else old(postprocessingTime)
      ensures StartKey(phase) in old(phaseTimes) && phase == INFERENCE ==>
                inferenceDurations == old(inferenceDurations) + [Duration(old(phaseTimes), phase, now)]
      ensures phase != INFERENCE ==> inferenceHistory == old(inferenceHistory) && inferenceDurations == old(inferenceDurations)
      ensures totalTime == old(totalTime) && startTime == old(startTime)
    {
      var endTime := now;
      var startKey := StartKey(phase);
      if startKey in phaseTimes {
        var duration := (endTime - phaseTimes[startKey]) * 1000.0;
        phaseTimes := phaseTimes[phase := duration];
        if phase == PREPROCESSING {
          preprocessingTime := duration;
        } else if phase == INFERENCE {
          inferenceTime := duration;
          AppendInference(duration);
        } else if phase == POSTPROCESSING {
          postprocessingTime := duration;
        }
      }
    }

    /** `inference_history.append(duration)`: the history stays the last `historySize` durations recorded. */
    method AppendInference(duration: real)
      requires Valid()
      modifies this
      ensures Valid() && |inferenceHistory| <= historySize
      ensures inferenceDurations == old(inferenceDurations) + [duration]
      ensures preprocessingTime == old(preprocessingTime) && inferenceTime == old(inferenceTime)
      ensures postprocessingTime == old(postprocessingTime) && totalTime == old(totalTime)
      ensures startTime == old(startTime) && phaseTimes == old(phaseTimes)
    {
      BoundedAppendKeepsLast(inferenceDurations, duration, historySize);
      inferenceHistory := BoundedAppend(inferenceHistory, duration, historySize);
      inferenceDurations := inferenceDurations + [duration];
    }

    /** Stores the time since the start of the cycle in ms, if a cycle was started. */
    method EndMeasurement(now: real)
      modifies this
      ensures totalTime == if old(startTime).Some? then (now - old(startTime).value) * 1000.0 else old(totalTime)
      ensures preprocessingTime == old(preprocessingTime) && inferenceTime == old(inferenceTime)
      ensures postprocessingTime == old(postprocessingTime) && startTime == old(startTime)
      ensures inferenceHistory == old(inferenceHistory) && phaseTimes == old(phaseTimes)
      ensures inferenceDurations == old(inferenceDurations)
    {
      if startTime.Some? {
        totalTime := (now - startTime.value) * 1000.0;
      }
    }

    /**
     * `get_fps`: inferences per second at the mean recorded latency, that is the
     * rate whose product with the mean latency in ms is 1000; 0 when there is
     * no history, the latest latency is 0, or the mean is not positive.
     */
    function GetFps(): (fps: real)
      reads this
      ensures fps >= 0.0
      ensures fps > 0.0 <==> inferenceHistory != [] && inferenceHistory[|inferenceHistory| - 1] != 0.0
                             && Sum(inferenceHistory) > 0.0
      ensures fps > 0.0 ==> fps * Sum(inferenceHistory) == 1000.0 * (|inferenceHistory| as real)
    {
      if inferenceHistory == [] || inferenceHistory[|inferenceHistory| - 1] == 0.0 then 0.0
      else
        var n := |inferenceHistory| as real;
        var avgInferenceTimeMs := Sum(inferenceHistory) / n;
        assert avgInferenceTimeMs * n == Sum(inferenceHistory);
        if avgInferenceTimeMs > 0.0 then
          var fps := 1000.0 / avgInferenceTimeMs;
          assert fps * avgInferenceTimeMs == 1000.0;
          assert fps * Sum(inferenceHistory) == fps * (avgInferenceTimeMs * n);
          fps
        else 0.0
    }

    /** `get_current_metrics`: the five current values, unchanged, under fixed keys. */
    function GetCurrentMetrics(): (m: map<string, real>)
      reads this
      ensures m.Keys == CURRENT_METRICS_KEYS
      ensures m["preprocessing_time"] == preprocessingTime && m["inference_latency"] == inferenceTime
      ensures m["postprocessing_time"] == postprocessingTime && m["total_latency"] == totalTime
      ensures m["real_time_fps"] == GetFps()
    {
      map["preprocessing_time" := preprocessingTime, "inference_latency" := inferenceTime,
          "postprocessing_time" := postprocessingTime, "total_latency" := totalTime,
          "real_time_fps" := GetFps()]
    }

    /** Zeroes the timings and empties the history, so the rate reads 0 until the next inference. */
    method Reset()
      modifies this
      ensures Valid()
      ensures preprocessingTime == 0.0 && inferenceTime == 0.0 && postprocessingTime == 0.0 && totalTime == 0.0
      ensures inferenceHistory == [] && startTime == None && phaseTimes == map[] && inferenceDurations == []
      ensures GetFps() == 0.0
    {
      preprocessingTime := 0.0;
      inferenceTime := 0.0;
      postprocessingTime := 0.0;
      totalTime := 0.0;
      inferenceHistory := [];
      startTime := None;
      phaseTimes := map[];
      inferenceDurations := [];
    }
  }
}
