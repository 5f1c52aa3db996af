/**
 * The sequential core of the live view (src/ui/live_monitor.py): the recording
 * flags, the frame assembler of the prediction loop, which collects incoming
 * audio until a two-second window is buffered and keeps the rest for the next
 * window, and the confidence gate that decides what reaches the history, the
 * notification and the visual alert. The audio stream, the queue and the
 * prediction thread are replaced by the sequence of things the loop observes.
 */
module LiveMonitor {
  import opened Wrappers
  import opened State
  import opened ModelHandler

  const SAMPLE_RATE: int := 44100
  const DURATION: real := 2.0

  /** `int(x)` for a non-negative real: the fractional part is dropped. */
  function Truncate(x: real): (n: nat)
    requires x >= 0.0
    ensures n as real <= x < n as real + 1.0
  {
    x.Floor
  }

  /** The window length, `int(sample_rate * duration)`: two seconds at 44.1 kHz. */
  lemma BufferSizeValue()
    ensures Truncate(SAMPLE_RATE as real * DURATION) == 88200
  {
    assert SAMPLE_RATE as real * DURATION == 88200.0;
  }

  /**
   * What one poll of the prediction loop sees: a block from the audio callback
   * (frames of samples per channel), an empty queue after the 0.1 s timeout, or
   * a stop request from the UI thread that arrives before the next poll.
   */
  datatype Arrival = Chunk(frames: seq<seq<real>>) | Timeout | StopRequest

  /** `chunk.flatten()`: the samples of a block, frame by frame. */
  function Flatten(frames: seq<seq<real>>): (s: seq<real>) {
    if frames == [] then [] else Flatten(frames[..|frames| - 1]) + frames[|frames| - 1]
  }

  /** The samples the polls `arrivals` deliver, in arrival order. */
  function Delivered(arrivals: seq<Arrival>): seq<real> {
    if arrivals == [] then []
    else
      var last := arrivals[|arrivals| - 1];
      Delivered(arrivals[..|arrivals| - 1]) + (if last.Chunk? then Flatten(last.frames) else [])
  }

  /** How collecting a window ended. */
  datatype Collected = Window(samples: seq<real>) | Stopped | Starved

  /** What the gate did with one prediction. */
  datatype Reaction = Reaction(recorded: bool, notified: bool, visualAlert: bool)

  class LiveMonitorView {
    const bufferSize: nat
    var isRecording: bool
    var shouldStop: bool
    /** Whether an input stream is open (`self.stream is not None`). */
    var streamOpen: bool
    /** The samples collected and not yet analysed. */
    var audioBuffer: seq<real>

    constructor()
      ensures bufferSize == 88200 && !isRecording && !shouldStop && !streamOpen && audioBuffer == []
    {
      BufferSizeValue();
      bufferSize := Truncate(SAMPLE_RATE as real * DURATION);
      isRecording := false;
      shouldStop := false;
      streamOpen := false;
      audioBuffer := [];
    }

    /**
     * `start_recording`; when opening the stream fails, it stops again. Once
     * the stream is open a new prediction loop starts, and its buffer starts
     * empty; when no loop starts, nothing is buffered anew.
     */
    method StartRecording(streamOk: bool)
      modifies this
      ensures streamOk ==> isRecording && !shouldStop && streamOpen && audioBuffer == []
      ensures !streamOk ==> !isRecording && shouldStop && !streamOpen && audioBuffer == old(audioBuffer)
    {
      isRecording := true;
      shouldStop := false;
      if streamOk {
        streamOpen := true;
        audioBuffer := [];
      } else {
        StopRecording();
      }
    }

    /** `stop_recording`: the loop is told to stop and the stream is released. */
    method StopRecording()
      modifies this
      ensures !isRecording && shouldStop && !streamOpen
      ensures audioBuffer == old(audioBuffer)
    {
      isRecording := false;
      shouldStop := true;
      if streamOpen {
        streamOpen := false;
      }
    }

    /**
     * The inner loop of `_prediction_loop` and the split after it. Blocks are
     * appended, flattened and in order, while fewer than `bufferSize` samples
     * are buffered; a stop seen then ends the loop with no window. Otherwise the
     * first `bufferSize` samples are the window and the rest stays buffered.
     * `used` is how many polls were consumed; `Starved` means the polls ran out.
     */
    method CollectWindow(arrivals: seq<Arrival>) returns (outcome: Collected, used: nat)
      modifies this
      ensures used <= |arrivals|
      ensures forall k :: 0 <= k < used ==> |old(audioBuffer) + Delivered(arrivals[..k])| < bufferSize
      ensures outcome.Window? ==>
                && |outcome.samples| == bufferSize
                && outcome.samples + audioBuffer == old(audioBuffer) + Delivered(arrivals[..used])
      ensures !outcome.Window? ==>
                && audioBuffer == old(audioBuffer) + Delivered(arrivals[..used])
                && |audioBuffer| < bufferSize
      ensures outcome.Stopped? <==> !outcome.Window? && shouldStop
      ensures outcome.Starved? ==> used == |arrivals|
      ensures shouldStop == (old(shouldStop) || StopRequest in arrivals[..used])
      ensures isRecording == (old(isRecording) && StopRequest !in arrivals[..used])
      ensures streamOpen == (old(streamOpen) && StopRequest !in arrivals[..used])
    {
      used := 0;
      while |audioBuffer| < bufferSize
        invariant used <= |arrivals|
        invariant audioBuffer == old(audioBuffer) + Delivered(arrivals[..used])
        invariant forall k :: 0 <= k < used ==> |old(audioBuffer) + Delivered(arrivals[..k])| < bufferSize
        invariant shouldStop == (old(shouldStop) || StopRequest in arrivals[..used])
        invariant isRecording == (old(isRecording) && StopRequest !in arrivals[..used])
        invariant streamOpen == (old(streamOpen) && StopRequest !in arrivals[..used])
        decreases |arrivals| - used
      {
        if shouldStop {
          return Stopped, used;
        }
        if used == |arrivals| {
          return Starved, used;
        }
        assert arrivals[..used + 1] == arrivals[..used] + [arrivals[used]];
        match arrivals[used] {
          case Chunk(frames) =>
            audioBuffer := audioBuffer + Flatten(frames);
          case Timeout =>
          case StopRequest =>
            StopRecording();
        }
        used := used + 1;
      }
      outcome := Window(audioBuffer[..bufferSize]);
      audioBuffer := audioBuffer[bufferSize..];
    }

    /**
     * The gate after a prediction: a confidence of at least the configured
     * threshold records exactly one `live` entry, and only then is the result
     * shown, notified when notifications are on, and flashed when it is an alert
     * sound and visual alerts are on. Below the threshold nothing happens.
     */
    method Gate(result: Prediction, appState: AppState, now: int) returns (reaction: Reaction)
      requires appState.Valid()
      modifies appState
      ensures appState.Valid() && appState.settings == old(appState.settings)
      ensures reaction.recorded <==> result.confidence >= AsNumber(appState.settings[THRESHOLD_KEY])
      ensures reaction.recorded ==>
                appState.history == old(appState.history) + [Entry(now, result.sound, result.confidence, "live")]
      ensures !reaction.recorded ==> appState.history == old(appState.history)
      ensures reaction.notified <==> reaction.recorded && Truthy(appState.settings[NOTIFICATIONS_KEY])
      ensures reaction.visualAlert <==>
                reaction.recorded && result.isAlert && Truthy(appState.settings[VISUAL_ALERTS_KEY])
    {
      var threshold := appState.GetSetting(THRESHOLD_KEY).value;
      reaction := Reaction(false, false, false);
      if result.confidence >= AsNumber(threshold) {
        appState.AddToHistory(result.sound, result.confidence, "live", now);
        var notify := Truthy(appState.GetSetting(NOTIFICATIONS_KEY).value);
        var flash := result.isAlert && Truthy(appState.GetSetting(VISUAL_ALERTS_KEY).value);
        reaction := Reaction(true, notify, flash);
      }
    }
  }
}
