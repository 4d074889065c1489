/**
 * The microphone capture manager: an `is_recording` flag guards starting and
 * stopping, the driver's callback enqueues frames only while recording, and a
 * consumer hands queued frames to the registered callback one at a time.
 * The driver, the consumer thread and its timeouts are replaced by explicit
 * operations: `AudioCallback` is one driver callback, `ConsumerStep` is one
 * turn of the consumer loop.
 */
module AudioCapture {
  import opened Common

  /** The `stream` field: no stream, a stream that was built but whose
      `start()` raised, or a running stream. */
  datatype StreamState = NoStream | Constructed | Running

  /** What building and starting the input stream does this time. */
  datatype StreamOpening = Opens | ConstructionFails | StartFails

  /** How `start_stream` ends: it started, it returned at once because a
      recording is already under way, or the stream error propagated. */
  datatype StartResult = Started | AlreadyRecording | StreamFailed

  /** One turn of the consumer loop: the loop ended because recording is off,
      the queue get timed out, or the oldest frame was taken and handed to the
      callback (when one is set). */
  datatype ConsumerTurn = Exited | TimedOut | Took(frame: Frame, callback: Option<Handler>)

  class AudioCaptureManager {
    const sampleRate: int
    const channels: int
    var deviceId: Option<int>
    var stream: StreamState
    var isRecording: bool
    var callback: Option<Handler>
    /** The unbounded frame queue (`audio_queue`), oldest first. */
    var queue: seq<Frame>
    /** Every frame ever enqueued, and every frame ever removed, in order. */
    ghost var accepted: seq<Frame>
    ghost var taken: seq<Frame>

    /** The queue is first in, first out: what was accepted is what was taken
        followed by what still waits; while recording the stream runs and a
        callback is registered, and otherwise no stream runs and nothing
        waits in the queue. */
    ghost predicate Valid()
      reads this
    {
      accepted == taken + queue &&
      (isRecording ==> stream == Running && callback.Some?) &&
      (!isRecording ==> stream != Running && queue == [])
    }

    constructor (sampleRate: int, channels: int, deviceId: Option<int>)
      ensures Valid()
      ensures this.sampleRate == sampleRate && this.channels == channels && this.deviceId == deviceId
      ensures stream == NoStream && !isRecording && callback == None && queue == []
      ensures accepted == [] && taken == []
    {
      this.sampleRate := sampleRate;
      this.channels := channels;
      this.deviceId := deviceId;
      stream := NoStream;
      isRecording := false;
      callback := None;
      queue := [];
      accepted := [];
      taken := [];
    }

    /** `set_device`: records the device for the next stream only. */
    method SetDevice(id: int)
      modifies this
      ensures deviceId == Some(id)
      ensures stream == old(stream) && isRecording == old(isRecording) && callback == old(callback)
      ensures queue == old(queue) && accepted == old(accepted) && taken == old(taken)
    {
      deviceId := Some(id);
    }

    /** `start_stream`: a no-op while recording; otherwise stores the callback
        and raises the flag before opening the stream, and lowers the flag
        again when opening fails. */
    method StartStream(handler: Handler, opening: StreamOpening) returns (r: StartResult)
      requires Valid()
      modifies this
      ensures Valid()
      ensures old(isRecording) ==> r == AlreadyRecording && unchanged(this)
      ensures !old(isRecording) ==> callback == Some(handler)
      ensures !old(isRecording) && opening == Opens ==> r == Started && isRecording && stream == Running
      ensures !old(isRecording) && opening == ConstructionFails ==>
                r == StreamFailed && !isRecording && stream == old(stream)
      ensures !old(isRecording) && opening == StartFails ==>
                r == StreamFailed && !isRecording && stream == Constructed
      ensures deviceId == old(deviceId) && queue == old(queue) && accepted == old(accepted) && taken == old(taken)
    {
      if isRecording {
        return AlreadyRecording;
      }
      callback := Some(handler);
      isRecording := true;
      // The consumer thread starts here; `ConsumerStep` stands for its turns.
      match opening {
        case Opens =>
          stream := Running;
          r := Started;
        case ConstructionFails =>
          isRecording := false;
          r := StreamFailed;
        case StartFails =>
          stream := Constructed;
          isRecording := false;
          r := StreamFailed;
      }
    }

    /** `stop_stream`: a no-op unless recording; otherwise lowers the flag,
        closes the stream and drains the queue. */
    method StopStream()
      requires Valid()
      modifies this
      ensures Valid()
      ensures !old(isRecording) ==> unchanged(this)
      ensures old(isRecording) ==> !isRecording && stream == NoStream && queue == [] &&
                                   taken == old(taken) + old(queue)
      ensures callback == old(callback) && deviceId == old(deviceId) && accepted == old(accepted)
    {
      if !isRecording {
        return;
      }
      isRecording := false;
      if stream != NoStream {
        stream := NoStream;
      }
      while queue != []
        invariant !isRecording && stream == NoStream
        invariant callback == old(callback) && deviceId == old(deviceId) && accepted == old(accepted)
        invariant accepted == taken + queue
        invariant taken + queue == old(taken) + old(queue)
        decreases |queue|
      {
        taken := taken + [queue[0]];
        queue := queue[1..];
      }
    }

    /** `_audio_callback`: one block from the driver, queued only while recording. */
    method AudioCallback(frame: Frame)
      requires Valid()
      modifies this
      ensures Valid()
      ensures isRecording == old(isRecording) && stream == old(stream) && callback == old(callback)
      ensures deviceId == old(deviceId) && taken == old(taken)
      ensures old(isRecording) ==> queue == old(queue) + [frame] && accepted == old(accepted) + [frame]
      ensures !old(isRecording) ==> queue == old(queue) && accepted == old(accepted)
    {
      if isRecording {
        queue := queue + [frame];
        accepted := accepted + [frame];
      }
    }

    /** One turn of `_process_audio`: while recording, the oldest queued frame
        is taken and handed to the callback; an empty queue times out. */
    method ConsumerStep() returns (turn: ConsumerTurn)
      requires Valid()
      modifies this
      ensures Valid()
      ensures isRecording == old(isRecording) && stream == old(stream) && callback == old(callback)
      ensures deviceId == old(deviceId) && accepted == old(accepted)
      ensures !old(isRecording) ==> turn == Exited && unchanged(this)
      ensures old(isRecording) && old(queue) == [] ==> turn == TimedOut && unchanged(this)
      ensures old(isRecording) && old(queue) != [] ==>
                turn == Took(old(queue)[0], callback) && callback.Some? &&
                queue == old(queue)[1..] && taken == old(taken) + [old(queue)[0]]
    {
      if !isRecording {
        return Exited;
      }
      if queue == [] {
        return TimedOut;
      }
      var frame := queue[0];
      queue := queue[1..];
      taken := taken + [frame];
      turn := Took(frame, callback);
    }

    /** Consumer turns until the queue is empty: while recording, every queued
        frame is handed over, oldest first. */
    method ConsumeQueued() returns (handed: seq<Frame>)
      requires Valid()
      modifies this
      ensures Valid()
      ensures isRecording == old(isRecording) && stream == old(stream) && callback == old(callback)
      ensures deviceId == old(deviceId) && accepted == old(accepted)
      ensures old(isRecording) ==> handed == old(queue) && queue == [] && taken == old(taken) + old(queue)
      ensures !old(isRecording) ==> handed == [] && queue == old(queue) && taken == old(taken)
    {
      handed := [];
      if !isRecording {
        return;
      }
      while queue != []
        invariant Valid() && isRecording
        invariant callback == old(callback) && stream == old(stream) && deviceId == old(deviceId)
        invariant accepted == old(accepted)
        invariant handed + queue == old(queue)
        invariant taken == old(taken) + handed
        decreases |queue|
      {
        var turn := ConsumerStep();
        handed := handed + [turn.frame];
      }
    }
  }

  /** The capture lifecycle end to end: frames that arrive before the start
      and after the stop are dropped, the ones in between reach the consumer in
      arrival order, and a second stop changes nothing. */
  method CaptureScenario(h: Handler, f1: Frame, f2: Frame, f3: Frame)
  {
    var capture := new AudioCaptureManager(16000, 1, None);
    capture.AudioCallback(f1);
    assert capture.queue == [];
    var r := capture.StartStream(h, Opens);
    assert r == Started;
    var again := capture.StartStream(h + 1, Opens);
    assert again == AlreadyRecording && capture.callback == Some(h);
    capture.AudioCallback(f2);
    capture.AudioCallback(f3);
    var handed := capture.ConsumeQueued();
    assert handed == [f2, f3];
    capture.StopStream();
    assert !capture.isRecording && capture.queue == [];
    capture.AudioCallback(f1);
    assert capture.queue == [];
    capture.StopStream();
    assert capture.stream == NoStream;
  }
}
