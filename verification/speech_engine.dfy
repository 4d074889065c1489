/**
 * The speech recognition engine: chunks are queued by `process_audio`, a
 * processing loop feeds them one at a time to the recognizer and dispatches
 * a final or a partial result to the registered callbacks, and `reset`
 * replaces the recognizer and empties the queue. The recognizer itself is an
 * oracle: what it answers is a function of everything fed to it since it was
 * built. The processing thread is replaced by `ProcessStep`, one turn of its
 * loop.
 */
module Speech {
  import opened Common

  /** What the current recognizer has been given since it was built: an audio
      chunk, or a request for the final result. */
  datatype RecognizerInput = Chunk(frame: Frame) | Flush

  /** The behaviour of the recognizers a loaded model builds: whether the last
      chunk completes an utterance (`AcceptWaveform`), and the text of
      `Result`, `PartialResult` and `FinalResult`, each as a function of the
      inputs given so far. */
  datatype Recognizer = Recognizer(
    accepts: seq<RecognizerInput> -> bool,
    result: seq<RecognizerInput> -> string,
    partial: seq<RecognizerInput> -> string,
    finalResult: seq<RecognizerInput> -> string)

  /** Which callback one processed chunk calls, and with what text. */
  datatype Fired = FinalFired(callback: Handler, text: string) | PartialFired(callback: Handler, text: string) | NothingFired

  /** One turn of the processing loop: the loop ended, the queue get timed
      out, or the oldest chunk was processed. */
  datatype EngineTurn = Stopped | Waited | Processed(frame: Frame, fired: Fired)

  /** `_process_chunk` after the recognizer has been given `history`, whose
      last entry is the chunk. */
  function Dispatch(r: Recognizer, history: seq<RecognizerInput>, onFinal: Option<Handler>, onPartial: Option<Handler>): (f: Fired)
    ensures f.FinalFired? <==> r.accepts(history) && r.result(history) != "" && onFinal.Some?
    ensures f.FinalFired? ==> f == FinalFired(onFinal.value, r.result(history))
    ensures f.PartialFired? <==> !r.accepts(history) && r.partial(history) != "" && onPartial.Some?
    ensures f.PartialFired? ==> f == PartialFired(onPartial.value, r.partial(history))
  {
    if r.accepts(history) then
      var text := r.result(history);
      if text != "" && onFinal.Some? then FinalFired(onFinal.value, text) else NothingFired
    else
      var text := r.partial(history);
      if text != "" && onPartial.Some? then PartialFired(onPartial.value, text) else NothingFired
  }

  /** An accepted chunk never produces a partial result, and a chunk that is
      not accepted never produces a final one; whatever fires is called with
      non-empty text. */
  lemma DispatchExclusive(r: Recognizer, history: seq<RecognizerInput>, onFinal: Option<Handler>, onPartial: Option<Handler>)
    ensures r.accepts(history) ==> !Dispatch(r, history, onFinal, onPartial).PartialFired?
    ensures !r.accepts(history) ==> !Dispatch(r, history, onFinal, onPartial).FinalFired?
    ensures !Dispatch(r, history, onFinal, onPartial).NothingFired? ==> Dispatch(r, history, onFinal, onPartial).text != ""
  {
  }

  class SpeechEngine {
    var modelPath: string
    const language: string
    var onPartial: Option<Handler>
    var onFinal: Option<Handler>
    /** The loaded model, as the behaviour of the recognizers it builds. */
    var model: Recognizer
    /** Everything given to the current recognizer since it was built. */
    var history: seq<RecognizerInput>
    /** The chunk queue (`audio_queue`), oldest first. */
    var queue: seq<Frame>
    var isProcessing: bool
    /** Every chunk ever queued, and every chunk ever removed, in order. */
    ghost var received: seq<Frame>
    ghost var removed: seq<Frame>

    /** The queue is first in, first out. */
    ghost predicate Valid()
      reads this
    {
      received == removed + queue
    }

    /** The engine as `__init__` leaves it once the model has loaded: a fresh
        recognizer, no callbacks, an empty queue and the processing loop on. */
    constructor (modelPath: string, language: string, model: Recognizer)
      ensures Valid()
      ensures this.modelPath == modelPath && this.language == language && this.model == model
      ensures onPartial == None && onFinal == None
      ensures history == [] && queue == [] && isProcessing
      ensures received == [] && removed == []
    {
      this.modelPath := modelPath;
      this.language := language;
      this.model := model;
      onPartial := None;
      onFinal := None;
      history := [];
      queue := [];
      received := [];
      removed := [];
      // `_start_processing_thread` runs only after the model loaded.
      isProcessing := true;
    }

    /** `SpeechEngine(...)`: when no model is found at `modelPath` the
        constructor raises before building a model or starting the
        processing loop, and there is no engine. */
    static method Create(modelPath: string, language: string, modelPresent: bool, model: Recognizer)
      returns (engine: SpeechEngine?)
      ensures engine == null <==> !modelPresent
      ensures engine != null ==> fresh(engine) && engine.Valid() && engine.isProcessing &&
                                 engine.model == model && engine.modelPath == modelPath &&
                                 engine.history == [] && engine.queue == []
    {
      if !modelPresent {
        return null;
      }
      engine := new SpeechEngine(modelPath, language, model);
    }

    /** Installs the two result callbacks, as the application does right after construction. */
    method SetCallbacks(partial: Option<Handler>, final: Option<Handler>)
      modifies this
      ensures onPartial == partial && onFinal == final
      ensures modelPath == old(modelPath) && model == old(model) && history == old(history)
      ensures queue == old(queue) && isProcessing == old(isProcessing)
      ensures received == old(received) && removed == old(removed)
    {
      onPartial := partial;
      onFinal := final;
    }

    /** `process_audio`: queues the chunk and does nothing else. */
    method ProcessAudio(frame: Frame)
      requires Valid()
      modifies this
      ensures Valid()
      ensures queue == old(queue) + [frame] && received == old(received) + [frame]
      ensures modelPath == old(modelPath) && model == old(model) && history == old(history)
      ensures onPartial == old(onPartial) && onFinal == old(onFinal)
      ensures isProcessing == old(isProcessing) && removed == old(removed)
    {
      queue := queue + [frame];
      received := received + [frame];
    }

    /** `_process_chunk`: gives the chunk to the recognizer and calls the final
        or the partial callback according to its answer. */
    method ProcessChunk(frame: Frame) returns (fired: Fired)
      modifies this
      ensures history == old(history) + [Chunk(frame)]
      ensures fired == Dispatch(model, history, onFinal, onPartial)
      ensures modelPath == old(modelPath) && model == old(model) && queue == old(queue)
      ensures onPartial == old(onPartial) && onFinal == old(onFinal)
      ensures isProcessing == old(isProcessing) && received == old(received) && removed == old(removed)
    {
      history := history + [Chunk(frame)];
      if model.accepts(history) {
        var text := model.result(history);
        if text != "" && onFinal.Some? {
          fired := FinalFired(onFinal.value, text);
        } else {
          fired := NothingFired;
        }
      } else {
        var text := model.partial(history);
        if text != "" && onPartial.Some? {
          fired := PartialFired(onPartial.value, text);
        } else {
          fired := NothingFired;
        }
      }
    }

    /** One turn of `_process_loop`: while processing, the oldest queued chunk
        is taken and processed; an empty queue times out. */
    method ProcessStep() returns (turn: EngineTurn)
      requires Valid()
      modifies this
      ensures Valid()
      ensures modelPath == old(modelPath) && model == old(model)
      ensures onPartial == old(onPartial) && onFinal == old(onFinal)
      ensures isProcessing == old(isProcessing) && received == old(received)
      ensures !old(isProcessing) ==> turn == Stopped && unchanged(this)
      ensures old(isProcessing) && old(queue) == [] ==> turn == Waited && unchanged(this)
      ensures old(isProcessing) && old(queue) != [] ==>
                queue == old(queue)[1..] && removed == old(removed) + [old(queue)[0]] &&
                history == old(history) + [Chunk(old(queue)[0])] &&
                turn == Processed(old(queue)[0], Dispatch(model, history, onFinal, onPartial))
    {
      if !isProcessing {
        return Stopped;
      }
      if queue == [] {
        return Waited;
      }
      var frame := queue[0];
      queue := queue[1..];
      removed := removed + [frame];
      var fired := ProcessChunk(frame);
      turn := Processed(frame, fired);
    }

    /** `get_final_result`: asks the recognizer for the text of what it has
        been given so far. */
    method GetFinalResult() returns (text: string)
      modifies this
      ensures text == model.finalResult(old(history))
      ensures history == old(history) + [Flush]
      ensures modelPath == old(modelPath) && model == old(model) && queue == old(queue)
      ensures onPartial == old(onPartial) && onFinal == old(onFinal)
      ensures isProcessing == old(isProcessing) && received == old(received) && removed == old(removed)
    {
      text := model.finalResult(history);
      history := history + [Flush];
    }

    /** `reset`: a fresh recognizer from the same model, and an empty queue. */
    method Reset()
      requires Valid()
      modifies this
      ensures Valid()
      ensures history == [] && queue == [] && removed == old(removed) + old(queue)
      ensures modelPath == old(modelPath) && model == old(model)
      ensures onPartial == old(onPartial) && onFinal == old(onFinal)
      ensures isProcessing == old(isProcessing) && received == old(received)
    {
      history := [];
      while queue != []
        invariant history == [] && modelPath == old(modelPath) && model == old(model)
        invariant onPartial == old(onPartial) && onFinal == old(onFinal)
        invariant isProcessing == old(isProcessing) && received == old(received)
        invariant received == removed + queue
        invariant removed + queue == old(removed) + old(queue)
        decreases |queue|
      {
        removed := removed + [queue[0]];
        queue := queue[1..];
      }
    }

    /** `set_model`: the path is updated first, so it changes even when no
        model is found there; only a model that loads replaces the recognizer. */
    method SetModel(path: string, modelPresent: bool, newModel: Recognizer) returns (outcome: Outcome<string>)
      modifies this
      ensures modelPath == path
      ensures outcome.Pass? <==> modelPresent
      ensures modelPresent ==> model == newModel && history == []
      ensures !modelPresent ==> outcome == Fail(path) && model == old(model) && history == old(history)
      ensures queue == old(queue) && onPartial == old(onPartial) && onFinal == old(onFinal)
      ensures isProcessing == old(isProcessing) && received == old(received) && removed == old(removed)
    {
      modelPath := path;
      if !modelPresent {
        return Fail(path);
      }
      model := newModel;
      history := [];
      outcome := Pass;
    }

    /** `shutdown`: clears the flag, so the next turn of the loop stops. */
    method Shutdown()
      modifies this
      ensures !isProcessing
      ensures modelPath == old(modelPath) && model == old(model) && history == old(history)
      ensures queue == old(queue) && onPartial == old(onPartial) && onFinal == old(onFinal)
      ensures received == old(received) && removed == old(removed)
    {
      isProcessing := false;
    }
  }

  /** A run of the engine: chunks are processed in arrival order, after
      `shutdown` the loop stops with chunks still queued, and `reset` then
      empties the queue. */
  method EngineScenario(r: Recognizer, c1: Frame, c2: Frame, c3: Frame, onFinal: Handler)
  {
    var engine := new SpeechEngine("model", "en-us", r);
    engine.SetCallbacks(None, Some(onFinal));
    engine.ProcessAudio(c1);
    engine.ProcessAudio(c2);
    var t1 := engine.ProcessStep();
    assert t1.Processed? && t1.frame == c1;
    var t2 := engine.ProcessStep();
    assert t2.Processed? && t2.frame == c2 && engine.history == [Chunk(c1), Chunk(c2)];
    assert !t2.fired.PartialFired?;
    engine.Shutdown();
    engine.ProcessAudio(c3);
    var t3 := engine.ProcessStep();
    assert t3 == Stopped && engine.queue == [c3];
    engine.Reset();
    assert engine.queue == [] && engine.history == [];
  }
}
