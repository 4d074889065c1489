/**
 * The orchestrator's control rules. The hotkeys call `ToggleRecording` and
 * `CancelRecording`; the capture consumer hands frames to `OnAudioData`; the
 * engine's processing loop hands final transcripts to `OnFinalTranscription`,
 * which runs the plugin pipeline and types the result. Every rule is stated
 * as the sequence of states it sets on the state manager, together with what
 * it does to the capture manager, the engine and the keyboard.
 */
module Application {
  import opened Common
  import opened Ascii
  import opened StateManagement
  import opened AudioCapture
  import opened Speech
  import opened Plugins
  import opened PluginRegistry

  /** The application's callbacks, as the identities the collaborators store. */
  const AudioDataHandler: Handler := 0
  const PartialTranscriptionHandler: Handler := 1
  const FinalTranscriptionHandler: Handler := 2
  const StateChangeHandler: Handler := 3

  /** One `type_text` call on the keyboard simulator and whether it raised. */
  datatype KeyboardCall = KeyboardCall(text: string, raised: bool)

  /** The states `_type_text` sets for `text`. */
  function TypingTargets(text: string): (targets: seq<ApplicationState>)
    ensures |targets| > 0 && targets[|targets| - 1] == Idle
    ensures Typing in targets <==> text != ""
    ensures text == "" ==> targets == [Idle]
  {
    if text == "" then [Idle] else [Typing, Idle]
  }

  /** The states `_on_final_transcription` sets for transcript `text` whose
      plugin output is `processed`. */
  function TranscriptTargets(text: string, processed: string): (targets: seq<ApplicationState>)
    ensures |targets| > 0 && targets[|targets| - 1] == Idle
    ensures Typing in targets <==> Strip(text) != [] && processed != ""
    ensures Strip(text) == [] ==> targets == [Idle]
  {
    if Strip(text) == [] then [Idle] else TypingTargets(processed)
  }

  /** The states `stop_recording` sets when the recognizer's final text is
      `final` and its plugin output is `processed`. */
  function StopTargets(final: string, processed: string): (targets: seq<ApplicationState>)
    ensures |targets| > 0 && targets[|targets| - 1] == Processing
    ensures final == "" ==> targets == [Processing]
    ensures final != "" ==> |targets| >= 2 && targets[|targets| - 2] == Idle
    ensures Typing in targets <==> final != "" && Strip(final) != [] && processed != ""
  {
    (if final == "" then [] else TranscriptTargets(final, processed)) + [Processing]
  }

  /** A transcript of whitespace only, the empty one included, sets IDLE and
      nothing else, whatever the plugins would have made of it. */
  lemma BlankTranscriptGoesIdle(text: string, processed: string)
    requires forall i :: 0 <= i < |text| ==> IsSpace(text[i])
    ensures TranscriptTargets(text, processed) == [Idle]
  {
    StripEmptyIffBlank(text);
  }

  /** A transcript with a visible character is typed exactly when the plugins
      leave something to type. */
  lemma VisibleTranscriptTyped(text: string, processed: string)
    requires exists i :: 0 <= i < |text| && !IsSpace(text[i])
    ensures Typing in TranscriptTargets(text, processed) <==> processed != ""
  {
    StripEmptyIffBlank(text);
  }

  class SttKeyboardApp {
    const stateManager: StateManager
    const audioCapture: AudioCaptureManager
    const speechEngine: SpeechEngine
    const pluginLoader: PluginLoader
    /** Which texts make the keyboard simulator raise. */
    const keyboardRaises: string -> bool
    /** Every text handed to the keyboard simulator, in order. */
    var typed: seq<KeyboardCall>
    /** Every transcript run through the plugin pipeline, in order. */
    var pluginRuns: seq<string>

    /** The collaborators keep their own invariants, the engine reports to
        this application, and the only capture callback is this application's. */
    ghost predicate Valid()
      reads this, audioCapture, speechEngine, pluginLoader
    {
      audioCapture.Valid() && speechEngine.Valid() && pluginLoader.Valid() &&
      speechEngine.onPartial == Some(PartialTranscriptionHandler) &&
      speechEngine.onFinal == Some(FinalTranscriptionHandler) &&
      (audioCapture.callback.Some? ==> audioCapture.callback.value == AudioDataHandler)
    }

    /** The components wired as `initialize` does: the engine's result
        callbacks point here, and this application subscribes to state changes. */
    constructor (stateManager: StateManager, audioCapture: AudioCaptureManager, speechEngine: SpeechEngine,
                 pluginLoader: PluginLoader, keyboardRaises: string -> bool)
      requires audioCapture.Valid() && audioCapture.callback == None
      requires speechEngine.Valid() && pluginLoader.Valid()
      modifies stateManager, speechEngine
      ensures Valid()
      ensures this.stateManager == stateManager && this.audioCapture == audioCapture
      ensures this.speechEngine == speechEngine && this.pluginLoader == pluginLoader
      ensures this.keyboardRaises == keyboardRaises
      ensures typed == [] && pluginRuns == []
      ensures stateManager.subscribers == old(stateManager.subscribers) + [StateChangeHandler]
      ensures stateManager.state == old(stateManager.state)
      ensures speechEngine.queue == old(speechEngine.queue) && speechEngine.history == old(speechEngine.history)
    {
      this.stateManager := stateManager;
      this.audioCapture := audioCapture;
      this.speechEngine := speechEngine;
      this.pluginLoader := pluginLoader;
      this.keyboardRaises := keyboardRaises;
      typed := [];
      pluginRuns := [];
      new;
      speechEngine.SetCallbacks(Some(PartialTranscriptionHandler), Some(FinalTranscriptionHandler));
      stateManager.Subscribe(StateChangeHandler);
    }

    /** `_process_through_plugins` over the registry's current views. */
    function PluginOutput(text: string): string
      reads this, pluginLoader
    {
      ProcessThroughPlugins(CommandPlugins(pluginLoader.loaded), TextProcessors(pluginLoader.loaded), text)
    }

    /** What `_type_text` hands to the keyboard for `text`. */
    function Keystrokes(text: string): seq<KeyboardCall>
    {
      if text == "" then [] else [KeyboardCall(text, keyboardRaises(text))]
    }

    /** What `_on_final_transcription` runs through the plugins for `text`. */
    function PipelineInputs(text: string): seq<string>
    {
      if Strip(text) == [] then [] else [text]
    }

    /** `_type_text`: nothing to type sets IDLE; otherwise TYPING, the
        keyboard call, and IDLE again whether or not the call raised. */
    method TypeText(text: string)
      modifies this, stateManager
      ensures stateManager.Went(old(stateManager.state), old(stateManager.transitions), old(stateManager.deliveries), TypingTargets(text))
      ensures stateManager.subscribers == old(stateManager.subscribers)
      ensures typed == old(typed) + Keystrokes(text) && pluginRuns == old(pluginRuns)
    {
      ghost var s0, t0, d0 := stateManager.state, stateManager.transitions, stateManager.deliveries;
      stateManager.WentNowhere();
      if text == "" {
        stateManager.SetStateAfter(Idle, s0, t0, d0, []);
        assert [] + [Idle] == TypingTargets(text);
        return;
      }
      stateManager.SetStateAfter(Typing, s0, t0, d0, []);
      // The keyboard call; an exception is caught and logged.
      var raised := keyboardRaises(text);
      typed := typed + [KeyboardCall(text, raised)];
      stateManager.SetStateAfter(Idle, s0, t0, d0, [] + [Typing]);
      assert [] + [Typing] + [Idle] == TypingTargets(text);
    }

    /** `_on_final_transcription`: a blank transcript sets IDLE; any other is
        run through the plugins and the output is typed. */
    method OnFinalTranscription(text: string)
      modifies this, stateManager
      ensures stateManager.Went(old(stateManager.state), old(stateManager.transitions), old(stateManager.deliveries),
                                TranscriptTargets(text, PluginOutput(text)))
      ensures stateManager.subscribers == old(stateManager.subscribers)
      ensures pluginRuns == old(pluginRuns) + PipelineInputs(text)
      ensures typed == old(typed) + (if Strip(text) == [] then [] else Keystrokes(PluginOutput(text)))
    {
      if Strip(text) == [] {
        ghost var s0, t0, d0 := stateManager.state, stateManager.transitions, stateManager.deliveries;
        stateManager.WentNowhere();
        stateManager.SetStateAfter(Idle, s0, t0, d0, []);
        assert [] + [Idle] == TranscriptTargets(text, PluginOutput(text));
        return;
      }
      pluginRuns := pluginRuns + [text];
      var processed := PluginOutput(text);
      TypeText(processed);
      assert TranscriptTargets(text, PluginOutput(text)) == TypingTargets(processed);
    }

    /** `_on_audio_data`: a frame reaches the engine only while LISTENING. */
    method OnAudioData(frame: Frame)
      requires speechEngine.Valid()
      modifies speechEngine
      ensures speechEngine.Valid()
      ensures stateManager.state == Listening ==>
                speechEngine.queue == old(speechEngine.queue) + [frame] &&
                speechEngine.received == old(speechEngine.received) + [frame]
      ensures stateManager.state != Listening ==> unchanged(speechEngine)
      ensures speechEngine.history == old(speechEngine.history) && speechEngine.model == old(speechEngine.model)
      ensures speechEngine.modelPath == old(speechEngine.modelPath)
      ensures speechEngine.onPartial == old(speechEngine.onPartial) && speechEngine.onFinal == old(speechEngine.onFinal)
      ensures speechEngine.removed == old(speechEngine.removed) && speechEngine.isProcessing == old(speechEngine.isProcessing)
    {
      if stateManager.GetState() == Listening {
        speechEngine.ProcessAudio(frame);
      }
    }

    /** `start_recording`: LISTENING first, then the capture stream; a stream
        failure propagates and leaves the state at LISTENING. */
    method StartRecording(opening: StreamOpening) returns (r: StartResult)
      requires Valid()
      modifies stateManager, audioCapture
      ensures Valid()
      ensures stateManager.Went(old(stateManager.state), old(stateManager.transitions), old(stateManager.deliveries), [Listening])
      ensures stateManager.subscribers == old(stateManager.subscribers)
      ensures old(audioCapture.isRecording) ==> r == AlreadyRecording && unchanged(audioCapture)
      ensures !old(audioCapture.isRecording) ==> (r == Started <==> opening == Opens)
      ensures !old(audioCapture.isRecording) ==> (audioCapture.isRecording <==> opening == Opens)
      ensures audioCapture.isRecording ==> audioCapture.callback == Some(AudioDataHandler)
      ensures !old(audioCapture.isRecording) ==>
                audioCapture.callback == Some(AudioDataHandler) && audioCapture.queue == [] &&
                (opening == Opens ==> audioCapture.stream == Running) &&
                (opening == ConstructionFails ==> audioCapture.stream == old(audioCapture.stream)) &&
                (opening == StartFails ==> audioCapture.stream == Constructed)
      ensures audioCapture.deviceId == old(audioCapture.deviceId) && audioCapture.queue == old(audioCapture.queue) &&
              audioCapture.accepted == old(audioCapture.accepted) && audioCapture.taken == old(audioCapture.taken)
    {
      ghost var s0, t0, d0 := stateManager.state, stateManager.transitions, stateManager.deliveries;
      stateManager.WentNowhere();
      stateManager.SetStateAfter(Listening, s0, t0, d0, []);
      assert [] + [Listening] == [Listening];
      r := audioCapture.StartStream(AudioDataHandler, opening);
    }

    /** `stop_recording`: stops the capture, asks the engine for its final
        text, handles it as a final transcript when it is not empty, and then
        sets PROCESSING in every case. */
    method StopRecording()
      requires Valid()
      modifies this, stateManager, audioCapture, speechEngine
      ensures Valid()
      ensures stateManager.Went(old(stateManager.state), old(stateManager.transitions), old(stateManager.deliveries),
                                StopTargets(old(speechEngine.model.finalResult(speechEngine.history)),
                                            PluginOutput(old(speechEngine.model.finalResult(speechEngine.history)))))
      ensures stateManager.state == Processing
      ensures stateManager.subscribers == old(stateManager.subscribers)
      ensures !audioCapture.isRecording && audioCapture.queue == [] && audioCapture.stream != Running
      ensures speechEngine.history == old(speechEngine.history) + [Flush]
      ensures speechEngine.queue == old(speechEngine.queue)
      ensures old(speechEngine.model.finalResult(speechEngine.history)) == "" ==>
                typed == old(typed) && pluginRuns == old(pluginRuns)
      ensures old(speechEngine.model.finalResult(speechEngine.history)) != "" ==>
                var final := old(speechEngine.model.finalResult(speechEngine.history));
                pluginRuns == old(pluginRuns) + PipelineInputs(final) &&
                typed == old(typed) + (if Strip(final) == [] then [] else Keystrokes(PluginOutput(final)))
      ensures speechEngine.model == old(speechEngine.model) && speechEngine.modelPath == old(speechEngine.modelPath) &&
              speechEngine.isProcessing == old(speechEngine.isProcessing) && speechEngine.received == old(speechEngine.received) &&
              speechEngine.removed == old(speechEngine.removed) &&
              speechEngine.onPartial == old(speechEngine.onPartial) && speechEngine.onFinal == old(speechEngine.onFinal) &&
              audioCapture.callback == old(audioCapture.callback) && audioCapture.deviceId == old(audioCapture.deviceId) &&
              audioCapture.accepted == old(audioCapture.accepted)
      ensures old(audioCapture.isRecording) ==>
                audioCapture.stream == NoStream && audioCapture.taken == old(audioCapture.taken) + old(audioCapture.queue)
      ensures !old(audioCapture.isRecording) ==>
                audioCapture.stream == old(audioCapture.stream) && audioCapture.taken == old(audioCapture.taken)
    {
      ghost var s0, t0, d0 := stateManager.state, stateManager.transitions, stateManager.deliveries;
      stateManager.WentNowhere();
      audioCapture.StopStream();
      var finalText := speechEngine.GetFinalResult();
      ghost var targets: seq<ApplicationState> := [];
      if finalText != "" {
        OnFinalTranscription(finalText);
        targets := TranscriptTargets(finalText, PluginOutput(finalText));
      }
      stateManager.SetStateAfter(Processing, s0, t0, d0, targets);
      assert targets + [Processing] == StopTargets(finalText, PluginOutput(finalText));
    }

    /** `_toggle_recording`: IDLE starts a recording, LISTENING stops it, and
        every other state changes nothing. */
    method ToggleRecording(opening: StreamOpening) returns (started: Option<StartResult>)
      requires Valid()
      modifies this, stateManager, audioCapture, speechEngine
      ensures Valid()
      ensures stateManager.subscribers == old(stateManager.subscribers)
      ensures old(stateManager.state) == Idle ==>
                started.Some? && unchanged(this, speechEngine) &&
                stateManager.Went(old(stateManager.state), old(stateManager.transitions), old(stateManager.deliveries), [Listening])
      ensures old(stateManager.state) == Idle && old(audioCapture.isRecording) ==>
                started == Some(AlreadyRecording) && unchanged(audioCapture)
      ensures old(stateManager.state) == Idle && !old(audioCapture.isRecording) ==>
                started.Some? && (started.value == Started <==> opening == Opens) &&
                (audioCapture.isRecording <==> opening == Opens)
      ensures old(stateManager.state) == Idle && audioCapture.isRecording ==>
                audioCapture.callback == Some(AudioDataHandler)
      ensures old(stateManager.state) == Idle && !old(audioCapture.isRecording) ==>
                audioCapture.callback == Some(AudioDataHandler) && audioCapture.queue == [] &&
                (opening == Opens ==> audioCapture.stream == Running) &&
                (opening == ConstructionFails ==> audioCapture.stream == old(audioCapture.stream)) &&
                (opening == StartFails ==> audioCapture.stream == Constructed)
      ensures old(stateManager.state) == Idle ==>
                audioCapture.deviceId == old(audioCapture.deviceId) && audioCapture.queue == old(audioCapture.queue) &&
                audioCapture.accepted == old(audioCapture.accepted) && audioCapture.taken == old(audioCapture.taken)
      ensures old(stateManager.state) == Listening ==>
                started == None && stateManager.state == Processing &&
                stateManager.Went(old(stateManager.state), old(stateManager.transitions), old(stateManager.deliveries),
                                  StopTargets(old(speechEngine.model.finalResult(speechEngine.history)),
                                              PluginOutput(old(speechEngine.model.finalResult(speechEngine.history)))))
      ensures old(stateManager.state) == Listening ==>
                !audioCapture.isRecording && audioCapture.queue == [] && audioCapture.stream != Running &&
                speechEngine.history == old(speechEngine.history) + [Flush] && speechEngine.queue == old(speechEngine.queue)
      ensures old(stateManager.state) == Listening && old(speechEngine.model.finalResult(speechEngine.history)) == "" ==>
                typed == old(typed) && pluginRuns == old(pluginRuns)
      ensures old(stateManager.state) == Listening && old(speechEngine.model.finalResult(speechEngine.history)) != "" ==>
                var final := old(speechEngine.model.finalResult(speechEngine.history));
                pluginRuns == old(pluginRuns) + PipelineInputs(final) &&
                typed == old(typed) + (if Strip(final) == [] then [] else Keystrokes(PluginOutput(final)))
      ensures old(stateManager.state) == Listening ==>
                speechEngine.model == old(speechEngine.model) && speechEngine.modelPath == old(speechEngine.modelPath) &&
                speechEngine.isProcessing == old(speechEngine.isProcessing) && speechEngine.received == old(speechEngine.received) &&
                speechEngine.removed == old(speechEngine.removed) &&
                speechEngine.onPartial == old(speechEngine.onPartial) && speechEngine.onFinal == old(speechEngine.onFinal) &&
                audioCapture.callback == old(audioCapture.callback) && audioCapture.deviceId == old(audioCapture.deviceId) &&
                audioCapture.accepted == old(audioCapture.accepted)
      ensures old(stateManager.state) == Listening && old(audioCapture.isRecording) ==>
                audioCapture.stream == NoStream && audioCapture.taken == old(audioCapture.taken) + old(audioCapture.queue)
      ensures old(stateManager.state) == Listening && !old(audioCapture.isRecording) ==>
                audioCapture.stream == old(audioCapture.stream) && audioCapture.taken == old(audioCapture.taken)
      ensures old(stateManager.state) != Idle && old(stateManager.state) != Listening ==>
                started == None && unchanged(this, stateManager, audioCapture, speechEngine)
    {
      var current := stateManager.GetState();
      if current == Idle {
        var r := StartRecording(opening);
        started := Some(r);
      } else if current == Listening {
        StopRecording();
        started := None;
      } else {
        started := None;
      }
    }

    /** `_cancel_recording`: only in LISTENING; sets IDLE, stops the capture and
        resets the engine, so nothing recorded is typed. */
    method CancelRecording()
      requires Valid()
      modifies stateManager, audioCapture, speechEngine
      ensures Valid()
      ensures stateManager.subscribers == old(stateManager.subscribers)
      ensures old(stateManager.state) == Listening ==>
                stateManager.Went(old(stateManager.state), old(stateManager.transitions), old(stateManager.deliveries), [Idle]) &&
                !audioCapture.isRecording && audioCapture.queue == [] &&
                speechEngine.queue == [] && speechEngine.history == []
      ensures old(stateManager.state) == Listening ==>
                speechEngine.model == old(speechEngine.model) && speechEngine.modelPath == old(speechEngine.modelPath) &&
                speechEngine.isProcessing == old(speechEngine.isProcessing) && speechEngine.received == old(speechEngine.received) &&
                speechEngine.onPartial == old(speechEngine.onPartial) && speechEngine.onFinal == old(speechEngine.onFinal) &&
                speechEngine.removed == old(speechEngine.removed) + old(speechEngine.queue)
      ensures old(stateManager.state) == Listening ==>
                audioCapture.callback == old(audioCapture.callback) && audioCapture.deviceId == old(audioCapture.deviceId) &&
                audioCapture.accepted == old(audioCapture.accepted)
      ensures old(stateManager.state) == Listening && old(audioCapture.isRecording) ==>
                audioCapture.stream == NoStream && audioCapture.taken == old(audioCapture.taken) + old(audioCapture.queue)
      ensures old(stateManager.state) == Listening && !old(audioCapture.isRecording) ==>
                audioCapture.stream == old(audioCapture.stream) && audioCapture.taken == old(audioCapture.taken)
      ensures old(stateManager.state) != Listening ==> unchanged(stateManager, audioCapture, speechEngine)
    {
      if stateManager.GetState() == Listening {
        ghost var s0, t0, d0 := stateManager.state, stateManager.transitions, stateManager.deliveries;
        stateManager.WentNowhere();
        stateManager.SetStateAfter(Idle, s0, t0, d0, []);
        assert [] + [Idle] == [Idle];
        audioCapture.StopStream();
        speechEngine.Reset();
      }
    }

    /** One turn of the capture consumer, whose callback is `OnAudioData`: the
        oldest captured frame reaches the engine when capture is on and the
        state is LISTENING. */
    method AudioConsumerStep()
      requires Valid()
      modifies audioCapture, speechEngine
      ensures Valid()
      ensures old(audioCapture.isRecording) && old(audioCapture.queue) != [] ==>
                audioCapture.queue == old(audioCapture.queue)[1..] &&
                speechEngine.queue == old(speechEngine.queue) +
                  (if stateManager.state == Listening then [old(audioCapture.queue)[0]] else [])
      ensures !(old(audioCapture.isRecording) && old(audioCapture.queue) != []) ==>
                unchanged(audioCapture, speechEngine)
      ensures audioCapture.isRecording == old(audioCapture.isRecording) && audioCapture.stream == old(audioCapture.stream)
      ensures audioCapture.callback == old(audioCapture.callback) && audioCapture.deviceId == old(audioCapture.deviceId)
      ensures audioCapture.accepted == old(audioCapture.accepted)
      ensures old(audioCapture.isRecording) && old(audioCapture.queue) != [] ==>
                audioCapture.taken == old(audioCapture.taken) + [old(audioCapture.queue)[0]] &&
                speechEngine.received == old(speechEngine.received) +
                  (if stateManager.state == Listening then [old(audioCapture.queue)[0]] else [])
      ensures speechEngine.history == old(speechEngine.history) && speechEngine.model == old(speechEngine.model)
      ensures speechEngine.modelPath == old(speechEngine.modelPath) && speechEngine.removed == old(speechEngine.removed)
      ensures speechEngine.isProcessing == old(speechEngine.isProcessing)
      ensures speechEngine.onPartial == old(speechEngine.onPartial) && speechEngine.onFinal == old(speechEngine.onFinal)
    {
      var turn := audioCapture.ConsumerStep();
      if turn.Took? {
        OnAudioData(turn.frame);
      }
    }

    /** One turn of the engine's processing loop, whose final callback is
        `OnFinalTranscription`: a chunk that completes an utterance with
        non-empty text is handled as a final transcript, in any state. */
    method EngineStep() returns (turn: EngineTurn)
      requires Valid()
      modifies this, stateManager, speechEngine
      ensures Valid()
      ensures stateManager.subscribers == old(stateManager.subscribers)
      ensures speechEngine.model == old(speechEngine.model) && speechEngine.received == old(speechEngine.received)
      ensures speechEngine.isProcessing == old(speechEngine.isProcessing) && speechEngine.modelPath == old(speechEngine.modelPath)
      ensures speechEngine.onPartial == old(speechEngine.onPartial) && speechEngine.onFinal == old(speechEngine.onFinal)
      ensures !old(speechEngine.isProcessing) ==> turn == Stopped && unchanged(this, stateManager, speechEngine)
      ensures old(speechEngine.isProcessing) && old(speechEngine.queue) == [] ==>
                turn == Waited && unchanged(this, stateManager, speechEngine)
      ensures old(speechEngine.isProcessing) && old(speechEngine.queue) != [] ==>
                speechEngine.queue == old(speechEngine.queue)[1..] &&
                speechEngine.removed == old(speechEngine.removed) + [old(speechEngine.queue)[0]] &&
                speechEngine.history == old(speechEngine.history) + [Chunk(old(speechEngine.queue)[0])] &&
                turn == Processed(old(speechEngine.queue)[0],
                                  Dispatch(speechEngine.model, speechEngine.history, speechEngine.onFinal, speechEngine.onPartial))
      ensures turn.Processed? && turn.fired.FinalFired? ==>
                var text := turn.fired.text;
                stateManager.Went(old(stateManager.state), old(stateManager.transitions), old(stateManager.deliveries),
                                  TranscriptTargets(text, PluginOutput(text))) &&
                pluginRuns == old(pluginRuns) + PipelineInputs(text) &&
                typed == old(typed) + (if Strip(text) == [] then [] else Keystrokes(PluginOutput(text)))
      ensures !(turn.Processed? && turn.fired.FinalFired?) ==> unchanged(this, stateManager)
    {
      turn := speechEngine.ProcessStep();
      if turn.Processed? && turn.fired.FinalFired? {
        OnFinalTranscription(turn.fired.text);
      }
    }
  }
}
