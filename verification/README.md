# STT Keyboard — a verified model of its control and text logic

STT Keyboard is a desktop dictation tool. While a hotkey-driven recording is
running, microphone audio is captured, fed to an offline speech recogniser and
turned into text. Final transcripts run through a plugin pipeline and are typed
into the focused window. This project models the parts of it that decide
*what* happens, and proves what each part promises:

- `state_manager.dfy` — the application state broadcaster (`StateManager`). It
  stores one state and notifies the ordered subscriber list on every
  `set_state`.
- `app.dfy` — the orchestrator (`STTKeyboardApp`). It holds the toggle, cancel,
  start and stop rules, the audio gate and the final-transcript path. Each rule
  is stated as the exact sequence of states it sets, together with what it does
  to the capture manager, the engine, the plugins and the keyboard.
- `plugins.dfy` — the plugin contracts and `_process_through_plugins`. Command
  plugins go first, and the first one that handles the text suppresses typing.
  Otherwise the text processors run as a fold in registry order.
- `plugin_loader.dfy` — the plugin registry (`PluginLoader`). It is an
  insertion-ordered name→plugin dictionary with its type-filtered views, the
  first-match search-path rule, discovery, and unloading.
- `auto_punctuation.dfy` — the auto-punctuation processor. It handles
  whole-word marker replacement, sentence capitalisation and the spacing fixes
  around punctuation. The Python `re` calls are written as left-to-right
  scanners. `_capitalize_sentences` is proved equal to a pointwise
  specification.
- `emoji_converter.dfy` — the emoji converter. It does ordered substring
  replacement of each phrase in lower case, then in Title Case.
- `audio_capture.dfy`, `speech_engine.dfy` — the capture and recognition
  lifecycles as classes. A step method stands for one turn of each worker
  thread. Ghost logs of everything queued and removed prove the queues are
  first in, first out.
- `ascii.dfy`, `common.dfy` — Python's `str` methods and `re` character
  classes restricted to ASCII, and shared datatypes.

The recogniser, the file system, the plugin classes, the keyboard and
subscriber failures are parameters:

- The recogniser is a datatype of functions of everything fed to it since it
  was built.
- The file system is a presence predicate plus a listing of `*.py` stems.
- Plugin classes are a partial function from (directory, name) to a plugin.
- Whether the keyboard or a subscriber raises is an oracle.

Callbacks are identified by number (`Handler`).

Where the repository's own test_state_manager.py expects more than
state_manager.py provides, and in the other places listed here, the model
follows the code:

- `set_state` notifies even when the state does not change.
- There is no transition history, no previous state and no error message
  (test_state_manager.py:28, :96 and :119 call `get_previous_state`,
  `get_error_message` and `get_state_history`, which state_manager.py does
  not define).
- The audio queues are unbounded.
- An exception raised by a plugin propagates out of `_process_through_plugins`
  instead of being skipped.

## Model

| member | source | states |
|---|---|---|
| StateManagement.StateManager.constructor | src/stt_keyboard/core/state_manager.py:20-24 | a fresh manager is IDLE with no subscribers and nothing delivered |
| StateManagement.StateManager.GetState | src/stt_keyboard/core/state_manager.py:26-33 | returns the stored state, which is the target of the last `set_state` |
| StateManagement.StateManager.SetState | src/stt_keyboard/core/state_manager.py:35-52 | the new state is stored and the subscriber list kept; one transition (old, new) is logged; the deliveries grow by exactly the broadcast of that transition |
| StateManagement.BroadcastAt | src/stt_keyboard/core/state_manager.py:42-52 | one broadcast calls every subscriber exactly once, in subscription order, with (old, new). Each sees the new state already stored. A raising callback does not stop later ones, and old == new is not suppressed |
| StateManagement.BroadcastLength | src/stt_keyboard/core/state_manager.py:48-50 | a broadcast makes exactly one call per subscriber entry |
| StateManagement.BroadcastCounts | src/stt_keyboard/core/state_manager.py:48-61 | a callback subscribed k times is called k times per change; one not subscribed is not called |
| StateManagement.Steps | src/stt_keyboard/core/state_manager.py:42-43 | setting states one after another makes one transition per target, each starting where the previous one ended |
| StateManagement.Advance | src/stt_keyboard/core/state_manager.py:35-52 | one more `set_state` appends its transition and its broadcast and becomes the current state |
| StateManagement.NotificationsSnoc | src/stt_keyboard/core/state_manager.py:48-52 | the notifications of a run of changes are the notifications of each change in order |
| StateManagement.StateManager.Subscribe | src/stt_keyboard/core/state_manager.py:54-61 | appends the callback, duplicates kept; nothing else changes |
| StateManagement.StateManager.Unsubscribe | src/stt_keyboard/core/state_manager.py:63-71 | the list becomes `RemoveFirst(old list, callback)`; nothing else changes |
| StateManagement.RemoveFirstMultiset | src/stt_keyboard/core/state_manager.py:70-71 | removal takes out exactly one copy when there is one and nothing otherwise |
| StateManagement.RemoveFirstSplits | src/stt_keyboard/core/state_manager.py:70-71 | the copy removed is the first one; the entries before and after it stay in order |
| StateManagement.RemoveFirstAbsent | src/stt_keyboard/core/state_manager.py:70-71 | unsubscribing an absent callback leaves the list as it is |
| StateManagement.SoleSubscriberSilenced | src/stt_keyboard/core/state_manager.py:63-71 | a callback subscribed once receives no call after it is unsubscribed |
| StateManagement.StateManager.HandleError | src/stt_keyboard/core/state_manager.py:73-81 | the state becomes ERROR and the logs and deliveries grow exactly as for `set_state(ERROR)` |
| Plugins.FirstHandlerIsFirst | src/stt_keyboard/app.py:238-242 | the handling command found is the first command that both matches and reports handled; a match that reports not handled lets the loop continue; none is found only if no command handles the text |
| Plugins.ExecutedFromExactly | src/stt_keyboard/app.py:238-242 | from position i on, a command's `execute_command` runs exactly when it matches and no command between i and it handled the text |
| Plugins.ExecutedFromIncreasing | src/stt_keyboard/app.py:238-242 | from position i on, the commands run at positions at least i, strictly increasing |
| Plugins.ExecutedExactly | src/stt_keyboard/app.py:238-242 | `execute_command` of command k runs exactly when k matches and no earlier command handled the text |
| Plugins.ExecutedInOrder | src/stt_keyboard/app.py:238-242 | the command actions run in registry order |
| Plugins.ApplyProcessorsSnoc | src/stt_keyboard/app.py:245-246 | a processor added last runs on the output of all processors before it |
| Plugins.ApplyProcessorsAppend | src/stt_keyboard/app.py:245-246 | running two processor chains one after the other is running their concatenation |
| Plugins.PipelineOutcome | src/stt_keyboard/app.py:235-248 | the output is "" when some command handles the text (no processor result is used), and the processor fold otherwise |
| Plugins.DeleteLastShortCircuits | src/stt_keyboard/plugins/plugin_interface.py:86-99 | a command returning true from `execute_command` suppresses typing whatever processors follow; text it does not match reaches the processors |
| PluginRegistry.DiscoverPlugins | src/stt_keyboard/plugins/plugin_loader.py:27-45 | every name returned is a `*.py` stem of an existing search path and does not start with `_`; every such stem is returned |
| PluginRegistry.Visible | src/stt_keyboard/plugins/plugin_loader.py:40-43 | exactly the stems that do not start with `_` are kept |
| PluginRegistry.FirstPathWith | src/stt_keyboard/plugins/plugin_loader.py:57-61 | a found position is a valid index into the search paths |
| PluginRegistry.FirstPathWithIsFirst | src/stt_keyboard/plugins/plugin_loader.py:57-64 | the chosen directory is the earliest search path holding `<name>.py`; there is none exactly when no path holds it |
| PluginRegistry.PutLookup | src/stt_keyboard/plugins/plugin_loader.py:92 | after storing, the name maps to the new plugin and every other name is untouched |
| PluginRegistry.PutNames | src/stt_keyboard/plugins/plugin_loader.py:92 | storing under a known name keeps its position; a new name goes last |
| PluginRegistry.PutKeepsUnique | src/stt_keyboard/plugins/plugin_loader.py:92 | storing keeps every name unique |
| PluginRegistry.PutAbsent | src/stt_keyboard/plugins/plugin_loader.py:92 | a new name is appended at the end of the registry |
| PluginRegistry.DeleteLookup | src/stt_keyboard/plugins/plugin_loader.py:109 | after deletion the name is gone and every other name is untouched |
| PluginRegistry.LookupAbsent | src/stt_keyboard/plugins/plugin_loader.py:106 | a name held by no entry is not found |
| PluginRegistry.DeleteKeepsUnique | src/stt_keyboard/plugins/plugin_loader.py:109 | deletion keeps names unique and adds no entry |
| PluginRegistry.DeleteFront | src/stt_keyboard/plugins/plugin_loader.py:114-115 | deleting the first name leaves the other entries in order |
| PluginRegistry.TextProcessorsAppend | src/stt_keyboard/plugins/plugin_loader.py:117-125 | the text-processor view of a registry is each entry's processor, if it has one, in registry order |
| PluginRegistry.CommandPluginsAppend | src/stt_keyboard/plugins/plugin_loader.py:127-135 | the command view of a registry is each entry's command, if it has one, in registry order |
| PluginRegistry.BothInterfacesPipeline | src/stt_keyboard/app.py:225-248 | a plugin implementing both interfaces is offered the transcript as a command first and, when it does not handle it, rewrites it as a processor |
| PluginRegistry.LoadedLastRunsLast | src/stt_keyboard/plugins/plugin_loader.py:117-135 | a plugin loaded under a new name comes last in the text-processor view when it implements that interface, and last in the command view when it implements that one; a plugin implementing both is last in both, and one implementing neither is in no view |
| PluginRegistry.FirstRaising | src/stt_keyboard/plugins/plugin_loader.py:112-115 | the index of the first plugin whose `shutdown` raises: none before it raises |
| PluginRegistry.PluginLoader.constructor | src/stt_keyboard/plugins/plugin_loader.py:15-25 | the registry starts empty with the given search paths |
| PluginRegistry.PluginLoader.LoadPlugin | src/stt_keyboard/plugins/plugin_loader.py:47-97 | loads from the first path holding the file. If there is none, or the import raises, or the module has no plugin class, or `initialize` raises, it reports that distinct error with the registry unchanged. Otherwise the plugin is stored under its name |
| PluginRegistry.PluginLoader.UnloadPlugin | src/stt_keyboard/plugins/plugin_loader.py:99-110 | an unknown name is a no-op. Otherwise `shutdown` is called once, and unless it raises, only that entry is removed |
| PluginRegistry.PluginLoader.UnloadAll | src/stt_keyboard/plugins/plugin_loader.py:112-115 | plugins are shut down in registry order. The registry ends empty when no `shutdown` raises; otherwise the sweep stops at the first one that raises, with it and later plugins still loaded |
| Ascii.Upper | plugins/auto_punctuation.py:72 | `upper()` changes exactly the lower-case letters and keeps each character's class |
| Ascii.Lower | plugins/auto_punctuation.py:49 | `lower()` changes exactly the upper-case letters and keeps each character's class |
| Ascii.LowerStr | plugins/auto_punctuation.py:49 | a lower-cased string has the same length and no upper-case letter |
| Ascii.LowerStrIdempotent | plugins/auto_punctuation.py:49 | lower-casing twice is lower-casing once |
| Ascii.TitleAt | plugins/emoji_converter.py:47 | `title()` upper-cases a character at the start of a word and lower-cases one inside a word |
| Ascii.TitleAfterAt | plugins/emoji_converter.py:47 | the same character-by-character rule, continued after a known previous character |
| Ascii.SpaceRunEnd | plugins/auto_punctuation.py:61 | the end of the maximal whitespace run starting at a position |
| Ascii.SpaceRunStart | src/stt_keyboard/app.py:214 | the start of the maximal whitespace run ending at a position |
| Ascii.TrimStart | src/stt_keyboard/app.py:214 | the result is a suffix of the text, everything dropped before it is whitespace, and it does not start with whitespace |
| Ascii.TrimEnd | src/stt_keyboard/app.py:214 | the result is a prefix of the text, everything dropped after it is whitespace, and it does not end with whitespace |
| Ascii.Strip | src/stt_keyboard/app.py:214 | the result is the slice of the text after its leading whitespace run, everything after it is whitespace, and it neither starts nor ends with whitespace |
| Ascii.StripEmptyIffBlank | src/stt_keyboard/app.py:214 | `not text.strip()` holds exactly when every character is whitespace |
| AutoPunctuation.SubWithoutOccurrence | plugins/auto_punctuation.py:52-55 | text with no whole-word occurrence of the marker is unchanged |
| AutoPunctuation.SubReplacesLeftmost | plugins/auto_punctuation.py:52-55 | the leftmost whole-word occurrence is replaced, the text before it is kept, and the scan resumes after it (no overlaps) |
| AutoPunctuation.ReplaceMarkersAppend | plugins/auto_punctuation.py:52-55 | markers apply one after another in table order, each to the output of all earlier ones |
| AutoPunctuation.ReplaceMarkersEmpty | plugins/auto_punctuation.py:52-55 | marker replacement maps "" to "" |
| AutoPunctuation.QuoteComesFirst | plugins/auto_punctuation.py:34-36 | "quote" precedes "open quote" and "close quote" in the table |
| AutoPunctuation.QuoteRewritesOpenQuote | plugins/auto_punctuation.py:52-55 | the "quote" entry turns "open quote" into `open "` |
| AutoPunctuation.OpenQuoteUnreached | plugins/auto_punctuation.py:52-55 | after that, the "open quote" entry finds nothing to replace |
| AutoPunctuation.WholeWordsOnly | plugins/auto_punctuation.py:54 | "periodic" keeps its letters, while "a period" becomes "a ." |
| AutoPunctuation.JoinSplit | plugins/auto_punctuation.py:75 | the sentence split loses nothing: joining the parts gives the text back |
| AutoPunctuation.SplitCapMatchesSpec | plugins/auto_punctuation.py:75-84 | split, per-part capitalisation and join give the intended capitalisation on every suffix that starts a sentence |
| AutoPunctuation.FollowsStopUpperFirst | plugins/auto_punctuation.py:71-72 | upper-casing the first character moves no sentence boundary |
| AutoPunctuation.SentenceCaseCorrect | plugins/auto_punctuation.py:68-84 | `_capitalize_sentences` upper-cases the first character and every character right after `.`, `!` or `?` plus whitespace, and keeps every other character |
| AutoPunctuation.NoSpaceBeforePunct | plugins/auto_punctuation.py:61 | after the step, no whitespace directly precedes a punctuation mark |
| AutoPunctuation.DropKeepsNonBlank | plugins/auto_punctuation.py:61 | the step removes only whitespace: the other characters stay, in order |
| AutoPunctuation.DropFixpoint | plugins/auto_punctuation.py:61 | text with no whitespace before a mark is left as it is |
| AutoPunctuation.DropIdempotent | plugins/auto_punctuation.py:61 | applying the step twice is applying it once |
| AutoPunctuation.DropKeepsExactly | plugins/auto_punctuation.py:61 | the step keeps exactly the characters that are not whitespace ending right before a mark, in order, so other whitespace stays ("a b ," gives "a b,") |
| AutoPunctuation.SpaceAfterKeepsNonBlank | plugins/auto_punctuation.py:64 | the step inserts only whitespace: the other characters stay, in order |
| AutoPunctuation.SpaceFollowsPunct | plugins/auto_punctuation.py:64 | with no two marks adjacent, every mark in the result is followed by whitespace or ends the text |
| AutoPunctuation.SpaceAfterFixpoint | plugins/auto_punctuation.py:64 | text whose marks are all followed by whitespace or end it is left as it is |
| AutoPunctuation.SecondMarkNotSpaced | plugins/auto_punctuation.py:64 | the character consumed after a mark is not re-examined: "a.,b" becomes "a. ,b" |
| AutoPunctuation.PunctuateEmpty | plugins/auto_punctuation.py:47-66 | `process_text("")` is "" |
| AutoPunctuation.PunctuateIgnoresCase | plugins/auto_punctuation.py:49 | the input's capitals make no difference to the output |
| AutoPunctuation.PunctuateKeepsNonBlank | plugins/auto_punctuation.py:58-64 | the spacing steps keep every non-whitespace character of the capitalised text, in order |
| AutoPunctuation.AutoPunctuationPlugin.Initialize | plugins/auto_punctuation.py:20-41 | the marker table is exactly the seventeen entries, in insertion order |
| AutoPunctuation.AutoPunctuationPlugin.ProcessText | plugins/auto_punctuation.py:47-66 | on an initialised plugin, the loop gives lower-case, then markers in table order, then sentence case, then the spacing steps |
| AutoPunctuation.AutoPunctuationPlugin.CapitalizeSentences | plugins/auto_punctuation.py:68-84 | the loop's output equals the intended capitalisation |
| EmojiConversion.ReplaceFromAbsent | plugins/emoji_converter.py:46 | where the phrase does not occur, the text is kept |
| EmojiConversion.ReplaceAllAbsent | plugins/emoji_converter.py:46 | `replace` of a phrase that does not occur returns the text unchanged |
| EmojiConversion.ReplaceFromLeftmost | plugins/emoji_converter.py:46 | the leftmost occurrence is replaced and the scan resumes right after it (no overlaps) |
| EmojiConversion.ConvertEmojiAppend | plugins/emoji_converter.py:44-47 | each phrase is dealt with fully before the next, in table order |
| EmojiConversion.ConvertWithoutPhrases | plugins/emoji_converter.py:42-49 | text holding no phrase in either spelling is returned unchanged |
| EmojiConversion.ConvertEmpty | plugins/emoji_converter.py:42-49 | "" maps to "" |
| EmojiConversion.EmojiTableShape | plugins/emoji_converter.py:19-34 | every phrase starts with a letter followed by a lower-case letter |
| EmojiConversion.NoLowerNoPhrase | plugins/emoji_converter.py:46-47 | such a phrase occurs in neither spelling in text without lower-case letters |
| EmojiConversion.NoLowerUnchanged | plugins/emoji_converter.py:45-47 | only the lower-case and Title Case spellings are replaced: text with no lower-case letter is unchanged |
| EmojiConversion.AllCapsUnchanged | plugins/emoji_converter.py:45-47 | the converter's own table leaves text in capitals alone, despite the "case-insensitive" comment |
| EmojiConversion.TitleOfLowerWords | plugins/emoji_converter.py:47 | the Title Case spelling of lower-case words upper-cases each word's first letter and keeps the rest |
| EmojiConversion.FireInFireplace | plugins/emoji_converter.py:46 | replacement works on substrings: "fireplace" becomes the fire emoji followed by "place" |
| EmojiConversion.EmojiConverterPlugin.Initialize | plugins/emoji_converter.py:16-34 | the emoji table is exactly the fourteen entries, in insertion order |
| EmojiConversion.ConvertWithTable | plugins/emoji_converter.py:40-49 | the loop's output is every phrase of the table in order, lower case then Title Case |
| EmojiConversion.EmojiConverterPlugin.ProcessText | plugins/emoji_converter.py:40-49 | on an initialised plugin, the output is every phrase of its table in order, lower case then Title Case |
| AudioCapture.AudioCaptureManager.constructor | src/stt_keyboard/core/audio_capture.py:25-46 | no stream, not recording, no callback, empty queue |
| AudioCapture.AudioCaptureManager.SetDevice | src/stt_keyboard/core/audio_capture.py:66-74 | only the device changes |
| AudioCapture.AudioCaptureManager.StartStream | src/stt_keyboard/core/audio_capture.py:76-113 | while recording it changes nothing. Otherwise it stores the callback. If the stream opens, recording is on; if opening fails, the flag is lowered again and the failure is reported |
| AudioCapture.AudioCaptureManager.StopStream | src/stt_keyboard/core/audio_capture.py:115-138 | when not recording it changes nothing, so a second stop is safe. Otherwise recording is off, there is no stream, and the queue is drained |
| AudioCapture.AudioCaptureManager.AudioCallback | src/stt_keyboard/core/audio_capture.py:140-156 | a frame is appended to the unbounded queue only while recording |
| AudioCapture.AudioCaptureManager.ConsumerStep | src/stt_keyboard/core/audio_capture.py:158-172 | not recording ends the loop, and an empty queue times out, both with nothing changed. Otherwise the oldest frame is removed and handed to the callback |
| AudioCapture.AudioCaptureManager.ConsumeQueued | src/stt_keyboard/core/audio_capture.py:160-167 | while recording, the consumer hands over exactly the queued frames in arrival order |
| Speech.Dispatch | src/stt_keyboard/core/speech_engine.py:97-117 | the final callback fires exactly when the chunk is accepted, the text is non-empty and the callback is set; the partial callback likewise when it is not accepted |
| Speech.DispatchExclusive | src/stt_keyboard/core/speech_engine.py:104-117 | an accepted chunk never fires the partial callback, a chunk not accepted never fires the final one, and what fires carries non-empty text |
| Speech.SpeechEngine.constructor | src/stt_keyboard/core/speech_engine.py:26-52 | a loaded engine has a fresh recogniser, no callbacks, an empty queue and the processing loop on |
| Speech.SpeechEngine.Create | src/stt_keyboard/core/speech_engine.py:51-60 | there is no engine exactly when the model is missing; a built engine has its loop running |
| Speech.SpeechEngine.SetCallbacks | src/stt_keyboard/app.py:89-90 | installs the two result callbacks and changes nothing else |
| Speech.SpeechEngine.ProcessAudio | src/stt_keyboard/core/speech_engine.py:77-84 | appends the chunk to the queue and does nothing else |
| Speech.SpeechEngine.ProcessChunk | src/stt_keyboard/core/speech_engine.py:97-117 | feeds the chunk to the recogniser and fires what `Dispatch` says |
| Speech.SpeechEngine.ProcessStep | src/stt_keyboard/core/speech_engine.py:86-95 | once stopped, the loop ends. An empty queue waits. Otherwise the oldest chunk is removed and processed |
| Speech.SpeechEngine.GetFinalResult | src/stt_keyboard/core/speech_engine.py:119-128 | returns the recogniser's final text for what it was given |
| Speech.SpeechEngine.Reset | src/stt_keyboard/core/speech_engine.py:130-140 | a fresh recogniser and an empty queue |
| Speech.SpeechEngine.SetModel | src/stt_keyboard/core/speech_engine.py:142-150 | the path always changes; a missing model is reported and keeps the old recogniser |
| Speech.SpeechEngine.Shutdown | src/stt_keyboard/core/speech_engine.py:152-156 | clears the processing flag so the next loop turn stops |
| Application.TypingTargets | src/stt_keyboard/app.py:250-269 | `_type_text` ends in IDLE and passes through TYPING exactly when the text is non-empty |
| Application.TranscriptTargets | src/stt_keyboard/app.py:205-223 | a final transcript ends in IDLE. A blank one sets only IDLE. Otherwise it passes through TYPING exactly when the plugins leave text |
| Application.StopTargets | src/stt_keyboard/app.py:172-183 | `stop_recording` always ends in PROCESSING, after IDLE when a final text was handled |
| Application.BlankTranscriptGoesIdle | src/stt_keyboard/app.py:214-217 | a whitespace-only or empty transcript sets IDLE and nothing else |
| Application.VisibleTranscriptTyped | src/stt_keyboard/app.py:214-223 | a transcript with a visible character is typed exactly when the plugins leave text |
| Application.SttKeyboardApp.constructor | src/stt_keyboard/app.py:43-90 | the engine's result callbacks point to the application, and it subscribes to state changes |
| Application.SttKeyboardApp.TypeText | src/stt_keyboard/app.py:250-269 | sets the states of `TypingTargets`; non-empty text makes one keyboard call, and IDLE follows even when that call raises |
| Application.SttKeyboardApp.OnFinalTranscription | src/stt_keyboard/app.py:205-223 | sets the states of `TranscriptTargets`; a blank transcript runs no plugin and types nothing |
| Application.SttKeyboardApp.OnAudioData | src/stt_keyboard/app.py:185-193 | a frame reaches the engine queue only while LISTENING |
| Application.SttKeyboardApp.StartRecording | src/stt_keyboard/app.py:164-170 | sets LISTENING, then starts the stream with the audio handler; a stream failure leaves LISTENING. An already-recording capture is untouched; otherwise recording starts with an empty queue, and the stream is running, left as it was (construction fails) or constructed but stopped (`start()` fails). The device and the frame logs are kept |
| Application.SttKeyboardApp.StopRecording | src/stt_keyboard/app.py:172-183 | stops capture, flushes the recogniser and handles a non-empty final text; sets the states of `StopTargets`, ending in PROCESSING. A running stream is closed and its queue drained into the taken log, and an idle capture is left as it was. The capture's device and callback, and the engine's model, path, callbacks, processing loop and queue, are kept, so the engine loop can take further turns |
| Application.SttKeyboardApp.ToggleRecording | src/stt_keyboard/app.py:145-183 | in IDLE it sets LISTENING and starts the capture exactly as `start_recording` does (already recording: `AlreadyRecording` and the capture untouched; otherwise started exactly when the stream opens, with this application's audio callback, an empty queue and the stream each opening outcome leaves); in LISTENING it does everything `stop_recording` does (capture stopped and emptied, engine flushed, the final text piped and typed when non-empty, PROCESSING last); in both branches it keeps what those two keep; any other state changes nothing |
| Application.SttKeyboardApp.CancelRecording | src/stt_keyboard/app.py:156-162 | in LISTENING it sets IDLE, stops the capture (a running stream is closed and its queue drained), and resets the engine (queue drained, fresh recognizer) while keeping the engine's model, path, callbacks and running processing loop, and the capture's callback and device; in any other state it changes nothing |
| Application.SttKeyboardApp.AudioConsumerStep | src/stt_keyboard/app.py:185-193 | the captured frame taken by the consumer reaches the engine only in LISTENING; the capture keeps recording with the same stream, callback and device, and the engine's recognizer, model, callbacks and processing loop are kept, so turns chain |
| Application.SttKeyboardApp.EngineStep | src/stt_keyboard/core/speech_engine.py:86-117 | a stopped loop or an empty queue changes nothing; otherwise the oldest chunk is fed to the recognizer and the callback fired is exactly `Dispatch` of the recognizer's inputs; a fired final transcript goes through `_on_final_transcription` (its states, its plugin run and its keystrokes), in any state; a partial one or none leaves the application untouched; the engine's processing loop, model and path are kept, so turns chain |

## Left out

- The GUI, the Qt bootstrap (`initialize`, `run`, `_init_*`, signal handling, application `shutdown`), hotkey registration, configuration and logging are presentation and I/O.
- Threads, `queue.get(timeout=0.1)`, `join(timeout=1.0)` and daemon flags are not modelled. Each worker thread is one step method, so only sequential interleavings are captured; frames the consumer takes while `stop_stream` runs concurrently are not modelled.
- The sounddevice stream (its parameters, blocksize, dtype) and `get_available_devices` are foreign calls. Opening the stream is reduced to three outcomes: it opens, construction fails, or `start()` fails.
- Vosk `Model`/`KaldiRecognizer` and the JSON results are an oracle of the chunks given so far. Whether the model directory exists is a parameter.
- Dynamic import, `sys.path` insertion, `expanduser` and the class scan of `load_plugin` are a function from (directory, name) to the import's outcome: it raises, or the module loads with or without a plugin class. Which interfaces a class implements is a pair of options, so a class deriving from both `TextProcessorPlugin` and `CommandPlugin` is in both views. The plugin's `name`/`version` properties are not modelled.
- src/stt_keyboard/plugins/plugin_loader.py:47 annotates with `Any`, which line 6 does not import. The model follows the evident intent of `load_plugin`.
- An exception raised inside a plugin's `match_command`, `execute_command` or `process_text`, and a subscriber callback calling back into the state manager, are not modelled.
- `_on_partial_transcription` only logs, so the partial result goes nowhere in the application.
- Characters outside ASCII have no case and are neither whitespace nor word characters. The emoji literals are kept as the opaque code points the source file holds.
- The plugin `context` dictionaries are always empty in the source and are left out.
- `process_text` on a text plugin whose `initialize` has not run raises `AttributeError`, because the table attribute does not exist yet. The `ProcessText` methods require the initialised table instead; `load_plugin` always initialises before storing a plugin.
- Plugins.ExecutedExactly: says which `execute_command` calls happen, not any effect of those calls beyond their verdict.
- AutoPunctuation.SpaceAfterKeepsNonBlank: states that only whitespace is inserted, not that it is exactly one space per mark. The one-space-per-mark shape is in the definition, and `SpaceFollowsPunct` states where spaces end up.
- AutoPunctuation.SpaceFollowsPunct: holds only when no two marks are adjacent. Otherwise a consumed mark gets no space, as `SecondMarkNotSpaced` shows.
- Application.SttKeyboardApp.StartRecording: an exception escaping from `start_stream` is reported as a `StreamFailed` result rather than propagated.
