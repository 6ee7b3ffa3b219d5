# BlinkyChat voice loop and settings, modelled in Dafny

BlinkyChat is an Android voice assistant. A foreground service,
`PicoWordService`, owns one shared Picovoice `VoiceProcessor`. It feeds the
audio frames either to a wake-word listener (Porcupine) or to a transcript
listener (Cheetah) and hands the microphone between the two. It reports what
it hears to `MainActivity` as intents. The activity's `handleSpeechIntent`
reduces those intents to the view model's `status` and `chatText`. On a full
utterance it launches one chat-completion request, whose outcome sets the
text and status again. The view model loads its four settings from a
SharedPreferences store at start-up, and `saveSettings` writes them back.

The project has five modules:

- `Platform`: the JVM and Android values the Kotlin code handles.
  - Nullable strings are `Option`. `OrEmpty` is Kotlin's `orEmpty()`;
    `JavaString` is Java's conversion of a null string to "null".
  - An exception is reduced to its `toString()`.
  - An intent is reduced to its string extras.
- `Settings`: the typed preferences store (`Str` or `Float` entries).
  - A read of the wrong type gives a `ClassCastException`.
  - `ApiKeys.retrieveAPIKey` becomes a lookup in the bundled properties,
    or `name + "-missing"`.
  - `getDefaultAPIKey` and the start-up of the view model's four settings.
  - `saveSettings`, as written and as evidently intended (see Findings).
  - A `SharedPreferences` class whose puts update its map in place.
- `MainActivity`:
  - the `Status` enum and the StatusHeader label of each status;
  - `handleSpeechIntent`, as a pure reducer and as a method on the view
    model;
  - the outcome of a completion;
  - the `BinkyViewModel` class with its fields, its settings methods and
    `sendText`.
- `PicoWordService`: the hand-off state machine of `onCreate`.
  - It is pure transition functions over a `ServiceState`. The state holds
    the registered listeners, the recording state, the transcript builder,
    the events sent, and a log of every call on the processor.
  - The `Service` class performs the same steps as field updates. Its
    callbacks are proved equal to the transition functions.
  - The invariant holds over every stream of frames: two listeners are
    never registered at any moment, and the processor runs with the
    registered listener's engine configuration.
  - One utterance is traced from the wake word to the full speech.
- `EndToEnd`: one spoken utterance, from the service's frames to the UI.
  The activity ends up waiting, shows the full utterance, and has sent it
  exactly once.

What Porcupine and Cheetah answer for a frame is an input (`Frame`), as is
any exception they throw. So is what the chat-completion call returns or
throws (`Completion`), and so is the bundled key file (`bundle`).

## Model

| member | source | states |
|---|---|---|
| Platform.Throwable.ToString | app/src/main/java/org/freskog/blinkychat/MainActivity.kt:389-391 | The string of an exception is never empty and starts with its class name; the message follows when there is one. |
| Platform.Intent.GetStringExtra | app/src/main/java/org/freskog/blinkychat/MainActivity.kt:93 | An extra reads as non-null exactly when the intent carries it, and then reads as the value carried. |
| Settings.RetrieveAPIKey | app/src/main/java/org/freskog/blinkychat/ApiKeys.kt:8-19 | The bundled property when the file is readable and has it; `name + "-missing"` when the file is unreadable or lacks the property. |
| Settings.GetString | app/src/main/java/org/freskog/blinkychat/MainActivity.kt:405-408 | The default when the key is absent. A stored string is returned as stored. A stored float throws. |
| Settings.GetFloat | app/src/main/java/org/freskog/blinkychat/MainActivity.kt:400-403 | The default when the key is absent. A stored float is returned as stored. A stored string throws. |
| Settings.DefaultAPIKey | app/src/main/java/org/freskog/blinkychat/MainActivity.kt:415-425 | Afterwards the name is always present. A present name leaves the store untouched, so nothing is overwritten. An absent one gets the bundled default, which is returned. The read succeeds exactly when the entry is a string, and what is returned is what is stored. |
| Settings.Startup | app/src/main/java/org/freskog/blinkychat/MainActivity.kt:349-352 | Loading the four settings keeps every existing entry. It adds exactly the two API-key entries, and no other key. |
| Settings.StartupSucceedsIffWellTyped | app/src/main/java/org/freskog/blinkychat/MainActivity.kt:349-352 | The view model's start-up throws exactly when one of the four entries it reads holds the other type. |
| Settings.StartupSteps | app/src/main/java/org/freskog/blinkychat/MainActivity.kt:349-352 | Reading the settings one initialiser at a time, on a well-typed store, never throws and gives the same store and values as Startup. |
| Settings.Saved | app/src/main/java/org/freskog/blinkychat/MainActivity.kt:443-452 | The four puts add exactly the four keys, with the OpenAI key, timeout, system message and Picovoice key saved as their values, and leave every other entry as it was. |
| Settings.SavedStore | app/src/main/java/org/freskog/blinkychat/MainActivity.kt:443-452 | As written, saving never creates or changes the entry the timeout is read from. |
| Settings.SavedStoreIntended | app/src/main/java/org/freskog/blinkychat/MainActivity.kt:400-403 | With the reader's key, the saved timeout is what the reader's entry holds. |
| Settings.SavedSettingsReload | app/src/main/java/org/freskog/blinkychat/MainActivity.kt:400-452 | For any store whose timeout entry, if present, is a float: after a save, a restart succeeds and brings back the saved OpenAI key, system message and Picovoice key. The timeout it brings back is the one the store held before the save (3 when it held none), which on a well-typed store is the timeout loaded before the save. |
| Settings.SavedTimeoutIsLost | app/src/main/java/org/freskog/blinkychat/MainActivity.kt:447 | Concrete case: a timeout of 5 saved into an empty store reads back as the default 3. |
| Settings.IntendedSettingsRoundTrip | app/src/main/java/org/freskog/blinkychat/MainActivity.kt:400-452 | For any store, with the intended key, all four saved settings come back after a restart, and the start-up leaves the saved store unchanged. |
| Settings.SharedPreferences.constructor | app/src/main/java/org/freskog/blinkychat/MainActivity.kt:416 | The store opens on the given entries. |
| Settings.SharedPreferences.PutString | app/src/main/java/org/freskog/blinkychat/MainActivity.kt:419-422 | `putString(...).apply()` sets the entry to the string and changes no other entry. |
| Settings.SharedPreferences.PutFloat | app/src/main/java/org/freskog/blinkychat/MainActivity.kt:447 | `putFloat(...)` sets the entry to the float and changes no other entry. |
| MainActivity.StatusLabel | app/src/main/java/org/freskog/blinkychat/MainActivity.kt:284-290 | Only IDLE shows an empty label. |
| MainActivity.StatusLabelInjective | app/src/main/java/org/freskog/blinkychat/MainActivity.kt:284-290 | Each label belongs to exactly one status. |
| MainActivity.SpeechIntentEffect | app/src/main/java/org/freskog/blinkychat/MainActivity.kt:91-120 | ERROR sets the status to Error and keeps the text. WAKE_WORD_DETECTED sets Listening and clears the text. PARTIAL_SPEECH keeps the status and the old text as a prefix, adding a space and the speech (null as "null"). FULL_SPEECH shows the speech (null as ""), sends that same text and waits. Text is sent exactly on FULL_SPEECH. Any other or missing status changes nothing. |
| MainActivity.ReplayAppend | app/src/main/java/org/freskog/blinkychat/MainActivity.kt:122-125 | Handling two runs of intents one after the other is handling the second from where the first left off, and the texts sent concatenate. |
| MainActivity.PartialSpeechAppends | app/src/main/java/org/freskog/blinkychat/MainActivity.kt:106-110 | A run of PARTIAL_SPEECH intents keeps the status and sends nothing. It appends each speech, after a space, in order. |
| MainActivity.Utterance | app/src/main/java/org/freskog/blinkychat/MainActivity.kt:101-117 | A wake word, any partial speeches, then a full speech: from any state, the UI ends waiting and shows the full speech. It has sent that text exactly once. |
| MainActivity.CompletionOutcome | app/src/main/java/org/freskog/blinkychat/MainActivity.kt:383-392 | A completion ends Idle exactly when it returned at least one choice, and then shows the first choice's content (null as ""). Otherwise it ends Error with a non-empty text. A thrown exception is shown as its string. |
| MainActivity.BinkyViewModel.constructor | app/src/main/java/org/freskog/blinkychat/MainActivity.kt:345-357 | The initialisers give IDLE with empty text and no requests. The store and the four settings are those of Startup. The client's token is the loaded OpenAI key. |
| MainActivity.BinkyViewModel.GetDefaultAPIKey | app/src/main/java/org/freskog/blinkychat/MainActivity.kt:415-425 | The new store and the returned key are those of DefaultAPIKey. |
| MainActivity.BinkyViewModel.SendText | app/src/main/java/org/freskog/blinkychat/MainActivity.kt:368-382 | Exactly one request is launched. It carries the client's token, gpt-3.5-turbo, the current system message and the given text. |
| MainActivity.BinkyViewModel.OnCompletion | app/src/main/java/org/freskog/blinkychat/MainActivity.kt:383-392 | The status and text after the launched request ends are those of CompletionOutcome. |
| MainActivity.BinkyViewModel.UpdateOpenAIKey | app/src/main/java/org/freskog/blinkychat/MainActivity.kt:427-429 | Sets only the OpenAI key field. The client keeps the token it was built with. |
| MainActivity.BinkyViewModel.UpdateSilenceTimeout | app/src/main/java/org/freskog/blinkychat/MainActivity.kt:431-433 | Sets only the timeout field. |
| MainActivity.BinkyViewModel.UpdateSystemMessage | app/src/main/java/org/freskog/blinkychat/MainActivity.kt:435-437 | Sets only the system-message field, which later requests carry. |
| MainActivity.BinkyViewModel.UpdatePicoVoiceAPIKey | app/src/main/java/org/freskog/blinkychat/MainActivity.kt:439-441 | Sets only the Picovoice key field. |
| MainActivity.BinkyViewModel.SaveSettings | app/src/main/java/org/freskog/blinkychat/MainActivity.kt:443-452 | The store afterwards is SavedStore of the current settings, as written (timeout under "silence_timeOut"). |
| MainActivity.HandleSpeechIntent | app/src/main/java/org/freskog/blinkychat/MainActivity.kt:91-120 | The view model's status and text become those of SpeechIntentEffect. Exactly one request, with the shown text, is launched on FULL_SPEECH, and none otherwise. |
| PicoWordService.NeverTwoAtAnyPrefix | app/src/main/java/org/freskog/blinkychat/PicoWordService.kt:67-94 | A call log satisfying NeverTwoListeners leaves at most one listener registered after every one of its prefixes. |
| PicoWordService.OnCreate | app/src/main/java/org/freskog/blinkychat/PicoWordService.kt:103-104 | After onCreate only the wake-word listener is registered. The processor runs with Porcupine's configuration, the builder is empty, nothing has been sent, and the invariant holds. |
| PicoWordService.HandOff | app/src/main/java/org/freskog/blinkychat/PicoWordService.kt:67-72 | A hand-off only appends calls. Among the calls it makes, a stop occurs exactly when the engines' frame lengths or sample rates differ. |
| PicoWordService.OnWakeWordFrame | app/src/main/java/org/freskog/blinkychat/PicoWordService.kt:62-77 | Index 0 sends the wake-word event and leaves only the transcript listener registered. The processor is restarted with Cheetah's configuration exactly when the engines differ, and otherwise keeps its state. Any other index changes nothing. An exception sends its string and changes nothing else. |
| PicoWordService.OnTranscriptFrame | app/src/main/java/org/freskog/blinkychat/PicoWordService.kt:79-99 | Every frame sends its partial transcript and appends it to the builder. Without an endpoint nothing else changes. At an endpoint with a successful flush, the full speech sent is the builder, then this partial, then the flushed text (null as "null"). The builder is emptied, only the wake-word listener stays registered, and the processor is restarted with Porcupine's configuration exactly when the engines differ. A failing flush or process sends the exception's string and keeps the listeners. |
| PicoWordService.ClearThenAdd | app/src/main/java/org/freskog/blinkychat/PicoWordService.kt:89-94 | Clearing before adding leaves exactly the new listener. The recording state is kept, and two listeners were never registered. |
| PicoWordService.ClearRestartAdd | app/src/main/java/org/freskog/blinkychat/PicoWordService.kt:67-72 | Clear, stop, start, add: exactly the new listener is registered, the processor runs with the new configuration, and two listeners were never registered. |
| PicoWordService.HandOffKeepsCallsInStep | app/src/main/java/org/freskog/blinkychat/PicoWordService.kt:67-72 | After a hand-off, the listeners and recording state are still those the call log produces. Two listeners were still never registered. |
| PicoWordService.WakeWordFrameKeepsInvariant | app/src/main/java/org/freskog/blinkychat/PicoWordService.kt:62-77 | The wake-word callback preserves the service invariant. |
| PicoWordService.HeardKeepsInvariant | app/src/main/java/org/freskog/blinkychat/PicoWordService.kt:81-83 | Sending and appending a partial transcript, while transcribing, preserves the invariant. |
| PicoWordService.EndpointKeepsInvariant | app/src/main/java/org/freskog/blinkychat/PicoWordService.kt:84-94 | An endpoint with a successful flush preserves the invariant. |
| PicoWordService.TranscriptFrameKeepsInvariant | app/src/main/java/org/freskog/blinkychat/PicoWordService.kt:79-99 | The transcript callback preserves the service invariant. |
| PicoWordService.RunKeepsInvariant | app/src/main/java/org/freskog/blinkychat/PicoWordService.kt:62-99 | Every stream of frames, whatever the engines answer, preserves the invariant. |
| PicoWordService.NeverBothListeners | app/src/main/java/org/freskog/blinkychat/PicoWordService.kt:62-104 | From onCreate on, over any stream of frames, two listeners are never registered at any moment. Exactly one is registered, and the processor runs with that listener's engine configuration. |
| PicoWordService.EndpointSendsUtterance | app/src/main/java/org/freskog/blinkychat/PicoWordService.kt:81-87 | At an endpoint, the full speech sent is every partial transcript sent since the wake word, then this frame's partial, then the flushed text. |
| PicoWordService.PartialEvents | app/src/main/java/org/freskog/blinkychat/PicoWordService.kt:81-82 | Frames without an endpoint send one partial-speech event each, in order, carrying that frame's transcript. |
| PicoWordService.QuietFrame | app/src/main/java/org/freskog/blinkychat/PicoWordService.kt:81-84 | A frame without an endpoint, while transcribing, only sends its partial and appends it to the builder. |
| PicoWordService.QuietFramesAppend | app/src/main/java/org/freskog/blinkychat/PicoWordService.kt:79-84 | A run of frames without an endpoint only sends their partials and appends their concatenation to the builder. |
| PicoWordService.WakeFrame | app/src/main/java/org/freskog/blinkychat/PicoWordService.kt:64-72 | The wake word sends one event and hands over to the transcript listener, keeping the builder. |
| PicoWordService.EndpointFrame | app/src/main/java/org/freskog/blinkychat/PicoWordService.kt:84-94 | An endpoint with a successful flush sends the partial and the full speech, empties the builder and hands back to the wake-word listener. |
| PicoWordService.Utterance | app/src/main/java/org/freskog/blinkychat/PicoWordService.kt:62-99 | Wake word, frames without an endpoint, then an endpoint: the service sends the wake-word event and each partial. The full speech it sends is the concatenation of all the partials plus the flushed text. It ends with the listener and processor it started with and an empty builder. |
| PicoWordService.IntentOf | app/src/main/java/org/freskog/blinkychat/PicoWordService.kt:110-143 | Each event reaches the activity with the status handleSpeechIntent expects for it. Partial and full speech carry their text in "Speech". |
| PicoWordService.Service.constructor | app/src/main/java/org/freskog/blinkychat/PicoWordService.kt:103-104 | The new service's state is OnCreate's, and it is valid. |
| PicoWordService.Service.ClearListeners | app/src/main/java/org/freskog/blinkychat/PicoWordService.kt:67 | No listener remains registered; the call is logged. |
| PicoWordService.Service.AddListener | app/src/main/java/org/freskog/blinkychat/PicoWordService.kt:72 | The listener is added after those registered; the call is logged. |
| PicoWordService.Service.StopProcessor | app/src/main/java/org/freskog/blinkychat/PicoWordService.kt:69 | The processor stops recording; the call is logged. |
| PicoWordService.Service.StartProcessor | app/src/main/java/org/freskog/blinkychat/PicoWordService.kt:70 | The processor records with the given configuration; the call is logged. |
| PicoWordService.Service.Send | app/src/main/java/org/freskog/blinkychat/PicoWordService.kt:110-143 | The event is appended to those sent. |
| PicoWordService.Service.HandOffTo | app/src/main/java/org/freskog/blinkychat/PicoWordService.kt:67-72 | The clear, the conditional restart and the add performed in place give HandOff's state. |
| PicoWordService.Service.WakeWordListenerFrame | app/src/main/java/org/freskog/blinkychat/PicoWordService.kt:62-77 | The callback's in-place updates give OnWakeWordFrame's state, and the service stays valid. |
| PicoWordService.Service.TranscriptListenerFrame | app/src/main/java/org/freskog/blinkychat/PicoWordService.kt:79-99 | The callback's in-place updates give OnTranscriptFrame's state, and the service stays valid. |
| EndToEnd.UtteranceEventsShown | app/src/main/java/org/freskog/blinkychat/MainActivity.kt:91-120 | The wake-word, partial and full-speech events, delivered as intents, leave the UI waiting on the full speech. They send it exactly once. |
| EndToEnd.SpokenUtteranceIsSent | app/src/main/java/org/freskog/blinkychat/PicoWordService.kt:62-99 | Everything the service sends for one utterance, delivered to the activity, leaves it waiting. The full utterance is on screen, and it is the single text sent to the chat model. |

## Left out

- The Compose UI (screens, top bar, chat area, text entry, settings screen, preview) and the permission flow: rendering only. Only the status label mapping is modelled.
- Text-to-speech (`setTTS`, `speakText`): output only. The completion's spoken reply is not modelled.
- The OpenAI network call and coroutine scheduling: the request is recorded when `sendText` launches it, and its outcome is a `Completion` input applied by `OnCompletion`, later and in any order.
- The notification channel, `startForeground`, `onBind`, logging and the intent flags: platform plumbing with no state of the model's.
- The construction of Porcupine and Cheetah (key lookup, keyword file, sensitivity, endpoint duration): the engines are inputs. Their only modelled attributes are the frame configurations; what they answer for a frame is a `Frame` input.
- `onDestroy`: it stops the processor twice but never clears its listeners. The `VoiceProcessor` singleton outliving a destroyed service is not modelled, because `onCreate` is modelled on a fresh processor.
- Exceptions other than `PorcupineException` and `CheetahException` inside the callbacks, and exceptions from `VoiceProcessor.start`/`stop`: not modelled.
- Audio capture and threading: frames are delivered one at a time, to the single registered listener.
- PicoWordService.Deliver: a state with no or two listeners delivers nothing. Under the invariant there is always exactly one.
- Float rounding of the silence timeout: it is an opaque real. The slider's range is UI.
- Parsing of the properties file: a readable file is its map of properties. A read failure is `None`.
- The writing of SharedPreferences to disk: `apply()` updates the in-memory map at once.
- MainActivity.BinkyViewModel.constructor: requires that the start-up does not throw (a well-typed store). In the source a `ClassCastException` escapes the view model's initialisers; that path is modelled only by the function `Settings.Startup` returning `Err`.
- PicoWordService.OnTranscriptFrame: a null partial transcript from Cheetah is not modelled. `sendPartialSpeech` takes a non-null `String`, so passing it a null at PicoWordService.kt:82 throws a `NullPointerException` that the `CheetahException` catch at line 96 does not handle. Partial transcripts are therefore non-null strings, and the `.orEmpty()` at line 83 never applies.
- PicoWordService.Utterance: requires only what the invariant gives a service waiting for the wake word (wake-word listener, Porcupine's configuration, empty builder), so it also covers states the invariant does not mention.

## Findings

| source | as written | input that shows it | evidently intended | confidence | as-written member | corrected member |
|---|---|---|---|---|---|---|
| app/src/main/java/org/freskog/blinkychat/MainActivity.kt:447 | `saveSettings` puts the timeout under "silence_timeOut", but `getDefaultSilenceTimeout` (line 402) reads "silence_timeout", so a saved timeout is never read back | an empty store, the timeout set to 5 and saved, then the app restarted: the timeout reads back as 3 | the timeout is written under the key it is read from, so all four settings survive a restart | high (not executed) | Settings.SavedTimeoutIsLost | Settings.IntendedSettingsRoundTrip |
