# IELTS speaking examiner: a Dafny model of its client and server logic

The system is a browser-based IELTS speaking test trainer:
- An examiner opens each part of the test.
- The candidate speaks.
- The browser's speech recogniser turns the speech into a transcript.
- The transcript is punctuated by the server, sent to a chat model as the candidate's turn, and measured for fluency (word count, hesitation markers, repeated words, pauses).
- The examiner's replies are spoken back.
- At the end a scoring request sends a summary of the fluency measurements to a scoring model.

This project models that logic in Dafny, component by component, and proves what each component promises.

| module | file | models |
|---|---|---|
| `Common` | common.dfy | JavaScript `trim` and `split(/\s+/)`, Python whitespace, ASCII case, decimal strings, `join` |
| `Endpoints` | endpoints.dfy | the endpoint table, the default timeouts and `getEndpointUrl` |
| `ClientConfig` | config.dfy | the global configuration object and its right-biased `updateConfig` merge |
| `Settings` | settings.dfy | saving and loading the model settings, and the `\|\|` default fallback |
| `Timer` | timer.dfy | the test timer: the interval, the tick and the `mm:ss` display |
| `Controls` | controls.dfy | the record, send, input and stop-speaking control flags |
| `Tts` | tts.dfy | examiner speech playback: the `currentAudio` slot, the one-shot reply listener and the browser-synthesis fallback |
| `Messaging` | messaging.dfy | turn dispatch, the history projection and the reply and error handlers of the modular client |
| `Scoring` | scoring.dfy | speech metrics, totals, the fluency label, the summary and the scoring request |
| `ContinuousRecognition` | recognition.dfy | the continuous recogniser of the modular client, with its silence timer, pause counting and a hand-off at most once between two `onstart` or `startTest` resets |
| `LegacyApp` | legacy_app.dfy | the single-page client `static/app.js`, with its non-continuous recogniser that restarts itself, appended transcript, punctuation fallback and unlocked send |
| `TestDriver` | test_driver.dfy | starting a test and choosing the examiner's introduction |
| `Server` | server.dfy | the Flask back end's pure logic: the configuration defaults, the server-settings arithmetic, the round-robin load balancer, punctuation reassembly, system-message insertion and the Gemini role mapping |

Each browser callback, timer firing and listener call is one method on an object that holds the state the source keeps:
- in the global `config`
- in closure variables
- in the DOM

Each method's contract states the whole new state: every field its `modifies` clause names is given its new value in the `ensures`, and the frame keeps every other field. The one exception is the ghost `attemptStart`, which only marks where the current attempt begins for `Valid()`. The invariants that matter are kept in `Valid()` predicates:
- At most one transcript hand-off since the last `onstart` or `startTest` reset, recorded by `messageSent`. A `startTest` reset in the middle of an attempt allows that attempt a second hand-off (`ContinuousRecognition.ResetMidAttemptHandsOffTwice`).
- A pending restart always satisfies the guard it is checked against.
- At most one audio element plays, in the corrected playback handler.

Time, the outcome of a network request, the result of a `start()` or `stop()` that may throw, and the random topic choice are all method parameters.

Where the code and the system's written description differ, the model follows the code:
- For "i think that um um the weather is nice today today" the code gives 11 words, 3 hesitation markers and 2 repeated words, not 10, 2 and 1. The regular expression counts the `er` inside "weather", `split(/\s+/)` keeps every token, and "um um" is also a repetition. `Scoring.WeatherHasOneMarker` proves the "weather" case.
- The summary divides by the total duration without a guard, so a zero duration prints `Infinity`. The rate text is a parameter of the model.
- `settings.js` falls back to `gemma3:4b` for a missing scoring model, while `config.js` and `app.js` use `deepseek:1.5b`. Each module keeps its own default.
- In `app.js`, `startTest` has no `default` case, so any other part gets an empty introduction. `test.js` falls back to the part 1 introduction, and that is what `TestDriver` models.

## Model

| member | source | states |
|---|---|---|
| Common.Trim | static/js/modules/scoring.js:32 | `String.prototype.trim`: the result is no longer than the input, has no leading or trailing space, and is empty exactly when the input is blank |
| Common.SplitTrimmedTokens | static/js/modules/scoring.js:32 | splitting a non-empty trimmed text on `/\s+/` gives non-empty tokens with no space in them |
| Common.DecimalRoundTrip | static/js/modules/timer.js:37 | `toString` of a natural number reads back as the same number |
| Endpoints.GetEndpointUrl | static/api/endpoints.js:15-17 | a URL exists exactly for `chat`, `tts` and `punctuate`, and is `/api/chat`, `/api/tts` and `/api/punctuate` respectively; any other name gives null |
| Endpoints.GetEndpointUrlAsWritten | static/api/endpoints.js:15-17 | as written: a URL exactly for `chat`, `tts` and `punctuate` (their routes), the inherited member exactly for the `Object.prototype` names, and null exactly for every other name |
| Endpoints.InheritedNameIsNotNull | static/api/endpoints.js:15-17 | as written, `getEndpointUrl('toString')` returns the inherited `Object.prototype` member instead of null |
| Endpoints.AsWrittenAgreesOffPrototype | static/api/endpoints.js:3-7 | for every name that is not an inherited member, the as-written lookup agrees with the intended one |
| Endpoints.DefaultTimeoutValues | static/api/endpoints.js:9-13 | the default timeouts are chat 120000 ms, tts 30000 ms and punctuate 15000 ms |
| ClientConfig.InitialConfig | static/js/config.js:4-16 | the initial keys, with the models `gemma3:4b` and `deepseek:1.5b`, part 1, no test active, nothing sent, no metadata, and null timer, audio and recogniser |
| ClientConfig.Merge | static/js/config.js:87 | `{...config, ...n}`: the keys are the union; a key of `n` gets `n`'s value and every other key keeps its value |
| ClientConfig.MergeEmptyIsIdentity | static/js/config.js:87 | `updateConfig({})` leaves every value unchanged |
| ClientConfig.MergeIdempotent | static/js/config.js:87 | applying the same update twice gives the same configuration as applying it once |
| ClientConfig.ConfigStore.constructor | static/js/config.js:4-16 | the store starts with the initial configuration |
| ClientConfig.ConfigStore.InitConfig | static/js/config.js:76-78 | `initConfig` returns the current configuration |
| ClientConfig.ConfigStore.GetConfig | static/js/config.js:81-83 | `getConfig` returns the current configuration |
| ClientConfig.ConfigStore.UpdateConfig | static/js/config.js:86-89 | the new configuration is the merge of the old one with `n`, and that merge is the returned value |
| ClientConfig.ReadUpdateRead | static/js/config.js:81-89 | a configuration read before an update keeps its old values (value semantics); the one read after is the merge, and keys absent from the update are unchanged |
| Settings.OrDefault | static/js/modules/settings.js:36-38 | `v \|\| d`: the default for a missing or empty value, and the value itself otherwise |
| Settings.Loaded | static/js/modules/settings.js:36-38 | each loaded field is its saved value or its default (`gemma3:4b`, `gemma3:4b`, `http://localhost:11434`), so none is empty |
| Settings.Trimmed | static/js/modules/settings.js:11-13 | the saved values are the trimmed inputs |
| Settings.ToSaved | static/js/modules/settings.js:21-25 | every field is written to storage |
| Settings.SaveThenLoad | static/js/modules/settings.js:21-38 | loading what was saved gives each trimmed input back, or its default when that input is blank; with no blank input it is exactly the trimmed inputs |
| Settings.SettingsPage.constructor | static/js/config.js:5-7 | the page starts with the configuration's model and endpoint defaults |
| Settings.SettingsPage.SaveSettings | static/js/modules/settings.js:6-28 | the configuration gets the trimmed inputs, and storage gets exactly the same values |
| Settings.SettingsPage.LoadSettings | static/js/modules/settings.js:30-50 | with nothing stored nothing changes; otherwise configuration and inputs become the loaded values with defaults; storage is untouched |
| Timer.PadShape | static/js/modules/timer.js:37 | `padStart(2, '0')` pads to length 2 with leading zeros and never truncates |
| Timer.PadKeepsValue | static/js/modules/timer.js:37 | padding keeps the decimal value |
| Timer.DisplayRoundTrip | static/js/modules/timer.js:30-38 | the `mm:ss` display parses back to the number of seconds, for every count |
| Timer.DisplayShape | static/js/modules/timer.js:34-37 | the display is the padded minutes, `:` and the padded seconds, and the seconds field shows 00..59 |
| Timer.ShortDisplay | static/js/modules/timer.js:34-37 | below 6000 s the display is exactly 5 characters and parses back |
| Timer.DisplayZero | static/js/modules/timer.js:9-10 | the display right after a start is `00:00` |
| Timer.TestTimer.constructor | static/js/config.js:10-11 | no interval and 0 seconds |
| Timer.TestTimer.StartTimerAsWritten | static/js/modules/timer.js:5-19 | as written: seconds reset to 0, and the new interval is stored and added to the running ones without clearing an earlier one |
| Timer.TestTimer.StartTimer | static/js/modules/timer.js:5-19 | corrected: seconds reset to 0, and the new interval is the only one running |
| Timer.TestTimer.Tick | static/js/modules/timer.js:12-16 | each tick of a running interval adds exactly 1 second |
| Timer.TestTimer.StopTimer | static/js/modules/timer.js:21-28 | the interval is cleared and set to null; with none stored nothing else changes; with one interval, none runs afterwards |
| Timer.StartTwiceLeaksInterval | static/js/modules/timer.js:5-28 | as written, two starts and a stop leave one interval still running |
| Timer.StartTwiceThenStop | static/js/modules/timer.js:5-28 | with the corrected start, two starts and a stop leave no interval running |
| Controls.Panel.Speaking | static/js/modules/tts.js:11-14 | record, send and input disabled; stop-speaking enabled |
| Controls.Panel.Idle | static/js/modules/tts.js:42-46 | record, send and input enabled; stop-speaking disabled |
| Controls.Panel.Lock | static/js/modules/messaging.js:96-98 | record, send and input disabled |
| Controls.Panel.Unlock | static/js/modules/messaging.js:57-59 | record, send and input enabled |
| Tts.MainJsTtsDetail | static/js/main.js:32-34 | the dispatched reply carries the audio but no text |
| Tts.Player.constructor | static/js/config.js:14 | no current audio, no listener, nothing posted, nothing playing |
| Tts.Player.SpeakText | static/js/modules/tts.js:7-27 | controls locked and stop enabled; the text is posted for synthesis; the reply listener is registered once; playback is untouched |
| Tts.Player.Fallback | static/js/modules/tts.js:69-101 | with speech synthesis the text is queued and the pseudo-handle becomes the current audio; without it nothing changes |
| Tts.Player.HandleTTSResponseAsWritten | static/js/modules/tts.js:29-67 | as written: a created element becomes the current audio and plays alongside any earlier one; a failed creation falls back; the listener removes itself; without a listener nothing happens |
| Tts.Player.PauseCurrent | static/js/modules/tts.js:107 | pausing an element stops it; pausing the pseudo-handle cancels all queued synthesis; the slot is kept |
| Tts.Player.HandleTTSResponse | static/js/modules/tts.js:29-67 | corrected: whatever the slot held is paused first (an element stops, the synthesiser queue is cancelled); then a created element is the only one playing, a failed creation falls back to the synthesiser on the cancelled queue or keeps the paused slot, and nothing plays; without a listener nothing changes; at most one element ever plays |
| Tts.Player.OnAudioFinished | static/js/modules/tts.js:40-56 | `onended` and `onerror` clear the slot, stop that element and return the controls to idle |
| Tts.Player.OnSynthEnd | static/js/modules/tts.js:82-88 | the utterance leaves the queue and the controls return to idle, but the pseudo-handle stays current |
| Tts.Player.StopSpeaking | static/js/modules/tts.js:103-118 | with no current audio nothing changes; otherwise it is paused, the slot cleared and the controls idle; under the one-playback invariant nothing plays afterwards |
| Tts.OverlappingPlaybackAsWritten | static/js/modules/tts.js:29-34 | as written, two replies leave two elements playing, and stopping speech leaves the first one playing |
| Tts.OverlappingPlaybackCorrected | static/js/modules/tts.js:29-34 | with the corrected handler only the second element plays, and stopping speech silences it |
| Messaging.UserMessage | static/js/modules/messaging.js:65-67 | the truthy custom prompt, or else the trimmed input; empty exactly when both are blank |
| Messaging.History | static/js/modules/messaging.js:110-124 | one message per bubble, in order, with its role and text |
| Messaging.HistoryAppend | static/js/modules/messaging.js:110-124 | the history of a longer log extends the history of the shorter one |
| Messaging.GetConversationHistory | static/js/modules/messaging.js:110-124 | the loop builds exactly the history projection |
| Messaging.DispatchIgnoresOnlyBlank | static/js/modules/messaging.js:65-67 | nothing is sent exactly when there is no truthy custom prompt and the trimmed input is empty |
| Messaging.DispatchBubble | static/js/modules/messaging.js:69-71 | the user bubble is appended unless both the scoring flag and a custom prompt are given; nothing else is added to the log |
| Messaging.DispatchModel | static/js/modules/messaging.js:78-90 | the request uses the scoring model exactly when scoring, otherwise the conversation model, and goes to the configured endpoint |
| Messaging.DispatchPayload | static/js/modules/messaging.js:76-89 | the messages are the system prompt, then the history of the log after the bubble, then the user message |
| Messaging.DispatchRepeatsUserText | static/js/modules/messaging.js:69-89 | when the bubble is added the user text is sent twice: at the end of the history and as the final message |
| Messaging.MainJsChatDetail | static/js/main.js:27-29 | as written, the dispatched reply detail carries the response and no scoring flag (`isScoring` is absent whatever the worker reported) |
| Messaging.ForwardChatDetail | static/js/main.js:27-29 | corrected: the reply detail carries the scoring flag of the request |
| Messaging.ScoringReplySpokenAsWritten | static/js/modules/messaging.js:45-52 | as written, a scoring reply is spoken |
| Messaging.ForwardedReplySpokenUnlessScoring | static/js/modules/messaging.js:45-52 | with the flag forwarded, a reply is spoken exactly when it is not a scoring reply |
| Messaging.Chat.constructor | static/js/config.js:4-16 | an empty chat, an empty input and no requests |
| Messaging.Chat.AddMessage | static/js/modules/messaging.js:101-108 | appends one bubble with this sender and text |
| Messaging.Chat.SendMessage | static/js/modules/messaging.js:63-99 | nothing changes when dispatch sends nothing; otherwise the log gets dispatch's bubble, the input is cleared, the request is posted and the controls are locked |
| Messaging.Chat.ChatResponseReceived | static/js/modules/messaging.js:45-52 | appends the examiner bubble; it is spoken exactly when the detail is not scoring: the controls are locked, stop is enabled, the text is posted for synthesis and playback is untouched; otherwise the player and the panel are unchanged |
| Messaging.Chat.ApiError | static/js/modules/messaging.js:54-60 | the controls are unlocked and no examiner message is added |
| Scoring.Tokens | static/js/modules/scoring.js:32-33 | the words of the trimmed transcript; always at least one |
| Scoring.TokensShape | static/js/modules/scoring.js:32 | a blank transcript gives the single empty token; otherwise every token is non-empty and holds no space |
| Scoring.MarkerAt | static/js/modules/scoring.js:36 | a case-insensitive marker starts at `i` exactly when a match length is returned, and the match fits in the text |
| Scoring.HesitationsBound | static/js/modules/scoring.js:36 | the matches from `i` on number at most half the remaining length |
| Scoring.StartsWithLower | static/js/modules/scoring.js:36 | lower-casing the text does not change which markers match |
| Scoring.HesitationsIgnoreCaseFrom | static/js/modules/scoring.js:36 | lower-casing the text does not change the count from any position |
| Scoring.HesitationCountProperties | static/js/modules/scoring.js:36 | the count ignores case and is at most half the length |
| Scoring.WeatherHasOneMarker | static/js/modules/scoring.js:36 | substring matching counts the `er` inside "weather" |
| Scoring.NoOverlap | static/js/modules/scoring.js:36 | matches do not overlap: "Hmmm" holds one marker |
| Scoring.RepeatedBound | static/js/modules/scoring.js:38-43 | at most one repetition per adjacent pair, and none when no two neighbours are equal ignoring case |
| Scoring.CountRepeated | static/js/modules/scoring.js:38-43 | the loop counts the adjacent equal pairs ignoring case, at most `wordCount - 1` |
| Scoring.RepeatedIgnoresCase | static/js/modules/scoring.js:40 | "Today today" is one repetition |
| Scoring.Measure | static/js/modules/scoring.js:25-58 | an entry with at least one word, at most `wordCount - 1` repetitions, at most half the length in markers, and the pause count as its silences |
| Scoring.MetadataLog.constructor | static/js/config.js:16 | no metadata |
| Scoring.MetadataLog.Collect | static/js/modules/scoring.js:45-56 | the entry is appended at the end, earlier entries are unchanged, the length grows by one, and the silences are the pause count |
| Scoring.MetadataLog.Clear | static/js/modules/test.js:16-20 | the metadata is emptied |
| Scoring.TotalsAppend | static/js/modules/scoring.js:72-77 | appending an entry adds its fields to both totals |
| Scoring.TotalsConcat | static/js/modules/scoring.js:72-77 | the totals of a concatenation are the sums of the totals |
| Scoring.FluencyLabel | static/js/modules/scoring.js:86 | "Very fluid" iff at most 5, "Moderately fluid" iff 6 to 15, the third label iff more than 15 |
| Scoring.FluencyMonotone | static/js/modules/scoring.js:86 | more hesitations never give a better label |
| Scoring.SummaryCases | static/js/modules/scoring.js:60-87 | the summary is exactly "No speech metadata available." iff there is no metadata; otherwise it starts with the heading and the response count, which reads back as the number of entries |
| Scoring.GenerateMetadataSummary | static/js/modules/scoring.js:60-87 | the accumulating loop produces the summary text |
| Scoring.ScoringPrompt | static/js/modules/scoring.js:13 | the prompt, two separator characters and the summary, in that order |
| Scoring.RequestScoring | static/js/modules/scoring.js:6-23 | the fixed user line is added, then the scoring prompt is posted as a scoring request to the scoring model, as the last message, and no second bubble is added; the input is cleared and locked, the stop button left as it was |
| ContinuousRecognition.JoinedIsJoinPlusSpace | static/js/modules/speechRecognition.js:65-72 | the loop's text is the results joined by spaces, plus one trailing space |
| ContinuousRecognition.Recognizer.constructor | static/js/modules/speechRecognition.js:28-35 | no speech, no timer, no bubble, empty transcript, no pauses, nothing sent |
| ContinuousRecognition.Recognizer.OnStart | static/js/modules/speechRecognition.js:37-61 | a fresh attempt: no speech, empty transcript, 0 pauses, nothing sent, start time and timer value recorded, a temporary bubble |
| ContinuousRecognition.Recognizer.OnResult | static/js/modules/speechRecognition.js:63-105 | the transcript is rebuilt from all results and trimmed, and shown in the input; the first result sets speech-detected without a pause; a later one more than 1500 ms after the previous adds exactly one pause; the single silence timer is re-armed 60000 ms ahead with the current sent flag |
| ContinuousRecognition.Recognizer.StopRecording | static/js/modules/speechRecognition.js:187-203 | asks the recogniser to stop; if the stop throws, the bubble is removed |
| ContinuousRecognition.Recognizer.FireSilence | static/js/modules/speechRecognition.js:93-104 | with speech detected and "not sent" in its snapshot the transcript is posted, `messageSent` set and recording stopped; otherwise nothing happens; at most one hand-off since the last `onstart` or `startTest` reset is kept |
| ContinuousRecognition.Recognizer.OnEnd | static/js/modules/speechRecognition.js:107-134 | the timer is cleared; the transcript is posted with its start time exactly when speech was detected, it is not blank and nothing was sent; otherwise the bubble is removed; at most one hand-off since the last `onstart` or `startTest` reset |
| ContinuousRecognition.Recognizer.OnError | static/js/modules/speechRecognition.js:136-146 | the bubble is removed and recording is stopped; the transcript and the flags are kept |
| ContinuousRecognition.Recognizer.OnPunctuationProcessed | static/js/modules/speechRecognition.js:149-163 | the bubble goes, the punctuated text is sent as the custom prompt of a normal message, and its metrics are appended with the pause count; when a request goes out the input is locked with the stop button as it was, when none does the panel is untouched |
| ContinuousRecognition.Recognizer.StartRecording | static/js/modules/speechRecognition.js:166-185 | with recognition, current playback is stopped first with `stopSpeaking`'s whole effect (input unlocked, stop button disabled, the element's id leaves the playing set or the synthesis queue is emptied, nothing plays when one playback was the case, listening and text-to-speech requests unchanged), the input cleared and the start requested; without it nothing changes |
| ContinuousRecognition.Recognizer.ResetMessageSent | static/js/modules/test.js:16-20 | the sent flag is cleared by `startTest`, so a hand-off is allowed again, even within an attempt that has already handed off |
| ContinuousRecognition.SilenceThenEnd | static/js/modules/speechRecognition.js:93-127 | a silence firing followed by the end of the same attempt hands the transcript off once |
| ContinuousRecognition.ResetMidAttemptHandsOffTwice | static/js/modules/test.js:16-20 | a `startTest` reset between a silence hand-off and the end of the same attempt lets the attempt hand off twice |
| LegacyApp.Punctuate | static/app.js:110-131 | the server's text on success, the original text on any failure |
| LegacyApp.Page.constructor | static/app.js:146-153 | recording inactive, no speech, no transcript, no bubble, no manual stop, nothing sent or pending |
| LegacyApp.Page.SendMessage | static/app.js:415-450 | nothing happens when dispatch sends nothing; otherwise dispatch's bubble is added, the input cleared and the request posted; the controls are not locked |
| LegacyApp.Page.ReplyReceived | static/app.js:452-495 | a reply adds the examiner bubble; a non-scoring reply is spoken and `speakText` locks the controls, while a scoring reply leaves them alone; a failure re-enables the controls and adds nothing |
| LegacyApp.Page.OnStart | static/app.js:155-175 | a new attempt (recording active, empty transcript, 0 pauses, nothing sent, a bubble) only when recording was inactive; an auto-restart keeps the transcript, the flags and the pause count |
| LegacyApp.Page.OnResult | static/app.js:177-197 | a final result appends its trimmed text and one space and marks speech; an interim result leaves the transcript alone and shows it in the input; the transcript only grows |
| LegacyApp.Page.Cleanup | static/app.js:289-302 | the bubble is removed, a pending restart cancelled, and recording and speech cleared |
| LegacyApp.Page.SendTranscript | static/app.js:202-215 | the transcript is punctuated, marked sent, put in the input, sent by dispatch and measured |
| LegacyApp.Page.EndAfterManualStop | static/app.js:201-235 | the transcript is sent exactly when speech was detected, it is not blank and nothing was sent (punctuated, marked sent, dispatched and measured); otherwise nothing is sent and the bubble goes; either way recording and speech end and no restart is pending |
| LegacyApp.Page.OnEnd | static/app.js:199-262 | after a manual stop the transcript is sent exactly when speech was detected, it is not blank and nothing was sent, and the attempt ends with no pending restart; otherwise a restart becomes pending exactly while recording is active and nothing was sent |
| LegacyApp.Page.FireRestart | static/app.js:246-260 | the guard always holds for a pending restart; a successful start keeps recording; a failing one runs the cleanup |
| LegacyApp.Page.OnError | static/app.js:264-286 | a `no-speech` error with a non-blank transcript and no manual stop restarts without cleanup when the start succeeds; every other case runs the cleanup |
| LegacyApp.Page.StopRecording | static/app.js:309-328 | manual stop set, recording inactive, any pending restart cancelled, stop requested |
| LegacyApp.Page.StartRecording | static/app.js:330-345 | the input is cleared, the manual-stop flag reset and the start requested |
| LegacyApp.Page.ResetMessageSent | static/app.js:627 | the sent flag is cleared by `startTest`, so a hand-off is allowed again, even within an attempt that has already handed off |
| LegacyApp.AutoRestartKeepsTranscript | static/app.js:158-171 | an end without a manual stop restarts, and the restarted attempt keeps the accumulated transcript |
| LegacyApp.ManualStopSendsOnce | static/app.js:201-234 | a manual stop sends a non-blank transcript once, and a second end of the same attempt sends nothing |
| LegacyApp.TrimBlank | static/app.js:183-184 | a final non-blank result leaves a non-blank transcript |
| TestDriver.IntroFromPrompts | static/js/modules/test.js:37-58 | part 1 and every other part give the part 1 introduction; part 2 gives its introduction, a space and one of its three topics; part 3 gives its introduction, a space and the first question of one of its groups |
| TestDriver.EveryTopicReachable | static/js/modules/test.js:44-47 | every part 2 topic is the opening of some part 2 test |
| TestDriver.Session.constructor | static/js/config.js:8-9 | no test active, at the given part |
| TestDriver.Session.StartTest | static/js/modules/test.js:8-35 | the chat is emptied, the test is active with no metadata and nothing sent, the timer restarts from 0 on the fresh interval, which is added to the running ones without clearing an earlier one (`startTimer` as written), and the introduction is the only message and is spoken; current playback, the playing set and the synthesis queue are untouched |
| Server.Defaults | app.py:39-47 | `default_config` has exactly the seven default keys |
| Server.MergeDefaults | app.py:53-56 | the merge loop adds exactly the missing defaults |
| Server.LoadConfig | app.py:37-68 | with no file the defaults; with a file, its entries plus the missing defaults |
| Server.WithDefaultsProperties | app.py:53-56 | every default key is present, file keys keep their file values, the other keys have their defaults, and no other key appears |
| Server.WithDefaultsIdempotent | app.py:53-56 | merging the defaults twice adds nothing more |
| Server.Trunc | app.py:84 | Python `int()` on a number truncates toward zero |
| Server.NumberSetting | app.py:75-76 | `config.get(key, default)`: the default when missing, the number when numeric, 1 or 0 for a boolean, a failure for a string or any other value |
| Server.Threads | app.py:83-86 | at most 4 threads per CPU, and with at least one CPU at least 4 |
| Server.Connections | app.py:89-92 | at most 5000 connections |
| Server.ModelInstances | app.py:96 | at least one model instance |
| Server.MemoryThreshold | app.py:99 | at least 60, and at most 90 for a non-negative number of users |
| Server.RequestCooldown | app.py:102 | at least 0.1 |
| Server.CalculateServerSettings | app.py:71-110 | fails exactly for 0 users or a thread multiplier, connection multiplier or request cooldown that is neither a number nor a boolean; otherwise each setting stays within the bounds above |
| Server.MemoryThresholdAntitone | app.py:98-99 | more users never give a higher memory threshold |
| Server.RequestCooldownAntitone | app.py:101-102 | with a non-negative configured cooldown, more (positive) users never give a longer request cooldown |
| Server.ThreadsMonotone | app.py:83-86 | with a non-negative multiplier more users never give fewer threads |
| Server.ModelLoadBalancer.constructor | app.py:248-252 | `n` instances with ids `0..n-1`, starting at index 0 |
| Server.ModelLoadBalancer.GetNextInstance | app.py:254-257 | returns the current instance and moves the index to the next one modulo `n`, so it stays in range; with no instances it fails and the state is unchanged |
| Server.ModelLoadBalancer.NextRound | app.py:254-257 | `n` consecutive calls return each instance exactly once and end at the starting index |
| Server.RotationVisitsEachOnce | app.py:256 | a rotation of `0..n-1` holds each index once |
| Server.Emit | app.py:291-295 | a word's label `'0'` emits the bare word; any other label emits the word followed by its mark |
| Server.Capitalize | app.py:299 | the first character is upper-cased and the rest kept |
| Server.SplitSentences | app.py:298 | `split('. ')` gives at least one piece |
| Server.JoinSplitSentences | app.py:298-300 | joining the pieces of `split('. ')` with `'. '` gives the text back |
| Server.CapitalizeAll | app.py:299 | every piece is capitalised, in order |
| Server.JoinCapitalized | app.py:299-300 | capitalising pieces before joining changes only the case of some characters |
| Server.CapitalizeSentencesOnlyCase | app.py:297-300 | the sentence step keeps the length, changes only the case of characters, and upper-cases the first one |
| Server.FirstPieceStart | app.py:298 | the first piece of the split starts the text |
| Server.FormatPunctuatedText | app.py:282-305 | whitespace-only text or a model failure returns the text unchanged; otherwise the result is the emitted words, joined by spaces, with each sentence capitalised |
| Server.WithSystemMessage | app.py:393-397 | the default system message is inserted at index 0 iff no message has role `system`, and the list is otherwise unchanged |
| Server.WithSystemMessageIdempotent | app.py:393-397 | inserting twice inserts once |
| Server.GeminiContents | app.py:204-214 | fails exactly when a message lacks a role or a content; otherwise the contents keep order and text, and map `user` to `user` and every other role to `model` |

## Left out

- The DOM: bubbles are a `seq` of sender and text; status text, scrolling and `textContent` are not modelled. Button states are booleans in `Controls.Panel`, used only where a property needs them.
- The temporary bubble is a boolean. In the source it is a `.message.user` element, so `getConversationHistory` would include its `...` or interim text; the model's history holds only the chat's bubbles.
- Browser `SpeechRecognition`, `Audio` and `speechSynthesis` objects: handles are integers or a tag, and callbacks are method calls. `audio.play()`, `currentTime` and the utterance's language, rate and pitch are not modelled.
- `fetch`, the web workers and `Promise.race` timeouts: a request is a value appended to a `posted` or `requests` sequence, and a reply or failure is a method parameter. `static/js/main.js` is modelled only in the reply details it dispatches.
- Interleavings across `await` and `setTimeout(…, 0)`. Every event is atomic, and metadata is collected in the same step that sends the message.
- The dynamic `import` of `stopSpeaking` in the continuous recogniser's `startRecording`: the stop is immediate.
- `Date.now`, `new Date().toISOString()`, `durationSeconds`, `toFixed`, `parseFloat` and the words-per-minute figures (floating point). Times are integer parameters, and the average-rate line of the summary is a string parameter.
- `Math.random`: the part 2 topic and the part 3 group are index parameters with a range precondition.
- `lastTimerValue` is recorded but never read by the core.
- The continuous recogniser's `onerror` leaves a pending silence timer in place, as the source does. That timer can still fire after an error, and the model allows it.
- `static/app.js` never increments `pauseCount`, so its metrics always report the count set by `onstart` (0). The model keeps that.
- `static/app.js` `speakText` and `stopSpeaking` (the direct `/api/tts` fetch and playback) are not modelled in `LegacyApp`. Its replies are recorded as spoken texts, and its `startRecording` does not stop playback in the model. Of `speakText`, only its locking of the controls is modelled; the re-enabling when playback ends, fails or is stopped is not.
- `static/app.js` `requestScoring`, `generateMetadataSummary`, `collectSpeechMetadata`, `saveSettings`, `loadSettings`, `addMessage`, `getConversationHistory` and `startTimer`/`stopTimer` repeat the modular functions. The model reuses `Scoring`, `Settings`, `Messaging` and `Timer` for them. The one difference, `loadSettings` falling back to `deepseek:1.5b` for the scoring model, is not modelled separately.
- `static/app.js` `startTest` gives an empty introduction for a part other than 1, 2 or 3. `TestDriver` models the `test.js` version, which falls back to part 1.
- `static/app.js` lines 720-876 (event wiring, `saveNoticeContent` and the commented-out devtools code) and the prompt wording: not modelled.
- Case conversion covers ASCII letters only, and `\s` and `str.strip` cover the ASCII whitespace characters and a few common Unicode spaces.
- Threads, Connections, ModelInstances, MemoryThreshold, RequestCooldown: computed over exact reals, not IEEE double. Python's products and quotients at app.py:83-102 are rounded binary64 values, so a truncated setting can differ by one. For example, 100 users with a connection multiplier of 0.57: Python gets `100 * 0.57 == 56.99999999999999` and 56 connections, the model 57. NaN and infinite configuration values, which Python's `json.load` accepts, are not represented by `Json`. The bounds and the (anti)monotonicity lemmas do not depend on the rounding.
- `app.py`: `multiprocessing.cpu_count()` and `psutil` memory are parameters. The API key literal of `default_config` is the parameter `apiKey` and is not reproduced.
- `app.py`: Python exceptions become failures (`None`): a multiplier or cooldown that is a string, `null`, a list or an object, a division by zero users, an index into an empty balancer, and a missing `role` or `content` key.
- NumberSetting: a string value is reported as a failure. In Python, `expected_users * "2"` repeats the string, so with a positive number of users a thread or connection multiplier given as a digit string yields `int` of the repeated digits rather than an exception. A string request cooldown does raise, as modelled.
- CalculateServerSettings: its failure case therefore also covers a thread or connection multiplier given as a digit string, which Python turns into a (huge) number. The model does not compute that number.
- Server.LoadConfig: does not model writing `config.json` when it is missing, or a file whose JSON is not an object. A parse error counts as a missing file.
- `app.py` `memory_check`, `gc`, the Gemini client calls, the rate-limiting `time.sleep`, `gTTS`, the punctuation model's `preprocess` and `predict` (its labels are an input), Flask routing and the `get_instance` singleton locking: not modelled.
- `wsgi.py` and the `exp/` scripts are not part of this model.

## Findings

| source | as written | input that shows it | evidently intended | confidence | as-written member | corrected member |
|---|---|---|---|---|---|---|
| static/api/endpoints.js:16 | `endpoints[endpoint] \|\| null` also finds names inherited from `Object.prototype` | `getEndpointUrl('toString')` returns a function, not null | null for every name other than `chat`, `tts` and `punctuate` | medium, not executed | Endpoints.InheritedNameIsNotNull | Endpoints.GetEndpointUrl |
| static/js/main.js:27-29 | the `chatResponseReceived` detail carries only `response`, so `messaging.js:47` always speaks the reply | a scoring request (`requestScoring`): the scoring reply is spoken | the request's `isScoring` is forwarded and a scoring reply is not spoken | high, not executed | Messaging.ScoringReplySpokenAsWritten | Messaging.ForwardedReplySpokenUnlessScoring |
| static/js/modules/tts.js:33-34 | a new reply's audio replaces `currentAudio` without pausing the previous element | two replies before the first finishes (a test started twice, or a reply while the intro plays): two elements play and `stopSpeaking` silences only the second | the previous handle is paused, so one element plays and `stopSpeaking` silences it | medium, not executed | Tts.OverlappingPlaybackAsWritten | Tts.OverlappingPlaybackCorrected |
| static/js/modules/timer.js:12-18 | `startTimer` starts a new interval without clearing the stored one | `startTest` twice: two intervals tick and `stopTimer` clears only the second | an earlier interval is cleared, so one interval runs and `stopTimer` stops it | medium, not executed | Timer.StartTwiceLeaksInterval | Timer.StartTwiceThenStop |
