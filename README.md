# Inside Out war room: a Dafny model of its coordination core

The system is a voice-driven "war room". A user talks (or types) to five
emotion personas (Joy, Sadness, Anger, Fear, Disgust), and a
"Headquarters" orchestrator decides who answers. The replies come back as
text, are turned into speech one item at a time, and are played in turn
while captions and the active persona tile follow the audio.

This project models the logic that coordinates all of that. Every piece
is verified against a specification written here.

- **Console** (`Console.dfy`, frontend/src/App.jsx) models the browser
  client as one class. Its fields are the component's refs and the state
  that its callbacks write. Every callback is one atomic method.
  - The callbacks are: a stream chunk arrived, a fetch completed or
    failed, `canplaythrough`, `ended`, `error`, a timer fired, recognition
    started, produced a result or ended, and stop.
  - Timers and network requests are pending entries that a later event
    method consumes, so time is an order of events.
  - The file holds four parts:
    - the NDJSON stream decoder;
    - the audio queue with its single-flight player, the abort flag,
      `stopDebate` and the completion poll;
    - the speech-capture debounce and auto-restart machine;
    - the batch sequencer of `handleSend`/`playSequence`.
- **Warroom** (`Warroom.dfy`, backend/main.py) models the war-room
  endpoint:
  - speaker selection: @mentions, then the UI list, then the single
    target, then the orchestrator's reply;
  - the cap of four speakers;
  - "Name:" cleanup of each reply;
  - the history window of 30 entries;
  - the request check of the audio endpoint.
- **FunModeStream** (`FunModeStream.dfy`, backend/main.py) models the Fun
  Mode stream endpoint:
  - the request check and the choice of the prompt's constraint;
  - `stream_with_buffer`: "Name: text" lines arriving in arbitrary chunks
    become `{persona, text}` objects, including the end-of-stream flush
    and the failure line.
- **Brain** (`Brain.dfy`, backend/brain.py) models how the model's raw
  replies are post-processed:
  - `decide_persona`'s match against names in a fixed order, with "Joy"
    as the fallback;
  - the fixed fallback strings of `generate_response`;
  - fence removal before `generate_fun_mode_script` parses the script.
- **Personas** (`Personas.dfy`, backend/personas.py) models the voice
  table with its environment overrides and default, the prompt lookup,
  and the rule that loads prompts from a directory: a file `Name.txt`
  gives the prompt of `Name`.
- **Text** and **Wrappers** hold the string operations both languages
  use, and `Option`/`Result`.
  - Text has Python's `strip` and JavaScript's `trim`, each with its own
    whitespace set. It also has `split`, join, `replace` with "", ASCII
    lower-casing and substring search.

Five behaviours of the client that the model keeps as the code has them:

- **Queue order.** Each item is pushed onto the audio queue when its audio
  fetch completes (frontend/src/App.jsx:474-477), so the queue is in
  completion order, not stream order.
  - `FetchCompleted` may complete any pending fetch.
  - The invariant `dequeued + queue == enqueued` records the completion
    order.
- **Abort and pending fetches.** `stopDebate` (frontend/src/App.jsx:534-540)
  only sets the abort flag, pauses the audio and resets the view. A fetch
  that completes after it still pushes its item
  (frontend/src/App.jsx:474-477), and the queue and the playing flag are
  left as they are.
- **Batch audio.** In batch mode `playSequence` fetches one response's
  audio at a time, when it reaches that response
  (frontend/src/App.jsx:337-346).
- **End of stream.** The client's decoder leaves the loop on `done`
  without handling what is left in its buffer
  (frontend/src/App.jsx:421-446). The backend framer does flush its last
  line (backend/main.py:476-482).
- **A paused item holds the player.** `stopDebate` pauses the element
  while an item may be playing (frontend/src/App.jsx:534-536), so its
  `ended` never fires and the playing flag stays set
  (frontend/src/App.jsx:512-523). A later `startFunMode` empties the queue
  but does not clear that flag (frontend/src/App.jsx:396-398), so its items
  wait in the queue until an `error` event or a rejected `play()` ends the
  old wait. The model keeps this: neither `StopDebate` nor `StartFunMode`
  may write `queuePlaying`, and `BusyPlayerOnlyQueues` shows that a busy player
  only queues what arrives.

## Model

| member | source | states |
|---|---|---|
| Text.Strip | backend/main.py:468 | Python's `str.strip`: the result occurs inside the input, neither end is Python whitespace, and an already stripped string is unchanged |
| Text.Trim | frontend/src/App.jsx:432 | JavaScript's `trim` with its own whitespace set: the result occurs inside the input, neither end is whitespace, and a trimmed string is unchanged |
| Text.StripPadded | backend/brain.py:157 | whitespace around a text does not change what `strip` gives |
| Text.Lower | backend/brain.py:106 | lower-casing keeps the length and maps each character on its own |
| Text.RemoveAllKeeps | backend/brain.py:157 | `replace(pat, "")` leaves a prefix that cannot start the pattern untouched |
| Text.SplitJoin | frontend/src/App.jsx:428 | `split` loses nothing: rejoining the parts with the separator gives the text back, and no part holds the separator |
| Text.SplitOfJoin | backend/main.py:466-467 | splitting a join of separator-free parts gives exactly those parts |
| Text.SplitAppend | frontend/src/App.jsx:426-429 | splitting `s + t` is splitting `s`, except that its last part is continued by `t` |
| Personas.VoiceTable | backend/personas.py:7-13 | the voice table has exactly the five emotions as keys |
| Personas.VoicesWithoutOverrides | backend/personas.py:7-13 | with no `VOICE_ID_*` variable set, each emotion gets its built-in voice id |
| Personas.VoiceFor | backend/personas.py:45-46 | the table's entry for a known name, "rtza1NeU17DKF7sf5ZAu" for any other |
| Personas.VoiceOfUnknownName | backend/personas.py:45-46 | every name outside the five, "Headquarters" included, is voiced by the default |
| Personas.PromptFor | backend/personas.py:42-43 | the loaded prompt, or "" for a name without one |
| Personas.Stem | backend/personas.py:32 | `splitext(...)[0]` of a ".txt" name: the whole name exactly when only dots precede the extension, the name without ".txt" otherwise |
| Personas.StemOfNamedFile | backend/personas.py:31-32 | "Name.txt" is a prompt file and registers under "Name" |
| Personas.RegisterKeys | backend/personas.py:30-35 | a key is in the loaded table exactly when it was there before or some ".txt" file's stem equals it |
| Personas.RegisterLastWins | backend/personas.py:30-35 | a key's value is the stripped content of the last file that registers it |
| Personas.RegisterIgnoresOtherFiles | backend/personas.py:30-31 | files not ending in ".txt" leave the table unchanged |
| Personas.PersonaManager.constructor | backend/personas.py:5-14 | the voice table comes from the environment; a missing directory leaves the prompt table empty, otherwise its listing is loaded in order |
| Personas.PersonaManager.LoadPrompts | backend/personas.py:26-35 | the loop updates the table entry by entry, ending in the table the rule `Register` defines; a missing directory changes nothing |
| Personas.PersonaManager.GetPrompt | backend/personas.py:42-43 | `get_prompt` is the prompt lookup; "" for a name without a prompt |
| Personas.PersonaManager.GetVoiceId | backend/personas.py:45-46 | `get_voice_id` is the voice lookup; the default voice for a name outside the table |
| Brain.MatchFrom | backend/brain.py:105-109 | the match is always one of the five emotions |
| Brain.MatchFromIsFirst | backend/brain.py:105-107 | the match is the first emotion, in the order Joy, Sadness, Anger, Fear, Disgust, whose lower-case name occurs in the decision |
| Brain.MatchFromNone | backend/brain.py:105-109 | when no emotion's name occurs, the match is "Joy" |
| Brain.ConfigFor | backend/brain.py:56 | the system instruction is sent exactly when it is a non-empty string, and then unchanged |
| Brain.CleanScriptWithoutFence | backend/brain.py:157 | a reply without backticks is only stripped |
| Brain.CleanScriptUnfences | backend/brain.py:157 | a script wrapped in a "```json" fence comes out as the stripped script |
| Brain.Brain.constructor | backend/brain.py:8-31 | whether the client was created is an input and becomes the connection state |
| Brain.Brain.Configure | backend/brain.py:33-43 | the client is set when creating it succeeds and cleared when creating it raises |
| Brain.Brain.GenerateResponse | backend/brain.py:45-67 | "Error: Brain not connected." without a client, "Thinking..." when the call raises, otherwise the model's reply to a request carrying the instruction only when one is given |
| Brain.Brain.DecidePersona | backend/brain.py:69-112 | always one of the five; "Joy" without a client or when the call raises; otherwise the first-match rule on the stripped, dot-free, lower-cased reply |
| Brain.Brain.GenerateFunModeScript | backend/brain.py:114-162 | [] without a client, when the call raises, or when the fence-stripped reply does not parse; otherwise the parsed script |
| Warroom.WordPrefix | backend/main.py:233 | the greedy `\w+`: a prefix of word characters that cannot be extended |
| Warroom.FindMentions | backend/main.py:233 | every match of `@(\w+)` is a non-empty word |
| Warroom.SkipsBareAt | backend/main.py:233 | an '@' not followed by a word character, with no '@' before it, yields nothing, and the scan goes on after it |
| Warroom.FindMentionsSound | backend/main.py:233 | each mention found is the whole word that follows some '@' of the message |
| Warroom.FindsMention | backend/main.py:233 | an '@' followed by a whole word, with no '@' before it, yields that word first and then the mentions of the rest |
| Warroom.WordPrefixOfWord | backend/main.py:233 | `\w+` matches exactly a word that is followed by a non-word character or the end |
| Warroom.NoAtNoMentions | backend/main.py:233 | a message without '@' mentions nobody |
| Warroom.FilterValid | backend/main.py:234 | the kept names are exactly the input's valid persona names, never more of them than the input has |
| Warroom.FilterValidAppend | backend/main.py:248 | the filter keeps order and duplicates: it distributes over concatenation |
| Warroom.DedupSpec | backend/main.py:235-240 | the mention list has no repeats, has exactly the input's elements, and is ordered by first occurrence |
| Warroom.UniqueMentions | backend/main.py:235-240 | the `seen` loop computes that de-duplicated list |
| Warroom.OrchestratorOrder | backend/main.py:270-281 | a failed call gives ["Joy", "Sadness"]; otherwise the valid stripped comma-separated names of the dot-free reply, in order, or ["Joy"] when none is valid |
| Warroom.StrippedParts | backend/main.py:276 | each part is stripped, one result per part |
| Warroom.ChooseSpeakers | backend/main.py:244-281 | the four-level priority: mentions, then a non-empty UI list (filtered), then a valid single target, then the orchestrator |
| Warroom.SpeakersAreValid | backend/main.py:229-281 | every chosen speaker is a persona, and the order is empty exactly when there is no mention and a non-empty UI list names no persona |
| Warroom.Speaking | backend/main.py:292 | `speaker_order[:4]`: a prefix of the order, the whole order when it has at most four names, exactly its first four otherwise |
| Warroom.CleanResponse | backend/main.py:322-326 | the cleaned reply has no surrounding whitespace; without its own "Name:" prefix it is only stripped |
| Warroom.CleanRemovesOwnName | backend/main.py:325-326 | a reply starting with its persona's name in any case and ':' becomes the stripped rest |
| Warroom.BuildResponses | backend/main.py:320-331 | one response per speaking persona, in order, each with the cleaned reply |
| Warroom.ExchangeLines | backend/main.py:334-336 | the exchange is "User: msg" then one "Persona: text" line per response |
| Warroom.KeepLast | backend/main.py:338-339 | the last n entries: a suffix, everything when the list is short, exactly n otherwise |
| Warroom.WarRoom.constructor | backend/main.py:40 | the history starts empty |
| Warroom.WarRoom.RecordExchange | backend/main.py:333-339 | the history becomes the last 30 entries of the old history plus the exchange, so it never exceeds 30 |
| Warroom.WarRoom.Handle | backend/main.py:201-341 | 400 and no change without a message; otherwise one cleaned response (at most four) per chosen speaker, in order, with the history updated |
| Warroom.WarRoom.HandleAsWritten | backend/main.py:291-318 | as written: 500 and no history change whenever anyone is to speak |
| Warroom.AsWrittenFailsWithoutUiList | backend/main.py:244-318 | with no mention and no UI list somebody always speaks, so the as-written endpoint always fails |
| Warroom.AudioRequest | backend/main.py:495-505 | with a non-empty body its "text" and "persona" are used; otherwise the query's text, with persona "Joy" when the query gives none or an empty one; a missing or empty query text is 400; the voice is the persona's |
| FunModeStream.ParseLine | backend/main.py:469-474 | an object exactly when the line has ':' and the stripped name is a speaker; the persona and text are the stripped halves |
| FunModeStream.EmitWellFormed | backend/main.py:466-474 | every emitted object names one of the six speakers and has stripped text |
| FunModeStream.DrainLines | backend/main.py:466-474 | the `while "\n" in buffer` loop frames each complete line in order and leaves the text after the last newline |
| FunModeStream.FrameChunks | backend/main.py:463-485 | across chunks, the output is the framing of the complete lines of the text received, then the flush or the failure line |
| FunModeStream.StreamWithBuffer | backend/main.py:456-485 | the stream's output is `Framed` of the concatenated chunks; after an exception it is the complete lines so far plus one System line |
| FunModeStream.FramedLines | backend/main.py:466-482 | for lines joined by newlines, the complete lines go through the line rule and the last one through the flush |
| FunModeStream.FramedTerminated | backend/main.py:476-482 | a newline-terminated text leaves nothing to flush |
| FunModeStream.ChooseConstraint | backend/main.py:364-381 | a non-empty selection decides the constraint (its valid names, or three key emotions); otherwise "long" and "medium" give five and four emotions, anything else three |
| FunModeStream.CheckStreamRequest | backend/main.py:352-357 | a missing or empty message is 400; otherwise the constraint for the selection and the mode, which defaults to "default" |
| Console.Accept | frontend/src/App.jsx:431-442 | at most one record per line; a record is passed on only if it is the parse of the line with a non-empty persona and text, and such a non-blank line is always passed on |
| Console.HandledSound | frontend/src/App.jsx:431-442 | every record passed on is the parse of one of the lines, with a non-empty persona and text |
| Console.SkipsRejectedLine | frontend/src/App.jsx:432-441 | a blank or unparseable line is dropped, and the lines after it are still handled |
| Console.KeepsGoodLine | frontend/src/App.jsx:432-438 | a non-blank line that parses to a record with persona and text is passed on in its place among the other lines |
| Console.FeedAllIsSplit | frontend/src/App.jsx:426-429 | after any chunks, the handled lines are the complete lines of the text received and the buffer is the text after its last newline |
| Console.ChunkingIrrelevant | frontend/src/App.jsx:426-429 | two chunkings of the same text give the same lines and the same buffer |
| Console.DecoderLosesNothing | frontend/src/App.jsx:426-429 | the handled lines and the buffer rejoin to the received text, and the buffer has no newline |
| Console.Dequeue | frontend/src/App.jsx:486-498 | no-op while playing or on an empty queue; otherwise the flag is set, the head is shifted off and is the one item in play, and single flight is preserved |
| Console.Enqueue | frontend/src/App.jsx:474-478 | a completed fetch appends its item at the tail; the player starts only when idle, and then plays the queue's head |
| Console.Settle | frontend/src/App.jsx:519-530 | a wait ending clears the flag; after an abort the queue stays, otherwise the next item starts; a stale resolution changes nothing |
| Console.BusyPlayerOnlyQueues | frontend/src/App.jsx:474-478 | while an item is in play, completed fetches only append, in completion order, and the poll never sees the queue drained |
| Console.JoinTranscripts | frontend/src/App.jsx:208-211 | the loop concatenates the results from `resultIndex` on |
| Console.ChosenText | frontend/src/App.jsx:290 | a non-empty override wins over the latest transcript |
| Console.Console.constructor | frontend/src/App.jsx:161-166 | the refs start empty and idle, and the whole invariant holds |
| Console.Console.ProcessQueue | frontend/src/App.jsx:486-519 | the player becomes `Dequeue` of the old player, and single flight and the invariant `dequeued + queue == enqueued` are kept |
| Console.Console.ItemSettled | frontend/src/App.jsx:519-530 | the player becomes `Settle`; when the wait ends under abort, processing, caption and tile are reset to Headquarters, and otherwise they are unchanged |
| Console.Console.FetchAudioAndQueue | frontend/src/App.jsx:464-470 | a passed-on record starts exactly one pending audio fetch |
| Console.Console.FetchCompleted | frontend/src/App.jsx:471-478 | the completed fetch leaves the pending set, its item is `Enqueue`d and becomes the last enqueued, and the invariants are kept |
| Console.Console.FetchFailed | frontend/src/App.jsx:480-482 | a failed fetch leaves the pending set and enqueues nothing |
| Console.Console.QueuedCanPlay | frontend/src/App.jsx:501-511 | tile and caption switch to the item; a resolved play() leaves the element playing, a rejected one settles the wait |
| Console.Console.TurnCanPlay | frontend/src/App.jsx:349-357 | tile and caption switch to the batch response; a rejected play() is only logged |
| Console.Console.Show | frontend/src/App.jsx:502-507 | the tile switches only to a known persona, the caption shows the text, and play() may unpause the element |
| Console.Console.MediaEnded | frontend/src/App.jsx:512-516 | the queue handler arms the 300 ms resume for its promise; the batch handler clears the caption and arms the 200 ms gap to the next index |
| Console.Console.MediaError | frontend/src/App.jsx:518 | the queue player's `onerror` settles its wait; with no handler nothing changes |
| Console.Console.ResumeTimerFired | frontend/src/App.jsx:515 | the fired timer is removed and its promise settles the player |
| Console.Console.StopDebate | frontend/src/App.jsx:534-540 | sets abort, pauses audio, clears processing and the caption, and resets the tile; the queue and the flag are left as they are |
| Console.Console.StartFunMode | frontend/src/App.jsx:392-401 | an empty topic changes nothing; otherwise abort is cleared, processing set, the queue emptied, and a new stream loop created |
| Console.Console.StreamOpened | frontend/src/App.jsx:414-422 | the player is kicked by `Dequeue`, and the loop reads unless already aborted, in which case the poll starts |
| Console.Console.StreamChunk | frontend/src/App.jsx:421-443 | the complete lines of buffer+chunk are handled in order, the rest becomes the buffer, and the loop ends if aborted; the decoder invariant is kept |
| Console.Console.AfterRead | frontend/src/App.jsx:421-422 | abort ends the loop and starts the poll; otherwise the new buffer is kept |
| Console.Console.HandleLines | frontend/src/App.jsx:431-442 | the inner loop passes on exactly `Handled` of the lines, in order |
| Console.Console.HandleLine | frontend/src/App.jsx:432-438 | one line passes on exactly what `Accept` allows |
| Console.Console.StreamDone | frontend/src/App.jsx:423-446 | on done the loop ends without flushing, and the poll starts |
| Console.Console.StreamFailed | frontend/src/App.jsx:457-460 | a failure ends the loop and shows "Connection Lost."; processing is left set |
| Console.Console.PollTick | frontend/src/App.jsx:446-455 | the poll stops once queue and flag are clear, and resets the view only when not aborted |
| Console.Console.OnResult | frontend/src/App.jsx:199-229 | barge-in pauses the audio first; only a non-blank trimmed transcript becomes the latest text and re-arms the single silence timer |
| Console.Console.Heard | frontend/src/App.jsx:213-220 | a non-blank transcript becomes the latest text and arms the timer; a blank one changes nothing |
| Console.Console.HandleSend | frontend/src/App.jsx:289-301 | blank text changes nothing; otherwise the input is cleared, processing set, the user caption shown and one war-room request issued |
| Console.Console.SilenceTimerFired | frontend/src/App.jsx:220-227 | the timer fires once; with latest text, recognition is stopped and that text is sent |
| Console.Console.OnEnd | frontend/src/App.jsx:231-243 | recognition stops; a restart 100 ms later is armed only while the call is active |
| Console.Console.RestartTimerFired | frontend/src/App.jsx:239-241 | the timer is consumed and start() starts a stopped engine |
| Console.Console.StopCallBeforeRestart | frontend/src/App.jsx:231-282 | as written: `onend` during a call, then `stopCall` before the 100 ms timer fires, leaves recognition running with the call ended |
| Console.Console.GuardedRestartTimerFired | frontend/src/App.jsx:237-241 | a restart timer that re-checks the call flag: it starts the engine only while the call is active |
| Console.Console.StopCallBeforeGuardedRestart | frontend/src/App.jsx:231-282 | with the guarded timer, the same sequence leaves the engine stopped |
| Console.Console.OnStart | frontend/src/App.jsx:185-189 | the listening flag is set |
| Console.Console.StartCall | frontend/src/App.jsx:250-272 | the call becomes active, the input is cleared and audio paused; start() runs, or when it throws, stop() and a 100 ms restart follow |
| Console.Console.StopCall | frontend/src/App.jsx:274-282 | the call ends, the silence timer is cancelled and recognition is asked to stop |
| Console.Console.PlaySequence | frontend/src/App.jsx:321-341 | past the last response, a caption clear is armed, processing ends and recognition restarts if the call is active; otherwise that response's audio fetch starts |
| Console.Console.WarroomDone | frontend/src/App.jsx:311-318 | a failure shows "Connection Lost.", an empty list "No response."; otherwise the batch is stored and its first response fetched |
| Console.Console.BatchAudioFetched | frontend/src/App.jsx:343-378 | fetched audio installs the batch handlers; a failed first fetch shows "Connection Lost.", a failed later one changes nothing |
| Console.Console.BatchTimerFired | frontend/src/App.jsx:367 | the 200 ms gap plays the next index of its batch |
| Console.Console.CaptionTimerFired | frontend/src/App.jsx:324 | the 800 ms timer clears the caption |

## Left out

- Text.Lower: only ASCII letters are mapped, while Python's `lower()` maps all of Unicode.
- Warroom.FindMentions: `\w` is ASCII letters, digits and '_'. Python's `\w` also matches Unicode letters, so non-ASCII mentions are not modelled.
- Parsing is not modelled. `JSON.parse`, `json.loads` and `json.dumps` are uninterpreted parameters or plain records. An unparseable line is `None`.
- The Gemini and ElevenLabs calls are foreign services. Their replies are inputs, with `None` standing for a raised exception. The prompt texts and the history context built into them are not modelled.
- `asyncio.gather` parallelism is left out. The gathered replies are a sequence aligned with the speaking personas.
- File reading errors in `load_prompts` are left out. The directory is a list of (name, content) pairs in listing order.
- `backend/audio.py`, `scripts/warmup_cache.py`, the dead `stream_generator`, and the `chat`, `music`, `sfx`, `scribe-token` and `config` endpoints are left out. They are SDK, HTTP or filesystem wrappers, or code that is never run.
- Rendering, the `Typewriter`, the view mode, and API-key handling with localStorage are left out. They are UI and credential I/O.
- `TextDecoder` is left out. Chunks are already-decoded strings.
- Real timing is not modelled. Timers and fetches are pending entries; the event that consumes one is a method call.
- Promise continuations are modelled in the same step as the event that resolves them. A rejected `play()` resolves its wait in the `canplaythrough` step.
- Request bodies are not modelled. The selected personas and the persona override sent to the backend are not part of the client model.
- The model assumes speech recognition is available. The "unsupported browser" branch is left out.
- `onerror` of recognition changes no state, so it has no method.
- Console.Console.OnResult: the rewind to `currentTime = 0` is not modelled, because the element's position is not part of the model.

## Findings

| source | as written | input that shows it | evidently intended | confidence | as-written member | corrected member |
|---|---|---|---|---|---|---|
| backend/main.py:315 | each speaking persona's task calls `brain.generate_response_async`, which the `Brain` class does not define, so the endpoint fails with an AttributeError (HTTP 500) | the message "hello" with no UI list: the orchestrator order is never empty, so at least one persona speaks | call the existing `generate_response` for each speaker and return one cleaned response per speaker | not executed | Warroom.WarRoom.HandleAsWritten | Warroom.WarRoom.Handle |
| frontend/src/App.jsx:239-241 | the 100 ms restart timer armed by `onend` calls `start()` without checking `isCallActive` again | `onend` while the call is active, then `stopCall` within 100 ms: the timer restarts recognition after the call has ended | restart recognition only while the call is still active | not executed | Console.Console.StopCallBeforeRestart | Console.Console.GuardedRestartTimerFired |
