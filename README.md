# Bemol Insight interview pipeline — a Dafny model

Bemol Insight records a video interview in the browser and has a language model analyse each answer.
The browser streams 16-bit PCM audio, plus an occasional JPEG frame, over a WebSocket to a small Node
relay. The relay forwards the stream to the model, cleans up the model's text replies and sends each
reply that parses as JSON back to the browser as an `analysis` message. The interview screen keeps one
analysis per question and shows a dashboard at the end. Around that sit four more screens: a survey
queue with a priority lock, a five-question survey navigator, and two device-check screens.

This project models that core in Dafny and proves properties of it:

- `Pcm`, `Base64`, `Capture`: audio sample conversion (ECMA-262 ToInt16, section 7.1.8), the Int16
  buffer's bytes, `btoa` over a Latin-1 string (RFC 4648 section 4, with a decoder and the round trip),
  the frame capture and the unified media payload.
- `InterviewController`: the interview screen as a class. Each handler, timer callback and awaited
  continuation is one method. The module also holds `formatTime`, the result choice and the question
  advance.
- `Relay`: the server's per-connection session as a class, with the text cleanup (`Text`) and the
  envelope. `Pipeline` ties the relay's output to the client's handler.
- `Analysis`, `Questions`: the analysis record with its fallback constant, and the question list.
- `SurveyQueue`, `SurveyForm`, `HardwareCheck`, `DeviceTest` (with `DeviceStatus`): the gating and
  navigation rules and the device-status records.
- `Json`, `Sockets`, `Wrappers`: JSON values with JavaScript truthiness and optional chaining, a
  WebSocket's ready state, and `Option`.

`JSON.parse` is a function parameter, `parse: string -> Option<Json>`. Sockets are a `ReadyState`
plus the sequence of messages sent. Timers and awaits are split into separate method calls, such as
`Stop` and then `CompleteStop`. Several of these can be pending at once.

The code has no per-session turn buffer: the relay parses the whole cleaned reply text. The client
sends no stop message. An upstream close does not close the client socket. The only delayed fallback
is the four-second completion after a stop.

## Model

| member | source | states |
|---|---|---|
| Pcm.Clamp | client/src/interview/InterviewRecorder.tsx:117 | the clamped sample lies in [-1, 1], equals the input inside that range and saturates outside it |
| Pcm.Truncate | client/src/interview/InterviewRecorder.tsx:118 | conversion rounds toward zero: the integer is within one of the real and no farther from zero |
| Pcm.ToInt16 | client/src/interview/InterviewRecorder.tsx:118 | an `Int16Array` store: the stored value lies in [-32768, 32767], is congruent to the truncation modulo 65536, and equals the truncation when that is already in range |
| Pcm.TruncateMonotone | client/src/interview/InterviewRecorder.tsx:118 | truncation toward zero preserves order |
| Pcm.Scale | client/src/interview/InterviewRecorder.tsx:118 | a negative sample is scaled by 0x8000 and a non-negative one by 0x7FFF: the sign is kept and a sample in [-1, 1] lands in [-32768, 32767] |
| Pcm.ScaledSampleFits | client/src/interview/InterviewRecorder.tsx:117-118 | after clamping and scaling no sample wraps: the stored value is the plain truncation and is in range |
| Pcm.ConvertSample | client/src/interview/InterviewRecorder.tsx:117-118 | one sample's stored value is the truncation of the scaled, clamped sample, a 16-bit value |
| Pcm.ConvertSampleEndpoints | client/src/pages/InterviewRecorder.tsx:105-106 | 1.0 becomes 32767, -1.0 becomes -32768, 0 becomes 0, and out-of-range inputs saturate at those ends |
| Pcm.ConvertSampleSign | client/src/interview/InterviewRecorder.tsx:117-118 | negative samples give values at most 0, non-negative samples values at least 0 |
| Pcm.ConvertSampleMonotone | client/src/interview/InterviewRecorder.tsx:117-118 | the conversion is monotone |
| Pcm.ConvertAll | client/src/interview/InterviewRecorder.tsx:114-121 | same length as the input, and element k is the conversion of sample k |
| Pcm.ConvertFloat32ToInt16 | client/src/interview/InterviewRecorder.tsx:114-121 | the loop fills a fresh array whose contents are `ConvertAll` of the input |
| Pcm.ConvertAllInRange | client/src/interview/InterviewRecorder.tsx:116-119 | every converted sample is a 16-bit value |
| Pcm.Int16Bytes | client/src/interview/InterviewRecorder.tsx:125 | the buffer's byte view has two bytes per sample |
| Pcm.Int16BytesRoundTrip | client/src/interview/InterviewRecorder.tsx:123-125 | reading the little-endian bytes back as signed 16-bit values returns the samples |
| Pcm.ArrayBufferToBase64 | client/src/interview/InterviewRecorder.tsx:123-130 | the loop's result is the base 64 encoding of the bytes, of length 4·⌈n/3⌉ |
| Base64.Char | client/src/interview/InterviewRecorder.tsx:129 | no alphabet character is the pad character |
| Base64.Encode | client/src/interview/InterviewRecorder.tsx:129 | output length is 4·⌈n/3⌉ and padding occurs only at the end |
| Base64.IndexOfChar | client/src/interview/InterviewRecorder.tsx:129 | the alphabet is invertible |
| Base64.BlockRoundTrip | client/src/interview/InterviewRecorder.tsx:129 | a full 3-byte block decodes back to its bytes |
| Base64.OneByteRoundTrip | client/src/interview/InterviewRecorder.tsx:129 | a final single byte (two pad characters) decodes back |
| Base64.TwoByteRoundTrip | client/src/interview/InterviewRecorder.tsx:129 | a final pair of bytes (one pad character) decodes back |
| Base64.DecodeEncode | client/src/interview/InterviewRecorder.tsx:129 | decoding the encoding of any byte sequence gives the bytes back |
| Base64.Latin1 | client/src/interview/InterviewRecorder.tsx:126-128 | one character per byte, and each character's code is its byte |
| Base64.Btoa | client/src/interview/InterviewRecorder.tsx:129 | `btoa` succeeds exactly when every character code is below 256 |
| Base64.BtoaLatin1 | client/src/interview/InterviewRecorder.tsx:126-129 | `btoa` of the byte string is the RFC 4648 encoding of the bytes |
| Capture.EncodeAudio | client/src/interview/InterviewRecorder.tsx:78-79 | the audio chunk's length is fixed by the sample count |
| Capture.EncodeAudioDecodes | client/src/interview/InterviewRecorder.tsx:77-79 | decoding the audio chunk gives bytes that read back as exactly the converted samples |
| Capture.CaptureVideoFrame | client/src/interview/InterviewRecorder.tsx:105-112 | "" when the video, canvas or 2-D context is missing, otherwise the canvas JPEG |
| Capture.UnifiedPayload | client/src/interview/InterviewRecorder.tsx:85-92 | always exactly two chunks, audio/pcm first and image/jpeg second |
| Capture.OnWorkletMessage | client/src/interview/InterviewRecorder.tsx:62-97 | a payload goes out iff there is an open socket and the guard holds, and it is the unified payload of the block |
| Analysis.SentimentLabel | client/src/lib/analysis.ts:5 | the sentiment is one of positivo, negativo, neutro |
| Analysis.Strings | client/src/lib/analysis.ts:9-11 | a string list becomes a JSON array of the same length whose element k is the string k |
| Analysis.MicroJson | client/src/lib/analysis.ts:12-18 | the micro-expression map has exactly the five keys alegria, tristeza, raiva, medo, surpresa |
| Analysis.ToJson | client/src/lib/analysis.ts:3-24 | the record is a truthy object holding that map; `insight_final` is present iff the record has one |
| Analysis.MockAnalysis | client/src/lib/analysis.ts:26-38 | the fallback's four scores and five micro values lie in [0, 1], it is positivo, has a non-empty insight and prosody calmo/normal |
| Analysis.MockJson | client/src/lib/analysis.ts:26-38 | the fallback as stored is truthy and its micro-expression map has exactly the five keys |
| Questions.SurveyQuestions | client/src/lib/questions.ts:8-33 | four questions; the one at position i has id i+1, so ids increase; all fields are non-empty; the last has id 4 |
| Json.Lookup | client/src/pages/InterviewRecorder.tsx:51 | a key is found iff some binding has it, and the value found is that of the last binding of the key |
| Json.Member | client/src/pages/InterviewRecorder.tsx:52 | `x?.key` is defined exactly for the keys of an object, and yields the value of the last binding of that key |
| Sockets.AfterClose | server/src/server.ts:82 | after `close()` a socket is neither open nor connecting, and a closed socket stays closed |
| Text.RemoveAll | server/src/server.ts:52 | removing occurrences never lengthens the text; what is removed is stated by the three lemmas below |
| Text.RemoveAllAbsent | server/src/server.ts:52 | removing a pattern that does not occur changes nothing |
| Text.RemoveAllSkipsPrefix | server/src/server.ts:52 | a prefix without the pattern's first character passes through unchanged |
| Text.NoRunAtFront | server/src/server.ts:52 | removing ```` ``` ```` from text that does not start with one leaves no run at the front |
| Text.RemoveRunGone | server/src/server.ts:52 | after removing every ```` ``` ```` none is left: removal never joins two runs of backticks |
| Text.SkipForward | server/src/server.ts:52 | the index reached is the first non-space at or after the start, with only white space skipped |
| Text.SkipBackward | server/src/server.ts:52 | the index reached ends the last non-space, with only white space skipped from the end |
| Text.Trim | server/src/server.ts:52 | the result is a middle slice with only white space cut from either side, and neither end is white space |
| Text.TrimTrimmed | server/src/server.ts:52 | trimming a trimmed string changes nothing |
| Text.TrimKeepsAbsence | server/src/server.ts:52 | trimming cannot create an occurrence of a pattern |
| Relay.Setup | server/src/server.ts:29-39 | the setup message is an object with the single member `setup` |
| Relay.Clean | server/src/server.ts:52 | the cleaned text has no white space at either end and is never longer than the raw text |
| Relay.SetupContents | server/src/server.ts:25-39 | the setup names models/gemini-2.0-flash-exp, asks for TEXT at temperature 0.6 and carries the system instruction |
| Relay.ModelText | server/src/server.ts:47-48 | exactly a non-empty string at serverContent.modelTurn.parts[0].text counts: such a string is found, and what is found is such a string; without serverContent there is none |
| Relay.Envelope | server/src/server.ts:57-60 | the client message is `{type: 'analysis', data}` with the parsed value as data |
| Relay.Reply | server/src/server.ts:42-64 | a frame yields a message iff it parses, has model text, and the cleaned text parses; the message is an analysis envelope whose `type` is 'analysis' and whose `data` is that value |
| Relay.CleanResult | server/src/server.ts:51-52 | cleaned text contains no ```` ``` ```` and has no white space at either end |
| Relay.CleanFenced | server/src/server.ts:51-52 | ```` ```json ```` X ```` ``` ````, with no backtick in X, cleans to trim(X) |
| Relay.CleanIdempotent | server/src/server.ts:51-52 | cleaning twice is cleaning once |
| Relay.ReplyIsEnvelope | server/src/server.ts:54-60 | every message to the client is an analysis envelope around what the cleaned model text parsed to |
| Relay.RelaySession.constructor | server/src/server.ts:18-23 | each connection gets its own upstream socket, connecting, with nothing sent yet |
| Relay.RelaySession.OnUpstreamOpen | server/src/server.ts:25-40 | when upstream opens, the setup is the first and only message sent |
| Relay.RelaySession.OnUpstreamMessage | server/src/server.ts:42-68 | at most one message to the client per frame, exactly `Reply` of the frame, and only while the client is open |
| Relay.RelaySession.OnClientMessage | server/src/server.ts:71-78 | a client message is forwarded unchanged iff upstream is open |
| Relay.RelaySession.OnClientClose | server/src/server.ts:80-83 | a client close closes this session's upstream socket |
| Relay.RelaySession.OnUpstreamClosed | server/src/server.ts:23 | upstream reaching CLOSED changes nothing else: the client is not closed |
| InterviewController.ContextMessage | client/src/pages/InterviewRecorder.tsx:75-77 | the context is a `text_input` message whose text is the fixed lead, the question's text, the fixed middle, the question's context and the fixed end, in that order and at those positions |
| InterviewController.FramesRequestedCount | client/src/pages/InterviewRecorder.tsx:98-112 | of the first n chunks of a recording exactly ⌊n/10⌋ request a video frame |
| InterviewController.FrameFor | client/src/pages/InterviewRecorder.tsx:126-131 | the image is the canvas JPEG iff a frame is due and both video and canvas exist, and "" otherwise |
| InterviewController.MediaMessage | client/src/pages/InterviewRecorder.tsx:138-145 | the audio chunk comes first; an image chunk follows iff the image is non-empty |
| InterviewController.OrElse | client/src/pages/InterviewRecorder.tsx:157 | JavaScript's or-operator with a fallback: a truthy x is kept, a missing or falsy x gives the fallback, and a truthy fallback gives a truthy result |
| InterviewController.AnalysisPayload | client/src/pages/InterviewRecorder.tsx:52 | a message is taken iff its type is 'analysis' and its data is truthy; the data taken is the message's |
| InterviewController.FeedbackFor | client/src/pages/InterviewRecorder.tsx:53 | the feedback is `insight_final` when truthy, "IA analisando..." when absent or falsy |
| InterviewController.Advance | client/src/pages/InterviewRecorder.tsx:162-166 | advance by one below the last question, otherwise finish with the index unchanged, which keeps the index in [0, N-1] |
| InterviewController.AdvanceAsWritten | client/src/pages/InterviewRecorder.tsx:155-167 | as written: the finish test reads the index captured at stop time; when it does not finish the live index goes up by one, and when it finishes the live index is unchanged |
| InterviewController.AdvanceAsWrittenAgrees | client/src/pages/InterviewRecorder.tsx:162-166 | with one completion pending at a time, the code as written and the corrected advance agree |
| InterviewController.OverlappingStopsOverrun | client/src/pages/InterviewRecorder.tsx:155-167 | two stops within the delay on the third question take the index to 4, past the last question |
| InterviewController.Digits | client/src/pages/InterviewRecorder.tsx:173 | `toString` gives a non-empty string of decimal digits |
| InterviewController.DigitsValue | client/src/pages/InterviewRecorder.tsx:173 | reading the digits back gives the number |
| InterviewController.PadTwo | client/src/pages/InterviewRecorder.tsx:173 | `padStart(2, '0')` gives at least two characters |
| InterviewController.PadTwoValue | client/src/pages/InterviewRecorder.tsx:173 | padding keeps the digits' value |
| InterviewController.FormatTime | client/src/pages/InterviewRecorder.tsx:170-174 | the display has at least five characters and a ':' third from the end |
| InterviewController.FormatTimeReadsBack | client/src/pages/InterviewRecorder.tsx:170-174 | the display is minutes, ':', then two digits; the minutes read back as s div 60, the seconds as s mod 60 < 60, and below 100 minutes the display is exactly MM:SS |
| InterviewController.InterviewRecorder.constructor | client/src/pages/InterviewRecorder.tsx:23-38 | the initial state: no consent, question 0, nothing recorded, no socket, the chunk counter and frame count at 0, no start guard captured; the fallback it stores is the mock analysis |
| InterviewController.InterviewRecorder.Consent | client/src/pages/InterviewRecorder.tsx:43-60 | consenting opens the socket (connecting) unless the interview is finished; nothing else changes |
| InterviewController.InterviewRecorder.OnSocketOpen | client/src/pages/InterviewRecorder.tsx:47 | the socket is open and the screen shows connected |
| InterviewController.InterviewRecorder.OnSocketClose | client/src/pages/InterviewRecorder.tsx:48 | the socket is closed and the screen shows offline |
| InterviewController.InterviewRecorder.OnMessage | client/src/pages/InterviewRecorder.tsx:50-56 | an analysis message replaces the current analysis and sets the feedback; any other message changes nothing |
| InterviewController.InterviewRecorder.RequestStart | client/src/pages/InterviewRecorder.tsx:73-78 | the current question's context is sent iff the socket is open, before any media is requested; the worklet's guard captures the recording flag of this render, which is false |
| InterviewController.InterviewRecorder.OnMediaReady | client/src/pages/InterviewRecorder.tsx:86-98 | recording starts with the timer at 0, the feedback and current analysis cleared and the chunk counter at 0 |
| InterviewController.InterviewRecorder.Tick | client/src/pages/InterviewRecorder.tsx:63-67 | each second of recording adds one to the timer |
| InterviewController.InterviewRecorder.ProcessChunk | client/src/pages/InterviewRecorder.tsx:100-112 | a block advances the counter and is sent, on an open socket only, with a frame exactly when the counter reaches a multiple of ten |
| InterviewController.InterviewRecorder.OnAudioChunkAsWritten | client/src/pages/InterviewRecorder.tsx:99-100 | as written: the handler tests the guard captured at Start; when it is false no block is ever sent |
| InterviewController.InterviewRecorder.OnAudioChunk | client/src/pages/InterviewRecorder.tsx:99-113 | corrected guard: while recording now, each block advances the counter and is sent, on an open socket only, with a frame on every tenth; at most ⌊n/10⌋ of n messages carry an image |
| InterviewController.InterviewRecorder.SendToSocket | client/src/pages/InterviewRecorder.tsx:123-146 | nothing is sent unless the socket is open; otherwise one message, the base 64 audio then the image when there is one |
| InterviewController.InterviewRecorder.Stop | client/src/pages/InterviewRecorder.tsx:148-153 | recording ends at once, and the current analysis is captured for the delayed completion |
| InterviewController.InterviewRecorder.CompleteStop | client/src/pages/InterviewRecorder.tsx:155-167 | exactly one result is stored per stop, the captured analysis or the fallback when it is missing or falsy; then advance, or finish and close the socket, leaving an absent or already finished socket alone |
| InterviewController.InterviewRecorder.FinalResult | client/src/pages/InterviewRecorder.tsx:184 | the finished view shows the last result, or the fallback when there is none |
| InterviewController.StaleGuardScenario | client/src/pages/InterviewRecorder.tsx:99-100 | consent, open, Start, media ready, then one block: the handler as written sends nothing, the corrected one sends the block |
| Pipeline.EnvelopeAccepted | server/src/server.ts:57-60 | the client takes every envelope whose data is truthy, and takes exactly that data |
| Pipeline.FencedReplyReachesClient | server/src/server.ts:51-60 | a fenced model reply whose trimmed body parses to a truthy value reaches the client as that value |
| SurveyQueue.AnyPendingHigh | client/src/pages/SurveyQueue.tsx:38 | the `some` scan finds a pending top-priority survey iff one exists |
| SurveyQueue.HandleStart | client/src/pages/SurveyQueue.tsx:36-45 | a start is refused iff some survey is pending at top priority and the chosen one is not top priority; otherwise it goes to /check |
| SurveyQueue.StartRefusals | client/src/pages/SurveyQueue.tsx:38-44 | a top-priority survey is never refused, and completed surveys never block |
| SurveyQueue.BuiltInQueue | client/src/pages/SurveyQueue.tsx:8-43 | with the built-in list, every survey that is not top priority is refused |
| SurveyQueue.PriorityLabel | client/src/pages/SurveyQueue.tsx:27-34 | the label is non-empty iff the priority is high, medium or low |
| SurveyQueue.PriorityLabelsDistinct | client/src/pages/SurveyQueue.tsx:29-31 | the three labels differ |
| SurveyQueue.PriorityStyles | client/src/pages/SurveyQueue.tsx:18-25 | every priority gets a class list, and unknown ones get bg-gray-200 |
| SurveyForm.FullExactlyWhenAll | client/src/pages/Survey.tsx:63 | a set of numbers within 1..N has N members iff it holds every number 1..N |
| SurveyForm.Form.constructor | client/src/pages/Survey.tsx:55-58 | the navigator starts on question 1 with no recordings, not submitting, not complete |
| SurveyForm.Form.Question | client/src/pages/Survey.tsx:60 | the question shown has the current number as its id |
| SurveyForm.Form.CanSubmitMeansAllRecorded | client/src/pages/Survey.tsx:63 | counting the map's keys is the same as checking that every question has a recording |
| SurveyForm.Form.NextEnabledMeans | client/src/pages/Survey.tsx:193-206 | Next is enabled iff the current question is not the last and has a recording |
| SurveyForm.Form.SubmitEnabledMeans | client/src/pages/Survey.tsx:193-206 | Submit is enabled iff on the last question every question is recorded and nothing is being submitted; Next and Submit are never both enabled |
| SurveyForm.Form.RecordingComplete | client/src/pages/Survey.tsx:65-77 | the current question's entry is set or replaced, and every other entry is unchanged |
| SurveyForm.Form.Next | client/src/pages/Survey.tsx:79-83 | the question number increases only below N, so it stays in [1, N] |
| SurveyForm.Form.Previous | client/src/pages/Survey.tsx:85-89 | the question number decreases only above 1, so it stays in [1, N] |
| SurveyForm.Form.BeginSubmit | client/src/pages/Survey.tsx:91-92 | the enabled submit button sets the submitting flag |
| SurveyForm.Form.FinishSubmit | client/src/pages/Survey.tsx:95-98 | after the wait, submitting ends and the survey is complete, with every question answered |
| HardwareCheck.TrackStatus | client/src/pages/HardwareCheck.tsx:91-95 | success iff there is a track and the first one is enabled |
| HardwareCheck.Checker.constructor | client/src/pages/HardwareCheck.tsx:33-38 | all four statuses start as checking |
| HardwareCheck.Checker.InitDevices | client/src/pages/HardwareCheck.tsx:43-74 | all four statuses go back to checking, and a probe starts with its timer |
| HardwareCheck.Checker.OnProbeOpen | client/src/pages/HardwareCheck.tsx:62-66 | the timer is cancelled, the connection succeeds and the probe is closed |
| HardwareCheck.Checker.OnProbeError | client/src/pages/HardwareCheck.tsx:68-71 | the timer is cancelled and the connection fails |
| HardwareCheck.Checker.OnProbeTimeout | client/src/pages/HardwareCheck.tsx:55-60 | after three seconds a probe that is not open is closed and the connection fails; the timer is only armed while the probe connects, so the probe always ends closing and the connection failed |
| HardwareCheck.Checker.OnMediaGranted | client/src/pages/HardwareCheck.tsx:88-122 | camera and microphone follow their first track, audio succeeds regardless, and readiness ignores audio |
| HardwareCheck.Checker.Continue | client/src/pages/HardwareCheck.tsx:165-173 | continuing is possible iff camera, microphone and connection all succeed, and it goes to the fixed next route |
| HardwareCheck.Checker.OnMediaDenied | client/src/pages/HardwareCheck.tsx:124-131 | camera, microphone and audio fail, and the connection status is unchanged |
| DeviceTest.TrackStatus | client/src/pages/DeviceTest.tsx:64-69 | success iff there is at least one track; whether it is enabled is not checked |
| DeviceTest.ContinueRoute | client/src/pages/DeviceTest.tsx:134-137 | continuing goes to /survey/ followed by the survey id, or "undefined" without one |
| DeviceTest.Tester.constructor | client/src/pages/DeviceTest.tsx:32-36 | all three statuses start as checking |
| DeviceTest.Tester.InitDevices | client/src/pages/DeviceTest.tsx:41-46 | all three statuses go back to checking |
| DeviceTest.Tester.OnMediaGranted | client/src/pages/DeviceTest.tsx:61-97 | camera and microphone succeed iff a track of their kind exists, audio succeeds, and all are ready iff both kinds exist |
| DeviceTest.Tester.Continue | client/src/pages/DeviceTest.tsx:129-137 | continuing is possible iff all three devices succeed, and it goes to the survey's route |
| DeviceTest.Tester.OnMediaDenied | client/src/pages/DeviceTest.tsx:98-105 | all three fail |

## Left out

- Transport and devices are not modelled: WebSocket I/O, `getUserMedia`, AudioContext and AudioWorklet, `client/public/pcm-processor.js`, and the canvas JPEG encoding. A socket is its ready state plus the messages sent. The JPEG is an opaque input string.
- `JSON.parse` and `JSON.stringify` are a parameter and the identity on JSON values. The client's and the server's unguarded parses of client messages are taken as well-formed, because the code has no error path for them.
- Timers and awaits (4 s stop delay, 3 s probe timeout, 2 s submit wait, 1 s tick) are later method calls, not clock time.
- The upstream socket's `error` event has no handler in the relay: for example, when the client closes before upstream connects. What Node does then, an uncaught error, is not modelled.
- Audio worklets from earlier recordings are never disconnected in the source. The model keeps one chunk counter, for the latest recording.
- HardwareCheck.Checker: handlers of a probe from an earlier `initDevices` (the retry button) still fire in the source. The model has only the latest probe.
- The audio-level meter, the tone test, NaN samples and float32 rounding are left out. Samples are reals.
- Pcm.Int16Bytes: the Int16 buffer's byte order is the platform's; the model fixes it to little-endian.
- Presentation-only files are not part of this model: the dashboard, timeline, progress bar, survey card, header, login, success, consent modal and router. `server/src/prompts.ts` is not part of this model either; the system instruction is a constructor parameter.
- The stale-closure reads of React state are modelled explicitly only where they change behaviour. The worklet guard is the `startGuard` field, read by `OnAudioChunkAsWritten`. The analysis captured by `stopRecording` is queued by `Stop`. The index captured by `stopRecording` is modelled only in the pure `AdvanceAsWritten`: the class's `CompleteStop` uses the corrected `Advance` on the live index.

## Findings

| source | as written | input that shows it | evidently intended | confidence | as-written member | corrected member |
|---|---|---|---|---|---|---|
| client/src/pages/InterviewRecorder.tsx:155-167 | the delayed completion tests the question index captured when stop was pressed, but increments the live index | on the third of four questions (index 2), stop, start again and stop within 4 s: both completions see index 2 and increment, leaving index 4, past the last question | decide on the live index, so the last completion finishes the interview | medium, not executed | InterviewController.AdvanceAsWritten | InterviewController.Advance |
| client/src/pages/InterviewRecorder.tsx:99-100 | the worklet handler tests the `isRecording` captured by the render whose Start button was clicked; the same guard is at client/src/interview/InterviewRecorder.tsx:74 | any recording: Start is only offered while not recording, so the captured flag is false and every audio block is dropped before it is sent | test the live recording state | high, not executed | InterviewController.InterviewRecorder.OnAudioChunkAsWritten | InterviewController.InterviewRecorder.OnAudioChunk |

`InterviewController.OverlappingStopsOverrun` and `InterviewController.StaleGuardScenario` exhibit the two discrepancies. The class uses the corrected forms: `CompleteStop` calls `Advance`, and `OnAudioChunk` tests the live flag. `Capture.OnWorkletMessage` takes its guard as a parameter.
