# Live-assist call client: a Dafny model

This project models the deterministic core of a small web client. The client
runs a voice-AI call through a vendor SDK and relays audio to two
transcription sockets, one for the agent role and one for the customer role.
Three parts are modelled, with every browser or SDK callback taken as one
method call that runs to completion before the next:

- **Transcript and suggestion accumulator** (`live_assist.dfy`,
  `transcript.dfy`, from `src/lib/utils/live-assist.ts`). The class
  `LiveAssist.Assist` holds the `transcript`, `suggestions` and
  `socketConnected` stores, the two sockets, the media stream and the three
  audio nodes.
  - A `"final"` socket event or an SDK message appends the line `LABEL: text`.
    A newline comes first only when the transcript is non-empty.
  - A `"battlecard"` event appends to the suggestions.
  - Open, error and close events from either socket overwrite the one shared
    flag.
  - `stopSocket` closes both sockets and drops every resource.
  - The ghost field `entries` logs the lines received. The invariant
    `transcript == Render(entries)` ties the store, updated one line at a
    time, to an independent definition: the lines joined by newlines.
  - The ghost field `connEvents` logs the connectivity events. The flag is
    always their replay, `ConnectedAfter(false, connEvents)`.
  - Sockets are `LiveAssist.Socket` objects. Each one has a fixed role, a
    `readyState` and the list of frames sent on it.
- **Call clock** (`time_format.dfy`, from `src/lib/utils/elevenlabs-call.ts`).
  `FormatTime` is `formatTime`, built from `NatToString` (`String(n)`) and
  `PadStart` (`padStart`). `ParseTime` is its inverse, and the round trip is
  proved for every non-negative integer second count. The source computes on
  JavaScript doubles, so the two agree for the counts the tick counter can
  reach exactly, those below 2^53 (see "Left out").
- **Call-state machine** (`elevenlabs_call.dfy`, from the same file). The
  class `ElevenlabsCall.Call` holds `isMute`, `isStarted`, `speakerId`,
  `time`, the timer and its `elapsedSeconds`, the optional vendor session and
  the live-assist instance.
  - Its invariant says that the clock always shows `FormatTime(elapsedSeconds)`.
  - It also says that `elapsedSeconds` is 0 while no timer runs.
  - The `setInterval` callback is the explicit method `Tick`.

I/O is supplied as parameters:
- whether a token is stored, and the prompt's answer;
- whether the previous session's `endSession` rejects;
- the microphone stream, or `None` when access is refused;
- how far building the audio graph got before it threw;
- the started vendor session, or null when starting it fails.

The SDK's `onMessage` and `onAudio` callbacks are `Assist.SendMessage` and
`Assist.SendAudio` themselves, as in the source.

## Model

| member | source | states |
|---|---|---|
| `TimeFormat.NatToString` | src/lib/utils/elevenlabs-call.ts:77-78 | `String(n)` is never empty, and it is a single character exactly when n < 10. |
| `TimeFormat.NatToStringDigits` | src/lib/utils/elevenlabs-call.ts:77-78 | `String(n)` is a digit run worth n with no leading zero, at most two characters long exactly when n < 100. |
| `TimeFormat.PadStart` | src/lib/utils/elevenlabs-call.ts:77-78 | `padStart(w, fill)` is at least w long and never shorter than its input: it does not truncate. |
| `TimeFormat.PadStartShape` | src/lib/utils/elevenlabs-call.ts:77-78 | `padStart(w, fill)` has length max(w, \|s\|). It ends with s, after fill characters only, so it never truncates. |
| `TimeFormat.PadKeepsValue` | src/lib/utils/elevenlabs-call.ts:77-78 | Zero-padding keeps a digit run all digits and keeps its numeric value. |
| `TimeFormat.MinutesField` | src/lib/utils/elevenlabs-call.ts:74-77 | The minutes field is at least two characters long. |
| `TimeFormat.SecondsField` | src/lib/utils/elevenlabs-call.ts:75-78 | The seconds field is exactly two characters long, for every count. |
| `TimeFormat.SecondsFieldRange` | src/lib/utils/elevenlabs-call.ts:75-78 | The seconds field is exactly two digits. It runs from "00" to "59", its first digit is at most '5', and it reads back as t % 60. |
| `TimeFormat.MinutesFieldValue` | src/lib/utils/elevenlabs-call.ts:74-77 | The minutes field has at least two digits and reads back as t / 60. It is exactly `String(t / 60)` from ten minutes on, and two characters long exactly when t < 6000. |
| `TimeFormat.FormatTime` | src/lib/utils/elevenlabs-call.ts:73-81 | Every clock string is at least 5 characters long, with the colon third from the end. |
| `TimeFormat.FormatTimeLayout` | src/lib/utils/elevenlabs-call.ts:73-81 | Every clock string is minutes field + ":" + seconds field, at least 5 long, with ':' third from the end and the seconds between "00" and "59". |
| `TimeFormat.FormatTimeFixedWidth` | src/lib/utils/elevenlabs-call.ts:73-81 | For t < 6000 the clock is exactly 5 characters with ':' at index 2. |
| `TimeFormat.FormatTimeMinutesNotTruncated` | src/lib/utils/elevenlabs-call.ts:77 | For t >= 6000 the clock is longer than 5 characters and its minutes field is the full `String(t / 60)`. |
| `TimeFormat.FormatTimeRoundTrip` | src/lib/utils/elevenlabs-call.ts:73-81 | Parsing the two fields of `formatTime(t)` gives back t, for every t. |
| `TimeFormat.FormatTimeInjective` | src/lib/utils/elevenlabs-call.ts:73-81 | Distinct second counts show distinct clocks. |
| `TimeFormat.FormatTimeZero` | src/lib/utils/elevenlabs-call.ts:34-39 | `formatTime(0)` is "00:00", the initial `time` value and the value `stopTimer` resets to. |
| `Transcript.AppendLine` | src/lib/utils/live-assist.ts:85-89 | The line update keeps the old transcript as a strict prefix of the new one. |
| `Transcript.Label` | src/lib/utils/live-assist.ts:86-87 | The label is non-empty and its first letter is 'A' exactly for the agent role, so the two labels differ. |
| `Transcript.SpeakerOfSource` | src/lib/utils/live-assist.ts:170-171 | A message is labelled "AGENT" exactly when its source is "user", and "CUSTOMER" exactly for every other source. |
| `Transcript.LineInjective` | src/lib/utils/live-assist.ts:86-87 | Two equal lines "LABEL: text" come from the same speaker and the same text: a line can be read back. |
| `Transcript.Render` | src/lib/utils/live-assist.ts:86 | A rendered transcript is empty exactly when no line was received. This is what makes the `prev.length > 0` newline test correct. |
| `Transcript.RenderAppend` | src/lib/utils/live-assist.ts:84-89 | Appending one line with the source's update gives the newline-joined rendering of the extended line list. |
| `Transcript.LastLine` | src/lib/utils/live-assist.ts:84-89 | After a line is received, the transcript ends with `LABEL: text` of that line. |
| `Transcript.RenderMonotone` | src/lib/utils/live-assist.ts:169-173 | The transcript is append-only. For any later lines, the rendering of the earlier lines is a prefix of the rendering of all of them. |
| `LiveAssist.AfterClose` | src/lib/utils/live-assist.ts:189-196 | After `close()` a socket is neither connecting nor open. A closing or closed socket keeps its state. |
| `LiveAssist.ConnectedAfter` | src/lib/utils/live-assist.ts:76-105 | The flag is never true after a run of events unless it started true or some socket opened. |
| `LiveAssist.LastEventWins` | src/lib/utils/live-assist.ts:76-105 | The shared flag after any run of events depends only on the kind of the last event, whichever socket sent it. It is true exactly when that event was an open. |
| `LiveAssist.CreateSocketConnection` | src/lib/utils/live-assist.ts:65-108 | No token gives no socket. Otherwise the result is a new, still-connecting socket of the requested role with nothing sent. |
| `LiveAssist.Socket.constructor` | src/lib/utils/live-assist.ts:72-74 | A new socket has its role, is connecting and has sent nothing. |
| `LiveAssist.Socket.Send` | src/lib/utils/live-assist.ts:178-183 | Sending on an open socket appends exactly that frame to what it has sent. |
| `LiveAssist.Socket.Close` | src/lib/utils/live-assist.ts:190 | `close()` moves the ready state as `AfterClose` says. |
| `LiveAssist.Assist.constructor` | src/lib/utils/live-assist.ts:33-43 | A new instance has an empty transcript, no suggestions, the flag false and no resource held. |
| `LiveAssist.Assist.OnOpen` | src/lib/utils/live-assist.ts:76-79 | An open from either socket sets the flag true and logs the event. |
| `LiveAssist.Assist.OnError` | src/lib/utils/live-assist.ts:97-100 | An error from either socket sets the flag false. |
| `LiveAssist.Assist.OnClose` | src/lib/utils/live-assist.ts:102-105 | A close from either socket sets the flag false. |
| `LiveAssist.Assist.OnSocketMessage` | src/lib/utils/live-assist.ts:81-95 | Messages arrive only on an open socket. "final" appends `prev + (prev empty ? "" : "\n") + LABEL(role) + ": " + text`. "battlecard" appends the text as the last suggestion and leaves the transcript alone. Any other type changes neither. The transcript stays the rendering of the lines received. |
| `LiveAssist.Assist.SendMessage` | src/lib/utils/live-assist.ts:168-174 | Appends one line, labelled AGENT exactly when the source is "user". The old transcript stays a prefix. |
| `LiveAssist.Assist.SendAudio` | src/lib/utils/live-assist.ts:176-185 | The frame is sent on the customer socket exactly when that socket is held and open. Otherwise nothing is sent anywhere. |
| `LiveAssist.Assist.OnAudioProcess` | src/lib/utils/live-assist.ts:142-150 | A microphone frame goes to the agent socket exactly when that socket is held and open. |
| `LiveAssist.Assist.CreateSocket` | src/lib/utils/live-assist.ts:157-166 | Keeps the stream and opens one fresh connecting socket per role when a token exists, or none. It assigns the audio context, processor and destination in order, up to the step that threw. |
| `LiveAssist.Assist.StopSocket` | src/lib/utils/live-assist.ts:187-219 | Afterwards no socket, node or stream is held. Each held socket was closed. The stores are untouched, and a second call changes nothing. |
| `ElevenlabsCall.Conversation.SetMicMuted` | src/lib/utils/elevenlabs-call.ts:151 | The session's mic-muted state becomes the value given. |
| `ElevenlabsCall.Call.constructor` | src/lib/utils/elevenlabs-call.ts:31-53 | Not muted, not started, no speaker, clock "00:00", no timer, no session, and a fresh live-assist instance holding nothing, with an empty transcript, no suggestions, the flag false and no line or event received. |
| `ElevenlabsCall.Call.StopTimer` | src/lib/utils/elevenlabs-call.ts:64-71 | Afterwards there is no timer, `elapsedSeconds` is 0 and `time` is "00:00". With no timer running it changes nothing. |
| `ElevenlabsCall.Call.StartTimer` | src/lib/utils/elevenlabs-call.ts:55-62 | Any old timer is stopped and a fresh one runs from 0 seconds with the clock at "00:00". |
| `ElevenlabsCall.Call.Tick` | src/lib/utils/elevenlabs-call.ts:58-61 | `elapsedSeconds` grows by exactly one and `time` becomes `formatTime(elapsedSeconds)`. |
| `ElevenlabsCall.Call.ToggleMic` | src/lib/utils/elevenlabs-call.ts:147-154 | `isMute` becomes the negation of its old value, so two toggles restore it. A present session is muted to the same new value. |
| `ElevenlabsCall.Call.OnConnect` | src/lib/utils/elevenlabs-call.ts:111-116 | Started, not muted, clock "00:00" and a fresh timer at 0 seconds. |
| `ElevenlabsCall.Call.OnDisconnect` | src/lib/utils/elevenlabs-call.ts:117-121 | Not started, speaker "", and the timer stopped with the clock back at "00:00". |
| `ElevenlabsCall.Call.OnModeChange` | src/lib/utils/elevenlabs-call.ts:126-129 | The speaker is "1" exactly when the mode is "speaking", and "2" exactly otherwise. |
| `ElevenlabsCall.Call.StopConversation` | src/lib/utils/elevenlabs-call.ts:139-145 | If a present session's `endSession` rejects, nothing changes and the failure is reported. Otherwise the session is dropped, each held socket was closed with its sent frames unchanged, and the live-assist instance holds nothing. The transcript, suggestions and flag, and the lines and connectivity events received, are kept in every case. |
| `ElevenlabsCall.Call.StartConversation` | src/lib/utils/elevenlabs-call.ts:83-137 | With no stored token and an empty prompt answer, it changes nothing and reports that. Otherwise it stops the previous conversation; if that fails, the error is caught and nothing changes. Once stopped, the old sockets were closed. Without a microphone stream it then holds nothing. With one, it holds the stream, two fresh connecting sockets with nothing sent, the audio nodes built before any failure, and the given session. The stores, and the lines and connectivity events received, are kept throughout. |

## Left out

- Audio conversion (`convertFloat32ToInt16`, src/lib/utils/live-assist.ts:46-53) is floating-point clamping and scaling. `OnAudioProcess` takes the already-encoded frame.
- Base64 encoding (`arrayBufferToBase64`, src/lib/utils/live-assist.ts:56-63) relies on the browser's `btoa` and on the platform's byte order.
- WebSocket URLs, the token's value, `localStorage`, `prompt`, `getUserMedia` and the WebAudio graph wiring are browser I/O. They appear only as the parameters described above.
- JSON parsing and serialising of wire messages is left out. A message that fails to parse, or whose `text` is not a string, is not modelled.
- Console logging is left out. The SDK's `onError` callback only logs, so it has no counterpart here.
- The vendor SDK's `startSession`, `endSession` and session behaviour are foreign code. The session is a value passed in, only its mic-muted state is kept, and the outcome of `endSession` is a parameter.
- `async`/`await` interleaving is not modelled. SDK callbacks that fire while `startConversation` is awaiting are not interleaved with its steps.
- Real `setInterval` timing and the one-second period are not modelled. `Tick` requires a running timer, because the interval callback only fires while one is set.
- The browser owns a socket's ready state. The model moves it in `OnOpen` (to open, from connecting) and in `OnError`/`OnClose` (to closed), because the browser sets it just before it dispatches those events.
- `close()` does not itself change the flag: the close event comes later. So right after `StopSocket` the flag may still be true until `OnClose` runs.
- The returned `agentSocket`/`customerSocket` fields (src/lib/utils/live-assist.ts:223-224) are copies taken when the module is created, so they are always null. The model has no such copies.
- `formatTime` is modelled on non-negative integers only. The source only ever passes the tick counter.
- FormatTimeRoundTrip: proved for unbounded integers. The source's counter is a JavaScript double, so `elapsedSeconds++` stops changing at 2^53, and `String` switches to exponent notation from 10^21. The model agrees with the source only for counts below 2^53, which a one-second timer cannot reach.
- StopSocket: models the release of resources as dropping the references. The effects on the browser are not modelled: `track.stop()` on the microphone tracks, `audioContext.close()`, and `disconnect()` on the processor and destination.
- StartConversation: four failures are modelled: a rejected `endSession`, a refused `getUserMedia`, a failed `startSession` (the session is null), and a throw while building the audio graph, which `setupAudioCapture` catches itself (src/lib/utils/live-assist.ts:111-154). Other exceptions inside the `try` are not modelled, for example `new WebSocket` throwing inside `createSocket` (src/lib/utils/live-assist.ts:72-74).
- Transcript.Render: the transcript cannot always be read back line by line. Texts are arbitrary strings, so a text that contains "\n" followed by a label reads like a second line. For example, the agent saying "x\nCUSTOMER: y" renders exactly as the agent saying "x" and then the customer saying "y". LineInjective and LastLine hold line by line, not for a split of the whole transcript at newlines.
- `svelte.config.js` is build configuration and is not part of this model.
