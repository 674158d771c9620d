# Telephony ↔ voice-AI relay: a Dafny model of one call

The server accepts a telephony media-stream websocket. For each one, it opens a
realtime voice-AI websocket and relays between the two. Inbound call audio goes
to the AI as `input_audio_buffer.append` messages. A 400 ms interval sends
`input_audio_buffer.commit`. Audio deltas from the AI go back to the call as
`media` frames, each followed by an `ai-chunk` `mark`. Both are tagged with the
`streamSid` that the call's `start` event announced.

This project models that per-connection handler (`server.js:21-105`) as a
sequential state machine. Sockets, JSON and wall-clock time are removed.

- `messages.dfy` (module `Messages`) holds the wire messages of both legs as
  datatypes. It also holds the constants the handler sends: the mu-law 8 kHz
  mono format, the persona text and the mark name. Audio payloads stay opaque
  strings, because the relay never decodes base64.
- `relay_spec.dfy` (module `RelaySpec`) holds the pure model. `State` is what
  the closure keeps: `streamSid`, whether the interval is live, whether
  `rt.close()` was called, and the sequence of messages sent on each leg. There
  is one step function per socket callback. `Step` dispatches on the event and
  `Run` folds a sequence of events. The module also has reference functions
  that are independent of `Run`, such as the last `start` in a sequence or
  what the telephony leg should receive. Lemmas tie `Run` to them.
- `relay_session.dfy` (module `Session`) holds class `RelaySession`. The
  closure variables become its fields, and each socket callback becomes a
  method that updates the fields in place. Each method's contract gives the
  new state directly and also equates it with the matching step function.

JavaScript truthiness is modelled exactly. The forwarding guard `&& streamSid`
rejects both `null` and the empty string (`SidKnown`).

Points the model keeps from the code:

- The commit interval starts when the connection is accepted
  (`server.js:99`), so commits go out before any `start`.
- `stop` only closes the AI leg (`server.js:91-94`). It does not clear the
  interval, so commits continue until the telephony connection closes.
- A later `start` replaces `streamSid` (`server.js:78`).

`RelaySession.Valid()` is a reachable-state invariant: the constructor
establishes it and every callback keeps it. `Session.Handle` delivers one event
to its callback and is proved to perform exactly `Step`, so the lemmas about
`Run` apply to any sequence of deliveries.

## Model

| member | source | states |
|---|---|---|
| `RelaySpec.TelephonyMessageStep` | server.js:74-95 | `start` sets the stream id to the event's id. `media` appends exactly one `input_audio_buffer.append` with that payload and format mulaw/8000/1. `stop` requests the AI close. Nothing else changes, and the telephony outbox and timer are never touched. |
| `RelaySpec.AiOpenStep` | server.js:35-45 | AI open appends exactly one `session.update` with the persona text and output format mulaw/8000/1. Nothing else changes. |
| `RelaySpec.AiMessageStep` | server.js:50-71 | A delta while the stream id is truthy appends `media(sid, delta)` then `mark(sid, "ai-chunk")` and changes nothing else. Otherwise, including another type, a parse failure, or no id yet, the state is unchanged. |
| `RelaySpec.TickStep` | server.js:98-99 | A firing adds one payload-free commit while the interval is live. Otherwise nothing changes. |
| `RelaySpec.TelephonyCloseStep` | server.js:101-104 | Close disarms the timer and requests the AI close. The stream id and both outboxes are unchanged. |
| `RelaySpec.StepPreservesWellFormed` | server.js:54-66 | Every step keeps the invariant: every format declared to the AI is mulaw/8000/1, and every telephony frame carries a non-empty stream id. |
| `RelaySpec.RunPreservesWellFormed` | server.js:43-87 | Any sequence of events keeps the same invariant: every format the relay declares to the AI is mulaw/8000/1, and every telephony frame carries a truthy stream id. |
| `RelaySpec.StreamSidIsLatestStart` | server.js:77-80 | After any sequence of events, the stream id is the one from the most recent `start`, or the initial one if there was none. No other event changes it. |
| `RelaySpec.PhoneOutboxFollowsLatestStart` | server.js:54-66 | The telephony leg receives exactly one media/mark pair per AI delta that arrives while the latest `start` id is truthy, in order. Each pair is tagged with that id. Events other than `start` and deltas have no effect on this leg. |
| `RelaySpec.NoStartNoTelephonyOutput` | server.js:54 | With no `start` yet, deltas are dropped and the telephony leg receives nothing. |
| `RelaySpec.AppendsMirrorMedia` | server.js:82-89 | The appended audio sent to the AI is exactly the `media` payloads, in order and one for one, whatever else is interleaved. |
| `RelaySpec.CommitPerTickUntilClose` | server.js:98-99 | From connection time on, and before any `start`, each firing adds exactly one commit until the telephony close. The interval stays armed. |
| `RelaySpec.NoCommitWhileDisarmed` | server.js:102 | Once the interval is cleared, it stays cleared and no commit is ever added. |
| `RelaySpec.NoCommitAfterClose` | server.js:101-104 | After a telephony close, no further commit is sent whatever follows. |
| `RelaySpec.TimerArmedIffNoClose` | server.js:91-104 | The interval is live exactly when it was live initially and no close has occurred. `stop` does not clear it. |
| `RelaySpec.AiCloseIffStopOrClose` | server.js:91-104 | `rt.close()` has been requested exactly when it already had been, or some event was a `stop` or a telephony close. |
| `RelaySpec.CloseAndStopIdempotent` | server.js:93-103 | A repeated close or a repeated stop, and a stop followed by a close, leave the same state as one close or one stop. |
| `RelaySpec.ScenarioStartMediaStop` | server.js:74-95 | The sequence start("X"), media(A), media(B), stop produces appends A then B. The id stays "X", the AI close is requested, the interval is still live, and nothing goes to the telephony leg. |
| `RelaySpec.ScenarioDeltaBeforeAndAfterStart` | server.js:50-80 | A delta before `start` produces nothing. After start("X"), a delta produces media then mark, both tagged "X". |
| `Session.RelaySession.constructor` | server.js:21-22 | A new connection starts with no stream id, empty outboxes and the AI close not requested. The commit interval is already armed, as `setInterval` at line 99 runs during the connection handler. |
| `Session.RelaySession.OnTelephonyMessage` | server.js:74-95 | The callback updates the fields in place to `TelephonyMessageStep` of the old state and keeps the invariant. |
| `Session.RelaySession.OnAiOpen` | server.js:35-47 | The callback appends one `session.update` to the AI outbox, changes no other field, and matches `AiOpenStep`. |
| `Session.RelaySession.OnAiMessage` | server.js:50-71 | The callback adds media then mark, tagged with the old stream id, exactly when the message is a delta and the id is truthy. It changes nothing else and matches `AiMessageStep`. |
| `Session.RelaySession.OnCommitTick` | server.js:98-99 | The callback appends one commit exactly when the interval is live and matches `TickStep`. |
| `Session.RelaySession.OnTelephonyClose` | server.js:101-104 | The callback disarms the interval and requests the AI close. The outboxes and stream id are unchanged, and it matches `TelephonyCloseStep`. |
| `Session.Handle` | server.js:35-104 | Delivering any event to its callback leaves the relay in exactly `Step` of the old state and keeps the invariant. |

## Left out

- HTTP routes `/`, `/call` and `/outbound-voice` (`server.js:15`, `server.js:114-144`): these are request/response glue around the telephony SDK and a fixed TwiML document.
- Socket construction, headers, environment variables and `server.listen` (`server.js:18-33`, `server.js:108-110`, `server.js:158-159`): this is network I/O. A message sent is modelled as appended to that leg's outbox, and `rt.close()` as a flag.
- JSON parsing and serialisation: messages are datatypes. A malformed AI message is the `AMalformed` constructor, which the handler catches and logs. A malformed telephony message makes `JSON.parse` throw out of the callback (there is no try/catch at `server.js:75`). That path is not modelled, and no discard behaviour is invented for it.
- Real time: the 400 ms cadence becomes abstract `Tick` events, and the two sockets' callbacks are modelled as one sequential event stream. Interleaving and timing are concurrency concerns.
- Send failures: a `send` on a socket that is not open is recorded like any other send. This covers commits fired before the AI leg has opened and sends after `rt.close()`. Library-level errors on a connecting or closed socket are not modelled.
- The AI socket has no `close` or `error` handlers in the source, so there is nothing to model for them.
- Logging (`console.log` / `console.error`) has no effect on the state.
- Actual audio formats on the wire: the model records only the formats the relay declares to the AI leg. It does not capture the format the AI actually returns in a delta, which is forwarded as is (`server.js:55-59`), or the format of the telephony stream.
- Audio content: payloads are opaque, and the code only labels the mu-law format without transcoding.
- Monitor fan-out: no broadcaster exists in this handler.
