# MediaConnection session model

A Dafny model of `MediaConnection`, the media session of a peer-to-peer
signalling library (WebRTC calls between two peers). A session is created
in one of two ways:

- on the caller side, with a local stream. It starts its negotiator at once
  as originator and hands over the messages buffered so far.
- on the callee side, from an offer payload. It stays dormant until
  `answer(stream)` attaches the stream to the payload, starts the negotiator
  as responder with the offer, hands over the buffer and opens the
  connection.

In both cases the negotiator's `addStream` notification records the remote
stream and emits a `stream` event.

The project has two modules:

- `MediaSpec` (media_spec.dfy) gives the session as a value, `Session`, and
  each entry point as a function on it: `Create`, `Answer`, `StreamArrived`,
  and `Drain` for the base class's `_handleQueuedMessages`. `Run` applies a
  sequence of calls. The lemmas state what holds over every such sequence.
- `Media` (media_connection.dfy) holds the class `MediaConnection`. Its
  fields are updated in place. Ghost logs record the calls it makes on its
  collaborators:
  - `startCalls`: every `startConnection` call;
  - `forwarded`: the messages handed to the negotiator;
  - `emitted`: the events emitted;
  - `warnings`: the warnings logged.

  Each method is proved to move `State()` exactly as the matching `MediaSpec`
  function does.

Stream handles, messages, offers and the RTCConfiguration are abstract types.
They are passed through and never inspected. `Option.None` stands for a
JavaScript value that is absent, `undefined` or `null`: all of these are
falsy, and every present stream object is truthy.

The model follows the code as written:

- A second `addStream` notification overwrites `remoteStream` and emits a
  second `stream` event.
- `answer` does not check its argument. `answer(null)` passes the guard and
  starts the negotiator, and a later `answer` can then start it again.
  `AnswerWithoutStreamStartsTwice` shows this. The at-most-once start is
  therefore proved only for call sequences in which every `answer` gets a
  stream.
- `answer` on a session built without a payload throws a TypeError at
  `this._options.payload.stream = stream`, before it changes anything. This
  is the `PayloadMissing` outcome.

## Model

| member | source | states |
|---|---|---|
| `MediaSpec.EventNames` | src/mediaConnection.js:9-11 | the declared events are exactly one, `stream`, and every event of the closed set has its key listed |
| `MediaSpec.SeededQueue` | src/mediaConnection.js:42 | the buffer starts as the `queuedMessages` option, or empty when that option is absent |
| `MediaSpec.Drain` | src/mediaConnection.js:55 | handing the buffer over appends it, in order, to what the negotiator has received, empties the buffer and changes nothing else (assumed behaviour of the base class) |
| `MediaSpec.Create` | src/mediaConnection.js:29-65 | with a stream: one start call (type `media`, the stream, originator true, no offer, the pcConfig), negotiation available, the seeded messages forwarded and the buffer empty; without one: no start call, not available, nothing forwarded, the buffer exactly as seeded; in both cases closed, no remote stream, no events |
| `MediaSpec.Answer` | src/mediaConnection.js:71-94 | with a local stream already set: only a warning, no other change; without a payload: a TypeError and no change; otherwise the payload and `localStream` get the stream, one start call is added (originator false, offer from the payload), negotiation becomes available, the buffer is forwarded and emptied, the connection opens, and the remote stream, events and warnings are unchanged |
| `MediaSpec.StreamArrived` | src/mediaConnection.js:58-64 | the remote stream becomes the delivered one (overwriting), exactly one `stream` event carrying it is appended, and nothing else changes |
| `MediaSpec.ConsistentPreserved` | src/mediaConnection.js:71-93 | if every `answer` gets a stream, every call keeps the session invariant: started at most once; available exactly when started; a local stream exactly when available; open only when available; buffer empty when available; nothing forwarded before |
| `MediaSpec.CreateConsistent` | src/mediaConnection.js:39-56 | both construction paths establish that invariant |
| `MediaSpec.StartsAtMostOnce` | src/mediaConnection.js:45-89 | after construction and any calls in which every `answer` gets a stream, the negotiator has been started at most once, and negotiation is available exactly when it was started |
| `MediaSpec.AnswerWithoutStreamStartsTwice` | src/mediaConnection.js:72-80 | an `answer` without a stream leaves the guard open, so a later `answer` starts the negotiator a second time |
| `MediaSpec.LocalStreamSettled` | src/mediaConnection.js:72-75 | once a local stream is set, no later `answer` or arrival changes it, the start calls, the buffer, the forwarded messages, the availability, the open flag or the payload |
| `MediaSpec.MessagesConserved` | src/mediaConnection.js:42-91 | no call loses, duplicates or reorders a buffered message: forwarded followed by buffered is unchanged |
| `MediaSpec.DrainedWhenAvailable` | src/mediaConnection.js:54-55 | every call keeps both facts: the buffer is empty once negotiation is available, and nothing is forwarded before |
| `MediaSpec.SeededMessagesForwardedInOrder` | src/mediaConnection.js:42-56 | in every reachable state, the seeded messages have been forwarded in order and the buffer is empty exactly when negotiation is available; otherwise none is forwarded and all are still buffered |
| `MediaSpec.EventsFollowArrivals` | src/mediaConnection.js:58-64 | the events emitted are exactly one `stream` event per arrival, in order; the remote stream is the last one delivered, or unchanged when none arrived |
| `MediaSpec.CalleeScenario` | src/mediaConnection.js:71-94 | a callee session answered twice and then given a remote stream: one responder start with the offer; open; the seeded messages forwarded; one warning; one `stream` event |
| `Media.MediaConnection.constructor` | src/mediaConnection.js:29-65 | the object's state is `Create(options)`, its type tag is `media`, its id prefix is `mc_`, and its remote peer is the one given |
| `Media.MediaConnection.HandleQueuedMessages` | src/mediaConnection.js:55 | called only once the negotiator has been started (as at both call sites); the object's state moves as `Drain` says |
| `Media.MediaConnection.Answer` | src/mediaConnection.js:71-94 | the object's state and the outcome are those of `MediaSpec.Answer`; the remote stream is untouched |
| `Media.Replay` | src/mediaConnection.js:29-94 | an object constructed and then given any sequence of `answer` calls and `addStream` notifications ends in the state `Run(Create(options), calls)`, so the lemmas above hold of it; in particular it has started the negotiator at most once when every `answer` got a stream |
| `Media.MediaConnection.OnAddStream` | src/mediaConnection.js:58-64 | the object's state moves as `StreamArrived` says; the local stream, buffer, availability, open flag and payload are untouched |

## Left out

- The base `Connection` class is not part of this model. That covers id generation, the handling of `connectionId` and `label`, the event-emitter plumbing, and how `_options` is built from the options. The model assumes three things about it:
  - `_options` carries `stream`, `queuedMessages`, `payload` and `pcConfig` unchanged;
  - a new connection is closed (`open` is false);
  - `_handleQueuedMessages` forwards the buffer in order and empties it.
- The model does not say how messages reach the buffer after construction. That is done by the base class.
- The negotiator is not part of this model: peer-connection setup, SDP and ICE. Its `startConnection` calls and `addStream` notifications appear only as the ghost logs and as the method `OnAddStream`.
- `OnAddStream` can be called at any point after construction. Its asynchronous timing is not modelled, because nothing in the session runs concurrently.
- `util.log` and `util.warn` are not modelled. A warning is counted in `warnings`, and its text is not kept.
- The `enum` library is left out. The event set is the closed datatype `MediaEvent`.
- Sharing of the payload object is not modelled. The payload is held as a value, so a caller that kept a reference to it does not see `answer` set its `stream`.
- The initiator path never sets `open`. The model keeps the base class's initial `false`, as the code does.
