# Remote-communication socket: the channel session, verified

This project models the channel session of the MetaMask SDK's remote
communication layer (`packages/sdk/src/RemoteCommunication/Socket.ts`). A `Socket` sits between a relay
(socket.io) and an end-to-end key exchange. It binds a channel id, starts the
handshake, forwards handshake messages to the key exchange, encrypts every
application message it sends and decrypts every one it receives. It also
applies a reconnect policy when the peers reappear and handles pause and
resume.

The model has four modules:

- `JsValues` (js_values.dfy): the JavaScript semantics the code relies on.
  That is truthiness (`!this.channelId`, `if (error)`), optional chaining,
  strict equality and `message?.type.startsWith('key_handshake')`, which
  throws a TypeError on a non-nullish message whose `type` is not a string.
- `SessionSpec` (session_spec.dfy): the session as a pure transition system.
  `State` holds the socket's fields, `keyExchange.keysExchanged`, the log of
  `keyExchange.start` calls, the log of relay emissions (`socket.emit`, plus
  `connect`/`disconnect`) and the log of events raised to the owner
  (`this.emit`). There is one step function per handler and operation. A
  thrown `Error` is a `Failed` outcome, and whatever the handler changed
  before the throw stays changed.
- `SessionTraces` (session_traces.dfy): runs of inputs (calls, relay events,
  key-exchange progress) and the lemmas that hold for every run. These cover
  no non-handshake message leaving in plaintext through `sendMessage`,
  encryption after exchange, an unbound originator
  sending no `sendMessage` envelope, and rejected envelopes being inert. Scenario lemmas cover
  pairing, a premature chat, and pause/resume.
- `RemoteSocket` (socket.dfy): the classes `KeyExchange` (the part the
  socket sees) and `Socket`. The socket's fields are updated in place by
  imperative methods. Each method is proved to produce exactly the state and
  outcome of its `SessionSpec` step, and to keep the invariant `Valid()`
  (no `message` envelope built by `sendMessage` ever carried a
  non-handshake message in plaintext).

Serialisation (`JSON.stringify`/`JSON.parse`) and encryption/decryption
are uninterpreted functions (`Env`). The UUID of `createChannel` is a
parameter.

Behaviour of the code worth noting:

- The socket never raises a `clients_connected` event to its listeners.
- The `clients_connected` handler checks no id. It sets `channelId` to
  whatever id the relay sends, each time the event arrives.
- `resume` and `createChannel` run in any state of the session.
- On an inbound message, the relayed `error` is checked before the id.
- `pause`'s `pause` notice goes through `sendMessage`. If that throws
  (keys exchanged but no truthy channel id), `socket.disconnect()` is never
  reached.
- If the `sendMessage` inside the `clients_connected` reconnect branch
  throws, `reconnect` stays set.

## Model

| member | source | states |
|---|---|---|
| JsValues.TypeStartsWith | packages/sdk/src/RemoteCommunication/Socket.ts:162 | `v?.type.startsWith(p)` is falsy on a nullish value, throws exactly when a non-nullish value has no string `type`, and holds exactly when that type starts with `p` |
| JsValues.StartRequestIsTagged | packages/sdk/src/RemoteCommunication/Socket.ts:96 | a `key_handshake_start` message counts as a handshake message, so the responder may send it before keys exist |
| JsValues.SessionMessagesNotTagged | packages/sdk/src/RemoteCommunication/Socket.ts:89 | the session's own `ready` and `pause` messages are not handshake messages: the `key_handshake` prefix test fails on them |
| SessionSpec.SessionMessagesNeverVerbatim | packages/sdk/src/RemoteCommunication/Socket.ts:161-175 | whatever the session's state, `sendMessage` of `ready` or `pause` adds only encrypted envelopes to the relay log; without keys it refuses them and changes nothing |
| SessionSpec.Init | packages/sdk/src/RemoteCommunication/Socket.ts:8-28 | a new socket has a null channel id, is not an originator, is not manually disconnected, has not exchanged keys, has subscribed to nothing, has started nothing and emitted nothing |
| SessionSpec.SendMessage | packages/sdk/src/RemoteCommunication/Socket.ts:157-176 | without a truthy channel id it fails with "Create a channel first" and changes nothing; before the exchange it emits `{id: channelId, message}` verbatim exactly when the type starts with `key_handshake`, otherwise it fails with "Keys not exchanged", or with a TypeError when the type is not a string, and the log is unchanged; after the exchange it emits `encrypt(serialize(message))` under the current id; it changes nothing but the relay log and keeps it sealed |
| SessionSpec.CheckSameId | packages/sdk/src/RemoteCommunication/Socket.ts:147-151 | succeeds exactly when the id strictly equals the bound channel id, and fails otherwise with "Wrong id" |
| SessionSpec.OnMessage | packages/sdk/src/RemoteCommunication/Socket.ts:111-137 | a relayed error fails before the id is checked; a wrong id fails with "Wrong id"; a failure changes nothing; nothing is ever emitted; an originator with keys that gets `key_handshake_start` records one `start(true)` and does not decrypt; without keys, exactly handshake-tagged messages are forwarded as `key_exchange`, and any other message fails with "Keys not exchanged" (or a TypeError when its type is not a string); otherwise the message is delivered exactly when decryption and parsing succeed, and a decryption or parse failure is reported as such |
| SessionSpec.OnClientsConnected | packages/sdk/src/RemoteCommunication/Socket.ts:79-100 | binds `channelId` to the given id and sets `clientsConnected`; starts the handshake once exactly when an originator lacks keys; without `reconnect` it emits and raises nothing; with `reconnect` and keys it sends a sealed `ready` and raises `clients_ready` only on WebRTC; a responder without keys sends a plaintext `key_handshake_start`; an originator without keys sends nothing; the handler fails with "Create a channel first" exactly when `reconnect` is set, a send is due (keys exchanged, or a responder) and the relay's id is falsy, and then `reconnect` stays set and nothing is emitted or raised; otherwise `reconnect` is cleared |
| SessionSpec.RequestHandshake | packages/sdk/src/RemoteCommunication/Socket.ts:95-98 | the responder's reconnect request is a verbatim `key_handshake_start` envelope under the bound id, or "Create a channel first" with nothing changed |
| SessionSpec.OnClientsDisconnected | packages/sdk/src/RemoteCommunication/Socket.ts:106-109 | clears `clientsConnected` and raises `clients_disconnected`, leaving keys, `reconnect` and the channel id untouched |
| SessionSpec.OnChannelCreated | packages/sdk/src/RemoteCommunication/Socket.ts:102-104 | raises `channel_created` with the id and changes nothing else |
| SessionSpec.OnClientsWaitingToJoin | packages/sdk/src/RemoteCommunication/Socket.ts:139-144 | raises `clients_waiting_to_join` with the count and changes nothing else |
| SessionSpec.OnKeysExchanged | packages/sdk/src/RemoteCommunication/Socket.ts:71-75 | a completed key exchange raises `clients_ready` carrying the session's role |
| SessionSpec.ReceiveMessages | packages/sdk/src/RemoteCommunication/Socket.ts:78 | subscribing adds the channel to the subscriptions and nothing else |
| SessionSpec.ConnectToChannel | packages/sdk/src/RemoteCommunication/Socket.ts:178-182 | the responder binds the given id, subscribes to it and emits `join_channel(id)` |
| SessionSpec.CreateChannel | packages/sdk/src/RemoteCommunication/Socket.ts:184-190 | marks the session as originator, subscribes to the fresh id and emits `join_channel` with it, but leaves `channelId` as it was |
| SessionSpec.Send | packages/sdk/src/RemoteCommunication/Socket.ts:153-155 | the raw carrier appends one `(type, message)` emission and nothing else |
| SessionSpec.Pause | packages/sdk/src/RemoteCommunication/Socket.ts:192-198 | sets `manualDisconnect`; with keys it emits a sealed `pause` and then disconnects; without keys it only disconnects; with keys but no channel it throws before disconnecting |
| SessionSpec.ConnectAgain | packages/sdk/src/RemoteCommunication/Socket.ts:36-41 | sets `reconnect`, reconnects, and rejoins the current channel id |
| SessionSpec.Resume | packages/sdk/src/RemoteCommunication/Socket.ts:200-207 | clears `manualDisconnect`; with keys it acts as `connectAgain` (set `reconnect`, connect, `join_channel(channelId)`); without keys it changes nothing else |
| SessionTraces.ApplyKeeps | packages/sdk/src/RemoteCommunication/Socket.ts:157-176 | no single input shrinks the relay log or adds a `sendMessage` envelope with a non-handshake plaintext; with keys exchanged every new envelope is encrypted; an unbound session emits no envelope |
| SessionTraces.RunExtends | packages/sdk/src/RemoteCommunication/Socket.ts:79-207 | the relay log is append-only over any run |
| SessionTraces.RunStaysSealed | packages/sdk/src/RemoteCommunication/Socket.ts:161-175 | over any run, no `sendMessage` envelope carries a non-handshake message in plaintext |
| SessionTraces.NeverPlaintext | packages/sdk/src/RemoteCommunication/Socket.ts:161-175 | from construction on, every plaintext `sendMessage` envelope in the relay log is a handshake message |
| SessionTraces.ExchangedRunEncrypts | packages/sdk/src/RemoteCommunication/Socket.ts:168-175 | once keys are exchanged, until the key exchange discards them, every envelope emitted is cipher text |
| SessionTraces.UnboundRunSendsNothing | packages/sdk/src/RemoteCommunication/Socket.ts:157-160 | until `connectToChannel` or `clients_connected` binds an id, the channel id stays unbound and no envelope is emitted |
| SessionTraces.OriginatorWaitsForPeer | packages/sdk/src/RemoteCommunication/Socket.ts:184-190 | after `createChannel`, an originator emits no envelope until `clients_connected` arrives or `connectToChannel` is called |
| SessionTraces.RejectedEnvelopesIgnored | packages/sdk/src/RemoteCommunication/Socket.ts:111-116 | any number of envelopes with a relayed error or a wrong id leave the whole state unchanged |
| SessionTraces.ClientsConnectedIdempotent | packages/sdk/src/RemoteCommunication/Socket.ts:79-100 | a second `clients_connected` with keys exchanged and `reconnect` spent sends nothing, starts nothing and changes nothing |
| SessionTraces.DisconnectKeepsHandshake | packages/sdk/src/RemoteCommunication/Socket.ts:106-109 | with keys exchanged and `reconnect` unset, a peer disconnect followed by `clients_connected`, under the same or a new id, keeps the keys, starts no new handshake and sends nothing |
| SessionTraces.OriginatorPairing | packages/sdk/src/RemoteCommunication/Socket.ts:79-86 | create, `clients_connected`, keys derived: one `start(true)`, one `clients_ready` as originator, one `join_channel` |
| SessionTraces.ResponderPairing | packages/sdk/src/RemoteCommunication/Socket.ts:178-182 | connect, `clients_connected`, keys derived: no `start`, one `clients_ready` as responder |
| SessionTraces.ChatBeforeHandshakeRefused | packages/sdk/src/RemoteCommunication/Socket.ts:161-166 | a `chat` message before the exchange fails with "Keys not exchanged" and leaves the state unchanged |
| SessionTraces.PauseResumeReady | packages/sdk/src/RemoteCommunication/Socket.ts:192-207 | with keys, pause, resume and `clients_connected` emit a sealed `pause`, disconnect, connect, rejoin and a sealed `ready`, with no new handshake |
| SessionTraces.ResumeWithoutKeysStaysOff | packages/sdk/src/RemoteCommunication/Socket.ts:200-207 | without keys, pause then resume only disconnects and leaves `reconnect` as it was |
| RemoteSocket.KeyExchange.constructor | packages/sdk/src/RemoteCommunication/Socket.ts:65-69 | the key exchange starts with keys not exchanged and no `start` calls |
| RemoteSocket.KeyExchange.Start | packages/sdk/src/RemoteCommunication/Socket.ts:84 | `start(isOriginator)` is recorded once and does not touch `keysExchanged` |
| RemoteSocket.KeyExchange.SetKeysExchanged | packages/sdk/src/RemoteCommunication/Socket.ts:71 | the handshake's own progress sets `keysExchanged` and nothing else |
| RemoteSocket.Socket.constructor | packages/sdk/src/RemoteCommunication/Socket.ts:24-76 | a new socket is `Init(reconnect)`, owns a fresh key exchange, and is valid |
| RemoteSocket.Socket.SendMessage | packages/sdk/src/RemoteCommunication/Socket.ts:157-176 | updates the fields exactly as `SessionSpec.SendMessage` and keeps the relay log sealed |
| RemoteSocket.Socket.CheckSameId | packages/sdk/src/RemoteCommunication/Socket.ts:147-151 | succeeds exactly when the id equals `channelId`, otherwise fails with "Wrong id", and changes nothing |
| RemoteSocket.Socket.ReceiveMessages | packages/sdk/src/RemoteCommunication/Socket.ts:78 | subscribes to the channel as `SessionSpec.ReceiveMessages` and emits nothing |
| RemoteSocket.Socket.OnMessage | packages/sdk/src/RemoteCommunication/Socket.ts:111-137 | updates the socket and the key exchange exactly as `SessionSpec.OnMessage` |
| RemoteSocket.Socket.OnClientsConnected | packages/sdk/src/RemoteCommunication/Socket.ts:79-100 | updates the socket and the key exchange exactly as `SessionSpec.OnClientsConnected`, keeping the log sealed |
| RemoteSocket.Socket.OnClientsDisconnected | packages/sdk/src/RemoteCommunication/Socket.ts:106-109 | updates the socket exactly as `SessionSpec.OnClientsDisconnected` |
| RemoteSocket.Socket.OnChannelCreated | packages/sdk/src/RemoteCommunication/Socket.ts:102-104 | updates the socket exactly as `SessionSpec.OnChannelCreated` |
| RemoteSocket.Socket.OnClientsWaitingToJoin | packages/sdk/src/RemoteCommunication/Socket.ts:139-144 | updates the socket exactly as `SessionSpec.OnClientsWaitingToJoin` |
| RemoteSocket.Socket.OnKeysExchanged | packages/sdk/src/RemoteCommunication/Socket.ts:71-75 | raises `clients_ready` exactly as `SessionSpec.OnKeysExchanged` |
| RemoteSocket.Socket.Send | packages/sdk/src/RemoteCommunication/Socket.ts:153-155 | emits exactly as `SessionSpec.Send` and stays valid |
| RemoteSocket.Socket.ConnectToChannel | packages/sdk/src/RemoteCommunication/Socket.ts:178-182 | updates the socket exactly as `SessionSpec.ConnectToChannel` |
| RemoteSocket.Socket.CreateChannel | packages/sdk/src/RemoteCommunication/Socket.ts:184-190 | updates the socket as `SessionSpec.CreateChannel` and returns the fresh id with the key exchange's public key |
| RemoteSocket.Socket.Pause | packages/sdk/src/RemoteCommunication/Socket.ts:192-198 | updates the socket exactly as `SessionSpec.Pause` |
| RemoteSocket.Socket.Resume | packages/sdk/src/RemoteCommunication/Socket.ts:200-207 | updates the socket exactly as `SessionSpec.Resume` |
| RemoteSocket.Socket.ConnectAgain | packages/sdk/src/RemoteCommunication/Socket.ts:36-41 | updates the socket exactly as `SessionSpec.ConnectAgain` |

## Left out

- Connection setup: the relay URL and the `transports` option are not modelled. `socket.connect()` and `socket.disconnect()` are only `Connect`/`Disconnect` entries in the relay log.
- Focus handling: `checkFocus`, `document.hasFocus`, the window focus listeners and the `_WEB` guards on the `error`/`disconnect` handlers are host UI glue. Only `connectAgain`'s effect is modelled (set `reconnect`, connect, rejoin), as the `FocusRegained` input. The disconnect that `checkFocus` issues first is not modelled.
- KeyExchange internals: its source file is not part of this model. Key generation, ECIES encryption and the `otherPublicKey`/`sendPublicKey` options are left out.
- KeyExchange.Start: the key exchange's own handshake traffic is not in the relay log. `start` is recorded only as a call. Its own emissions through `send` or `sendMessage`, and any reset of `keysExchanged`, are not modelled.
- KeyExchange.SetKeysExchanged: changes to `keysExchanged` come from outside the session, as the `KeysDerived` and `KeysDiscarded` inputs.
- Encryption round trip: no round trip of encrypt and decrypt is claimed. Both are uninterpreted functions.
- JSON: `JSON.stringify` is an abstract total function. `JSON.parse` is an abstract partial function whose failure is `ParseFailed`.
- UUID: `uuidv4()` is the `freshId` parameter of `createChannel`.
- EventEmitter2: handlers are modelled as direct methods, and each relay event is delivered once. A handler registered twice, for example by calling `connectToChannel` twice, would fire twice in the code. Subscriptions are recorded but do not filter events by the channel suffix of their name.
- `send`: the raw carrier `send(type, message)` emits whatever it is given, under any event name, including `message`. The envelope guarantees (`Sealed`, `Valid()`, `RunStaysSealed`, `NeverPlaintext`, `ExchangedRunEncrypts`, `UnboundRunSendsNothing` and `OriginatorWaitsForPeer`) cover only the envelopes built by `sendMessage`, not `Raw` emissions of `send`: a `send("message", …)` from a fresh socket reaches the relay while unbound.
- `clientsReady`: the field is declared but never written in this file, so it is not modelled.
- JavaScript values: numbers are integers, and objects are compared structurally, while strict equality compares objects by reference. Ids are strings in practice. An inbound payload is always an object; a null payload, which would throw when destructured, is not modelled.
- `isOriginator`: the field starts `undefined` and is modelled as `false`. A `clients_ready` raised before `createChannel` carries `false` where the code carries `undefined`.
