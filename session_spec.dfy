/** The channel session of the remote-communication socket as a pure
    transition system. `State` holds the socket's own fields, the one piece of
    key-exchange state it reads (`keysExchanged`) plus the log of
    `keyExchange.start` calls, the log of everything the socket emits to the
    relay, and the log of events raised to the owning process. Each relay event
    and each public operation is one function from a state to a `Step`; a thrown
    `Error` is a `Failed` outcome, and whatever the handler changed before the
    throw stays changed. */
module SessionSpec {
  import opened JsValues

  datatype CommLayer = SocketIo | WebRtc

  /** The `message` field of an outbound `message` envelope. */
  datatype Body = Verbatim(message: Js) | Encrypted(cipher: string)

  /** What the socket emits to the relay, in order. */
  datatype Emission =
    | JoinChannel(channel: Js)
    | MessageOut(id: Js, body: Body)
    | Raw(event: string, payload: Js)
    | Connect
    | Disconnect

  /** What the socket raises to its own listeners, in order. */
  datatype Event =
    | ChannelCreated(id: Js)
    | ClientsDisconnected
    | ClientsWaitingToJoin(count: Js)
    | ClientsReady(isOriginator: bool)
    | MessageDelivered(message: Js)
    | KeyExchangeMessage(message: Js)

  datatype Error =
    | RelayReported(error: Js)   // the relay set the envelope's `error` field
    | WrongId                    // "Wrong id"
    | KeysNotExchanged           // "Keys not exchanged"
    | NoChannel                  // "Create a channel first"
    | TypeError                  // `type.startsWith` on a message without a string type
    | DecryptFailed              // the key exchange could not decrypt
    | ParseFailed                // JSON.parse of the decrypted text threw

  datatype Outcome = Done | Failed(error: Error)

  /** The payload `{ id, message, error }` of an inbound `message-{id}` event. */
  datatype Envelope = Envelope(id: Js, message: Js, error: Js)

  /** The collaborators the session cannot see into: the communication-layer
      preference, JSON serialisation and the key exchange's symmetric
      encryption, each an uninterpreted function. */
  datatype Env = Env(
    commLayer: CommLayer,
    serialize: Js -> string,
    encrypt: string -> string,
    decrypt: Js -> Option<string>,
    parse: string -> Option<Js>)

  datatype State = State(
    channelId: Js,
    isOriginator: bool,
    clientsConnected: bool,
    reconnect: bool,
    manualDisconnect: bool,
    subscribed: seq<Js>,     // channel ids `receiveMessages` has subscribed to
    keysExchanged: bool,     // keyExchange.keysExchanged
    starts: seq<bool>,       // arguments of every keyExchange.start call
    transport: seq<Emission>,
    raised: seq<Event>)

  datatype Step = Step(next: State, outcome: Outcome)

  /** The cipher text `sendMessage` emits for `message` once keys are exchanged. */
  function Seal(env: Env, message: Js): string {
    env.encrypt(env.serialize(message))
  }

  /** `sendMessage` refuses to run unless the channel id is truthy. */
  predicate Bound(s: State) {
    Truthy(s.channelId)
  }

  /** A `message` envelope built by `sendMessage` carries plaintext only for
      handshake messages. Raw emissions of the `send` carrier are not
      envelopes of this kind and are not constrained. */
  predicate PlaintextSafe(e: Emission) {
    e.MessageOut? && e.body.Verbatim? ==> HandshakeTagged(e.body.message)
  }

  /** No `sendMessage` envelope in the log carries a non-handshake message
      in plaintext. */
  predicate Sealed(log: seq<Emission>) {
    forall i | 0 <= i < |log| :: PlaintextSafe(log[i])
  }

  /** Every envelope emitted from position k on is encrypted. */
  predicate EncryptedFrom(log: seq<Emission>, k: nat) {
    forall i | k <= i < |log| :: log[i].MessageOut? ==> log[i].body.Encrypted?
  }

  /** No envelope at all was emitted from position k on. */
  predicate NoEnvelopeFrom(log: seq<Emission>, k: nat) {
    forall i | k <= i < |log| :: !log[i].MessageOut?
  }

  /** An inbound envelope the session rejects before looking at its message. */
  predicate Rejected(s: State, e: Envelope) {
    Truthy(e.error) || e.id != s.channelId
  }

  /** An originator that already holds keys and is asked to start over. */
  predicate RestartRequest(s: State, e: Envelope) {
    s.isOriginator && s.keysExchanged && TypeIs(e.message, KeyHandshakeStart)
  }

  /** A freshly constructed socket: `channelId` is null, the originator flag
      unset, the key exchange has not started and nothing has been emitted. */
  function Init(reconnect: bool): (s: State)
    ensures s.channelId == Null && !Bound(s) && !s.keysExchanged && !s.clientsConnected && !s.isOriginator
    ensures !s.manualDisconnect && s.subscribed == []
    ensures s.reconnect == reconnect && s.starts == [] && s.transport == [] && s.raised == []
    ensures Sealed(s.transport)
  {
    State(Null, false, false, reconnect, false, [], false, [], [], [])
  }

  /** `sendMessage(message)`. */
  function SendMessage(env: Env, s: State, message: Js): (r: Step)
    ensures r.outcome.Failed? ==> r.next == s
    ensures r.next == s.(transport := r.next.transport)
    ensures !Bound(s) ==> r.outcome == Failed(NoChannel)
    ensures Bound(s) && !s.keysExchanged ==>
      (r.outcome.Done? <==> HandshakeTagged(message)) &&
      (r.outcome == Failed(TypeError) <==> TypeStartsWith(message, KeyHandshake) == Throws) &&
      (TypeStartsWith(message, KeyHandshake) == Fails ==> r.outcome == Failed(KeysNotExchanged)) &&
      (r.outcome.Done? ==> r.next.transport == s.transport + [MessageOut(s.channelId, Verbatim(message))])
    ensures Bound(s) && s.keysExchanged ==>
      r == Step(s.(transport := s.transport + [MessageOut(s.channelId, Encrypted(Seal(env, message)))]), Done)
    ensures r.outcome.Done? ==> |r.next.transport| == |s.transport| + 1 && r.next.transport[|s.transport|].MessageOut?
    ensures Sealed(s.transport) ==> Sealed(r.next.transport)
  {
    if !Truthy(s.channelId) then Step(s, Failed(NoChannel))
    else if !s.keysExchanged then
      match TypeStartsWith(message, KeyHandshake)
      case Holds => Step(s.(transport := s.transport + [MessageOut(s.channelId, Verbatim(message))]), Done)
      case Fails => Step(s, Failed(KeysNotExchanged))
      case Throws => Step(s, Failed(TypeError))
    else
      Step(s.(transport := s.transport + [MessageOut(s.channelId, Encrypted(Seal(env, message)))]), Done)
  }

  /** The session's own `ready` and `pause` messages never go out as a
      verbatim envelope: before the exchange `sendMessage` refuses them, and
      after it they are encrypted. */
  lemma SessionMessagesNeverVerbatim(env: Env, s: State, kind: string)
    requires kind == "ready" || kind == "pause"
    ensures var log := SendMessage(env, s, Typed(kind)).next.transport;
      forall i | |s.transport| <= i < |log| :: log[i].MessageOut? && log[i].body.Encrypted?
    ensures !s.keysExchanged ==> SendMessage(env, s, Typed(kind)).next == s
  {
    SessionMessagesNotTagged();
  }

  /** `checkSameId(id)`: strict equality with the bound channel id. */
  function CheckSameId(s: State, id: Js): (r: Outcome)
    ensures r.Done? <==> id == s.channelId
    ensures r.Failed? ==> r.error == WrongId
  {
    if id != s.channelId then Failed(WrongId) else Done
  }

  /** The `message-{id}` handler. Nothing is emitted and, on failure, nothing
      changes; on success exactly one of three things happens. */
  function OnMessage(env: Env, s: State, e: Envelope): (r: Step)
    ensures Truthy(e.error) ==> r == Step(s, Failed(RelayReported(e.error)))
    ensures !Truthy(e.error) && e.id != s.channelId ==> r == Step(s, Failed(WrongId))
    ensures r.outcome.Failed? ==> r.next == s
    ensures r.next == s.(starts := r.next.starts, raised := r.next.raised)
    ensures !Rejected(s, e) && RestartRequest(s, e) ==>
      r == Step(s.(starts := s.starts + [true]), Done)
    ensures !Rejected(s, e) && !s.keysExchanged ==>
      (r.outcome.Done? <==> HandshakeTagged(e.message)) &&
      (r.outcome == Failed(TypeError) <==> TypeStartsWith(e.message, KeyHandshake) == Throws) &&
      (TypeStartsWith(e.message, KeyHandshake) == Fails ==> r.outcome == Failed(KeysNotExchanged)) &&
      (r.outcome.Done? ==> r.next == s.(raised := s.raised + [KeyExchangeMessage(e.message)]))
    ensures !Rejected(s, e) && s.keysExchanged && !RestartRequest(s, e) ==>
      r.next.starts == s.starts &&
      (r.outcome.Done? <==> env.decrypt(e.message).Some? && env.parse(env.decrypt(e.message).value).Some?) &&
      (env.decrypt(e.message).None? ==> r.outcome == Failed(DecryptFailed)) &&
      (env.decrypt(e.message).Some? && env.parse(env.decrypt(e.message).value).None? ==>
        r.outcome == Failed(ParseFailed)) &&
      (r.outcome.Done? ==>
        r.next.raised == s.raised + [MessageDelivered(env.parse(env.decrypt(e.message).value).value)])
  {
    if Truthy(e.error) then Step(s, Failed(RelayReported(e.error)))
    else if CheckSameId(s, e.id).Failed? then Step(s, CheckSameId(s, e.id))
    else if s.isOriginator && s.keysExchanged && TypeIs(e.message, KeyHandshakeStart) then
      Step(s.(starts := s.starts + [s.isOriginator]), Done)
    else if !s.keysExchanged then
      match TypeStartsWith(e.message, KeyHandshake)
      case Holds => Step(s.(raised := s.raised + [KeyExchangeMessage(e.message)]), Done)
      case Fails => Step(s, Failed(KeysNotExchanged))
      case Throws => Step(s, Failed(TypeError))
    else
      match env.decrypt(e.message)
      case None => Step(s, Failed(DecryptFailed))
      case Some(plain) =>
        match env.parse(plain)
        case None => Step(s, Failed(ParseFailed))
        case Some(m) => Step(s.(raised := s.raised + [MessageDelivered(m)]), Done)
  }

  /** The `clients_connected-{id}` handler: bind the channel, start the
      handshake if this originator has no keys, and apply the reconnect
      policy. A `sendMessage` that throws aborts the handler, leaving
      `reconnect` set. */
  function OnClientsConnected(env: Env, s: State, id: Js): (r: Step)
    ensures r.next.channelId == id && r.next.clientsConnected
    ensures r.next.isOriginator == s.isOriginator && r.next.keysExchanged == s.keysExchanged
    ensures r.next.manualDisconnect == s.manualDisconnect && r.next.subscribed == s.subscribed
    ensures r.next.starts == s.starts + (if s.isOriginator && !s.keysExchanged then [true] else [])
    ensures r.outcome.Done? ==> !r.next.reconnect
    ensures r.outcome.Failed? <==> s.reconnect && (s.keysExchanged || !s.isOriginator) && !Truthy(id)
    ensures r.outcome.Failed? ==>
      r.outcome.error == NoChannel && r.next.reconnect &&
      r.next.transport == s.transport && r.next.raised == s.raised
    ensures !s.reconnect ==>
      r.outcome == Done && r.next.transport == s.transport && r.next.raised == s.raised
    ensures s.reconnect && s.keysExchanged && Truthy(id) ==>
      r.outcome == Done &&
      r.next.transport == s.transport + [MessageOut(id, Encrypted(Seal(env, Typed("ready"))))] &&
      r.next.raised == s.raised + (if env.commLayer == WebRtc then [ClientsReady(s.isOriginator)] else [])
    ensures s.reconnect && !s.keysExchanged && !s.isOriginator && Truthy(id) ==>
      r.outcome == Done && r.next.raised == s.raised &&
      r.next.transport == s.transport + [MessageOut(id, Verbatim(Typed(KeyHandshakeStart)))]
    ensures s.reconnect && !s.keysExchanged && s.isOriginator ==>
      r.outcome == Done && r.next.transport == s.transport && r.next.raised == s.raised
    ensures Sealed(s.transport) ==> Sealed(r.next.transport)
  {
    var bound := s.(channelId := id, clientsConnected := true);
    var started :=
      if bound.isOriginator && !bound.keysExchanged then bound.(starts := bound.starts + [bound.isOriginator])
      else bound;
    if !started.reconnect then Step(started, Done)
    else if started.keysExchanged then
      var sent := SendMessage(env, started, Typed("ready"));
      if sent.outcome.Failed? then sent
      else
        var ready :=
          if env.commLayer == WebRtc then sent.next.(raised := sent.next.raised + [ClientsReady(started.isOriginator)])
          else sent.next;
        Step(ready.(reconnect := false), Done)
    else if !started.isOriginator then
      RequestHandshake(env, started)
    else Step(started.(reconnect := false), Done)
  }

  /** The responder's half of the reconnect policy: ask the originator for a
      fresh handshake, in plaintext. */
  function RequestHandshake(env: Env, s: State): (r: Step)
    requires !s.keysExchanged
    ensures Truthy(s.channelId) ==>
      r == Step(s.(reconnect := false, transport := s.transport + [MessageOut(s.channelId, Verbatim(Typed(KeyHandshakeStart)))]), Done)
    ensures !Truthy(s.channelId) ==> r == Step(s, Failed(NoChannel))
  {
    StartRequestIsTagged(Typed(KeyHandshakeStart));
    var sent := SendMessage(env, s, Typed(KeyHandshakeStart));
    if sent.outcome.Failed? then sent else Step(sent.next.(reconnect := false), Done)
  }

  /** The `clients_disconnected-{id}` handler: only presence changes. */
  function OnClientsDisconnected(s: State): (r: State)
    ensures !r.clientsConnected
    ensures r.keysExchanged == s.keysExchanged && r.reconnect == s.reconnect && r.channelId == s.channelId
    ensures r == s.(clientsConnected := false, raised := s.raised + [ClientsDisconnected])
  {
    s.(clientsConnected := false, raised := s.raised + [ClientsDisconnected])
  }

  /** The `channel_created-{id}` handler. */
  function OnChannelCreated(s: State, id: Js): (r: State)
    ensures r == s.(raised := s.raised + [ChannelCreated(id)])
  {
    s.(raised := s.raised + [ChannelCreated(id)])
  }

  /** The `clients_waiting_to_join-{id}` handler. */
  function OnClientsWaitingToJoin(s: State, count: Js): (r: State)
    ensures r == s.(raised := s.raised + [ClientsWaitingToJoin(count)])
  {
    s.(raised := s.raised + [ClientsWaitingToJoin(count)])
  }

  /** The listener on the key exchange's `keys_exchanged` event. */
  function OnKeysExchanged(s: State): (r: State)
    ensures r == s.(raised := s.raised + [ClientsReady(s.isOriginator)])
  {
    s.(raised := s.raised + [ClientsReady(s.isOriginator)])
  }

  /** `receiveMessages(channel)`: the handlers above now listen on `channel`. */
  function ReceiveMessages(s: State, channel: Js): (r: State)
    ensures r == s.(subscribed := s.subscribed + [channel])
  {
    s.(subscribed := s.subscribed + [channel])
  }

  /** `connectToChannel(id)`: the responder binds the id it was given. */
  function ConnectToChannel(s: State, id: Js): (r: State)
    ensures r.channelId == id && r.isOriginator == s.isOriginator
    ensures r == s.(channelId := id, subscribed := s.subscribed + [id], transport := s.transport + [JoinChannel(id)])
  {
    var listening := ReceiveMessages(s.(channelId := id), id);
    listening.(transport := listening.transport + [JoinChannel(id)])
  }

  /** `createChannel()` with `freshId` the UUID it generates: the originator
      joins the new channel but leaves `channelId` unbound until the relay's
      `clients_connected` arrives. */
  function CreateChannel(s: State, freshId: string): (r: State)
    ensures r.isOriginator && r.channelId == s.channelId
    ensures r == s.(isOriginator := true, subscribed := s.subscribed + [Str(freshId)],
                    transport := s.transport + [JoinChannel(Str(freshId))])
  {
    var listening := ReceiveMessages(s.(isOriginator := true), Str(freshId));
    listening.(transport := listening.transport + [JoinChannel(Str(freshId))])
  }

  /** `send(type, message)`: the raw carrier the key exchange talks through. */
  function Send(s: State, event: string, payload: Js): (r: State)
    ensures r == s.(transport := s.transport + [Raw(event, payload)])
  {
    s.(transport := s.transport + [Raw(event, payload)])
  }

  /** `pause()`: a `pause` notice goes out only over an encrypted channel,
      then the transport disconnects; if the notice throws, the disconnect
      never happens. */
  function Pause(env: Env, s: State): (r: Step)
    ensures r.next.manualDisconnect
    ensures r.next == s.(manualDisconnect := true, transport := r.next.transport)
    ensures !s.keysExchanged ==>
      r == Step(s.(manualDisconnect := true, transport := s.transport + [Disconnect]), Done)
    ensures s.keysExchanged && Bound(s) ==>
      r == Step(s.(manualDisconnect := true,
                   transport := s.transport + [MessageOut(s.channelId, Encrypted(Seal(env, Typed("pause")))), Disconnect]),
                Done)
    ensures s.keysExchanged && !Bound(s) ==> r == Step(s.(manualDisconnect := true), Failed(NoChannel))
    ensures Sealed(s.transport) ==> Sealed(r.next.transport)
  {
    var flagged := s.(manualDisconnect := true);
    if flagged.keysExchanged then
      var sent := SendMessage(env, flagged, Typed("pause"));
      if sent.outcome.Failed? then sent
      else Step(sent.next.(transport := sent.next.transport + [Disconnect]), Done)
    else Step(flagged.(transport := flagged.transport + [Disconnect]), Done)
  }

  /** `connectAgain`: the effect of regaining focus after a transport error. */
  function ConnectAgain(s: State): (r: State)
    ensures r.reconnect
    ensures r == s.(reconnect := true, transport := s.transport + [Connect, JoinChannel(s.channelId)])
  {
    s.(reconnect := true, transport := s.transport + [Connect, JoinChannel(s.channelId)])
  }

  /** `resume()`: rejoin only a channel whose keys are already exchanged. */
  function Resume(s: State): (r: State)
    ensures !r.manualDisconnect
    ensures s.keysExchanged ==> r == ConnectAgain(s).(manualDisconnect := false)
    ensures !s.keysExchanged ==> r == s.(manualDisconnect := false)
  {
    var cleared := s.(manualDisconnect := false);
    if cleared.keysExchanged then
      cleared.(reconnect := true, transport := cleared.transport + [Connect, JoinChannel(cleared.channelId)])
    else cleared
  }
}
