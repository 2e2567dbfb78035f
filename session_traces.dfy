/** Runs of the session: the socket is driven by one input at a time, each a
    public call, a relay event, or progress inside the key exchange. The
    lemmas here state what holds of every run. */
module SessionTraces {
  import opened JsValues
  import opened SessionSpec

  datatype Input =
    | CallCreateChannel(freshId: string)
    | CallConnectToChannel(id: Js)
    | CallSendMessage(message: Js)
    | CallSend(event: string, payload: Js)
    | CallPause
    | CallResume
    | FocusRegained                        // connectAgain after a transport error
    | RelayClientsConnected(id: Js)
    | RelayClientsDisconnected
    | RelayChannelCreated(id: Js)
    | RelayClientsWaitingToJoin(count: Js)
    | RelayMessage(envelope: Envelope)
    | KeysDerived                          // the key exchange derives a secret and raises keys_exchanged
    | KeysDiscarded                        // the key exchange begins a new episode

  /** One input applied to the session. */
  function Apply(env: Env, s: State, input: Input): (r: Step)
    ensures input.RelayMessage? && Rejected(s, input.envelope) ==> r.next == s
  {
    match input
    case CallCreateChannel(freshId) => Step(CreateChannel(s, freshId), Done)
    case CallConnectToChannel(id) => Step(ConnectToChannel(s, id), Done)
    case CallSendMessage(message) => SendMessage(env, s, message)
    case CallSend(event, payload) => Step(Send(s, event, payload), Done)
    case CallPause => Pause(env, s)
    case CallResume => Step(Resume(s), Done)
    case FocusRegained => Step(ConnectAgain(s), Done)
    case RelayClientsConnected(id) => OnClientsConnected(env, s, id)
    case RelayClientsDisconnected => Step(OnClientsDisconnected(s), Done)
    case RelayChannelCreated(id) => Step(OnChannelCreated(s, id), Done)
    case RelayClientsWaitingToJoin(count) => Step(OnClientsWaitingToJoin(s, count), Done)
    case RelayMessage(envelope) => OnMessage(env, s, envelope)
    case KeysDerived => Step(OnKeysExchanged(s.(keysExchanged := true)), Done)
    case KeysDiscarded => Step(s.(keysExchanged := false), Done)
  }

  /** Appending emissions none of which is an envelope. */
  lemma AppendNoEnvelope(log: seq<Emission>, added: seq<Emission>)
    requires forall j | 0 <= j < |added| :: !added[j].MessageOut?
    ensures NoEnvelopeFrom(log + added, |log|) && EncryptedFrom(log + added, |log|)
    ensures Sealed(log) ==> Sealed(log + added)
  {
  }

  /** Appending one encrypted envelope. */
  lemma AppendEncrypted(log: seq<Emission>, id: Js, cipher: string)
    ensures EncryptedFrom(log + [MessageOut(id, Encrypted(cipher))], |log|)
  {
  }

  /** What every single input preserves: the relay log grows, no
      `sendMessage` envelope carries a non-handshake message in plaintext, exchanged keys keep every new envelope
      encrypted, and an unbound session emits no envelope. */
  lemma {:induction false} ApplyKeeps(env: Env, s: State, input: Input)
    ensures s.transport <= Apply(env, s, input).next.transport
    ensures Sealed(s.transport) ==> Sealed(Apply(env, s, input).next.transport)
    ensures s.keysExchanged && !input.KeysDiscarded? ==>
      Apply(env, s, input).next.keysExchanged && EncryptedFrom(Apply(env, s, input).next.transport, |s.transport|)
    ensures !Bound(s) && !input.CallConnectToChannel? && !input.RelayClientsConnected? ==>
      Apply(env, s, input).next.channelId == s.channelId &&
      NoEnvelopeFrom(Apply(env, s, input).next.transport, |s.transport|)
  {
    var t := Apply(env, s, input).next;
    match input
    case CallCreateChannel(freshId) =>
      AppendNoEnvelope(s.transport, [JoinChannel(Str(freshId))]);
    case CallConnectToChannel(id) =>
      AppendNoEnvelope(s.transport, [JoinChannel(id)]);
    case CallSendMessage(message) =>
      if t.transport != s.transport {
        AppendEncrypted(s.transport, s.channelId, Seal(env, message));
      } else {
        AppendNoEnvelope(s.transport, []);
      }
    case CallSend(event, payload) =>
      AppendNoEnvelope(s.transport, [Raw(event, payload)]);
    case CallPause =>
      if s.keysExchanged && Bound(s) {
        var notice := MessageOut(s.channelId, Encrypted(Seal(env, Typed("pause"))));
        assert t.transport == s.transport + [notice, Disconnect];
        assert t.transport == (s.transport + [notice]) + [Disconnect];
        AppendNoEnvelope(s.transport + [notice], [Disconnect]);
        AppendEncrypted(s.transport, s.channelId, Seal(env, Typed("pause")));
      } else if s.keysExchanged {
        AppendNoEnvelope(s.transport, []);
      } else {
        AppendNoEnvelope(s.transport, [Disconnect]);
      }
    case CallResume =>
      if s.keysExchanged {
        AppendNoEnvelope(s.transport, [Connect, JoinChannel(s.channelId)]);
      } else {
        AppendNoEnvelope(s.transport, []);
      }
    case FocusRegained =>
      AppendNoEnvelope(s.transport, [Connect, JoinChannel(s.channelId)]);
    case RelayClientsConnected(id) =>
      if t.transport != s.transport && s.keysExchanged {
        AppendEncrypted(s.transport, id, Seal(env, Typed("ready")));
      } else {
        AppendNoEnvelope(s.transport, []);
      }
    case RelayClientsDisconnected =>
      AppendNoEnvelope(s.transport, []);
    case RelayChannelCreated(id) =>
      AppendNoEnvelope(s.transport, []);
    case RelayClientsWaitingToJoin(count) =>
      AppendNoEnvelope(s.transport, []);
    case RelayMessage(envelope) =>
      AppendNoEnvelope(s.transport, []);
    case KeysDerived =>
      AppendNoEnvelope(s.transport, []);
    case KeysDiscarded =>
      AppendNoEnvelope(s.transport, []);
  }

  /** The state after a sequence of inputs; a failed input leaves whatever it
      changed before it threw, and the run goes on. */
  function Run(env: Env, s: State, inputs: seq<Input>): State
    decreases |inputs|
  {
    if inputs == [] then s else Run(env, Apply(env, s, inputs[0]).next, inputs[1..])
  }

  /** The relay log only ever grows. */
  lemma {:induction false} RunExtends(env: Env, s: State, inputs: seq<Input>)
    ensures s.transport <= Run(env, s, inputs).transport
    decreases |inputs|
  {
    if inputs != [] {
      ApplyKeeps(env, s, inputs[0]);
      RunExtends(env, Apply(env, s, inputs[0]).next, inputs[1..]);
    }
  }

  /** No run ever puts a non-handshake message on the relay in plaintext
      through `sendMessage`. */
  lemma {:induction false} RunStaysSealed(env: Env, s: State, inputs: seq<Input>)
    requires Sealed(s.transport)
    ensures Sealed(Run(env, s, inputs).transport)
    decreases |inputs|
  {
    if inputs != [] {
      ApplyKeeps(env, s, inputs[0]);
      RunStaysSealed(env, Apply(env, s, inputs[0]).next, inputs[1..]);
    }
  }

  /** The `sendMessage` plaintext guarantee for every run of a freshly
      constructed socket. */
  lemma NeverPlaintext(env: Env, reconnect: bool, inputs: seq<Input>)
    ensures Sealed(Run(env, Init(reconnect), inputs).transport)
  {
    RunStaysSealed(env, Init(reconnect), inputs);
  }

  /** Once keys are exchanged, and until the key exchange discards them,
      every envelope the session emits is cipher text. */
  lemma {:induction false} ExchangedRunEncrypts(env: Env, s: State, inputs: seq<Input>)
    requires s.keysExchanged
    requires forall i | 0 <= i < |inputs| :: !inputs[i].KeysDiscarded?
    ensures Run(env, s, inputs).keysExchanged
    ensures EncryptedFrom(Run(env, s, inputs).transport, |s.transport|)
    decreases |inputs|
  {
    if inputs != [] {
      ApplyKeeps(env, s, inputs[0]);
      var t := Apply(env, s, inputs[0]).next;
      ExchangedRunEncrypts(env, t, inputs[1..]);
      RunExtends(env, t, inputs[1..]);
      var log := Run(env, s, inputs).transport;
      forall i | |s.transport| <= i < |log| && log[i].MessageOut?
        ensures log[i].body.Encrypted?
      {
        if i < |t.transport| {
          assert log[i] == t.transport[i];
        }
      }
    }
  }

  /** Until something binds a channel id (`connectToChannel` or the relay's
      `clients_connected`), the session emits no envelope at all. */
  lemma {:induction false} UnboundRunSendsNothing(env: Env, s: State, inputs: seq<Input>)
    requires !Bound(s)
    requires forall i | 0 <= i < |inputs| :: !inputs[i].CallConnectToChannel? && !inputs[i].RelayClientsConnected?
    ensures Run(env, s, inputs).channelId == s.channelId
    ensures NoEnvelopeFrom(Run(env, s, inputs).transport, |s.transport|)
    decreases |inputs|
  {
    if inputs != [] {
      ApplyKeeps(env, s, inputs[0]);
      var t := Apply(env, s, inputs[0]).next;
      UnboundRunSendsNothing(env, t, inputs[1..]);
      RunExtends(env, t, inputs[1..]);
      var log := Run(env, s, inputs).transport;
      forall i | |s.transport| <= i < |log|
        ensures !log[i].MessageOut?
      {
        if i < |t.transport| {
          assert log[i] == t.transport[i];
        }
      }
    }
  }

  /** An originator that has created its channel cannot send anything until
      the relay reports `clients_connected`, however often it tries. */
  lemma OriginatorWaitsForPeer(env: Env, reconnect: bool, freshId: string, inputs: seq<Input>)
    requires forall i | 0 <= i < |inputs| :: !inputs[i].CallConnectToChannel? && !inputs[i].RelayClientsConnected?
    ensures Run(env, Init(reconnect), [CallCreateChannel(freshId)] + inputs).channelId == Null
    ensures NoEnvelopeFrom(Run(env, Init(reconnect), [CallCreateChannel(freshId)] + inputs).transport, 0)
  {
    var created := CreateChannel(Init(reconnect), freshId);
    var all := [CallCreateChannel(freshId)] + inputs;
    assert all[1..] == inputs;
    assert Run(env, Init(reconnect), all) == Run(env, created, inputs);
    UnboundRunSendsNothing(env, created, inputs);
    RunExtends(env, created, inputs);
    assert Run(env, created, inputs).transport[0] == JoinChannel(Str(freshId));
  }

  /** Envelopes the session rejects (a relayed error, or an id other than the
      bound one) change nothing, however many of them arrive. */
  lemma {:induction false} RejectedEnvelopesIgnored(env: Env, s: State, inputs: seq<Input>)
    requires forall i | 0 <= i < |inputs| :: inputs[i].RelayMessage? && Rejected(s, inputs[i].envelope)
    ensures Run(env, s, inputs) == s
    decreases |inputs|
  {
    if inputs != [] {
      RejectedEnvelopesIgnored(env, s, inputs[1..]);
    }
  }

  /** A second `clients_connected` on a session whose keys are exchanged and
      whose reconnect intent is spent sends nothing and starts nothing. */
  lemma ClientsConnectedIdempotent(env: Env, s: State, id: Js)
    requires s.keysExchanged
    requires OnClientsConnected(env, s, id).outcome.Done?
    ensures OnClientsConnected(env, OnClientsConnected(env, s, id).next, id)
         == Step(OnClientsConnected(env, s, id).next, Done)
  {
  }

  /** A disconnect followed by a reconnect of the peers keeps the exchanged
      keys: the session resumes without a new handshake. */
  lemma DisconnectKeepsHandshake(env: Env, s: State, id: Js)
    requires s.keysExchanged && !s.reconnect
    ensures OnClientsConnected(env, OnClientsDisconnected(s), id).next.starts == s.starts
    ensures OnClientsConnected(env, OnClientsDisconnected(s), id).next.keysExchanged
    ensures OnClientsConnected(env, OnClientsDisconnected(s), id).next.transport == s.transport
  {
  }

  /** An originator creates a channel, the peer joins, and the handshake
      completes: `start(true)` runs exactly once and `clients_ready` is raised
      exactly once, as the originator. */
  lemma OriginatorPairing(env: Env, id: string)
    requires id != ""
    ensures var s := Run(env, Init(false), [CallCreateChannel(id), RelayClientsConnected(Str(id)), KeysDerived]);
      s.channelId == Str(id) && s.clientsConnected && s.keysExchanged &&
      s.starts == [true] && s.raised == [ClientsReady(true)] && s.transport == [JoinChannel(Str(id))]
  {
    var s1 := CreateChannel(Init(false), id);
    var s2 := OnClientsConnected(env, s1, Str(id)).next;
    assert s2.channelId == Str(id) && s2.clientsConnected && s2.starts == [true];
    assert Run(env, s2, []) == s2;
    var inputs := [CallCreateChannel(id), RelayClientsConnected(Str(id)), KeysDerived];
    assert Run(env, Init(false), inputs) == Run(env, s1, inputs[1..]);
    assert Run(env, s1, inputs[1..]) == Run(env, s2, inputs[2..]);
    assert inputs[2..] == [KeysDerived] && [KeysDerived][1..] == [];
    assert Run(env, s2, inputs[2..]) == OnKeysExchanged(s2.(keysExchanged := true));
  }

  /** The responder joins the channel it was given and, on the same
      sequence of events, starts nothing and is ready as the responder. */
  lemma ResponderPairing(env: Env, id: string)
    requires id != ""
    ensures var s := Run(env, Init(false), [CallConnectToChannel(Str(id)), RelayClientsConnected(Str(id)), KeysDerived]);
      s.channelId == Str(id) && s.clientsConnected && s.keysExchanged &&
      s.starts == [] && s.raised == [ClientsReady(false)] && s.transport == [JoinChannel(Str(id))]
  {
    var s1 := ConnectToChannel(Init(false), Str(id));
    var s2 := OnClientsConnected(env, s1, Str(id)).next;
    assert s2.channelId == Str(id) && s2.clientsConnected && s2.starts == [];
    assert Run(env, s2, []) == s2;
    var inputs := [CallConnectToChannel(Str(id)), RelayClientsConnected(Str(id)), KeysDerived];
    assert Run(env, Init(false), inputs) == Run(env, s1, inputs[1..]);
    assert Run(env, s1, inputs[1..]) == Run(env, s2, inputs[2..]);
    assert inputs[2..] == [KeysDerived] && [KeysDerived][1..] == [];
    assert Run(env, s2, inputs[2..]) == OnKeysExchanged(s2.(keysExchanged := true));
  }

  /** Before the handshake completes, a chat message is refused with
      "Keys not exchanged" and never reaches the relay. */
  lemma ChatBeforeHandshakeRefused(env: Env, s: State)
    requires Bound(s) && !s.keysExchanged
    ensures var chat := Obj(map["type" := Str("chat"), "text" := Str("hi")]);
      SendMessage(env, s, chat) == Step(s, Failed(KeysNotExchanged))
  {
  }

  /** Pause and resume on an encrypted channel: a sealed `pause` notice, a
      disconnect, a reconnect and a rejoin, and on the next
      `clients_connected` a sealed `ready` without a new handshake. */
  lemma PauseResumeReady(env: Env, s: State)
    requires s.keysExchanged && Bound(s)
    ensures var paused := Pause(env, s);
      var resumed := Resume(paused.next);
      var back := OnClientsConnected(env, resumed, s.channelId);
      paused.outcome == Done && back.outcome == Done &&
      back.next.transport == s.transport + [
        MessageOut(s.channelId, Encrypted(Seal(env, Typed("pause")))),
        Disconnect, Connect, JoinChannel(s.channelId),
        MessageOut(s.channelId, Encrypted(Seal(env, Typed("ready"))))] &&
      back.next.starts == s.starts && !back.next.reconnect && !back.next.manualDisconnect
  {
  }

  /** A paused session whose keys were never exchanged stays off the relay
      when resumed. */
  lemma ResumeWithoutKeysStaysOff(env: Env, s: State)
    requires !s.keysExchanged
    ensures Resume(Pause(env, s).next).transport == s.transport + [Disconnect]
    ensures Resume(Pause(env, s).next).reconnect == s.reconnect
  {
  }
}
