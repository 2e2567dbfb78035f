/** The socket object itself: the fields its handlers and methods update in
    place, the key exchange it shares `keysExchanged` with, and the two logs
    that stand for `socket.emit` (to the relay) and `this.emit` (to the owning
    process). Every method is proved against the step function of the same
    name in SessionSpec, on the snapshot of the fields. */
module RemoteSocket {
  import opened JsValues
  import opened SessionSpec

  /** The part of the key exchange the socket sees: whether keys are
      exchanged, the calls to `start`, its public key, and its symmetric
      encryption as uninterpreted functions. */
  class KeyExchange {
    var keysExchanged: bool
    var starts: seq<bool>
    const myPublicKey: string
    const encrypt: string -> string
    const decrypt: Js -> Option<string>

    constructor(myPublicKey: string, encrypt: string -> string, decrypt: Js -> Option<string>)
      ensures !keysExchanged && starts == []
      ensures this.myPublicKey == myPublicKey && this.encrypt == encrypt && this.decrypt == decrypt
    {
      this.myPublicKey := myPublicKey;
      this.encrypt := encrypt;
      this.decrypt := decrypt;
      keysExchanged := false;
      starts := [];
    }

    /** `start(isOriginator)`, recorded as a call. */
    method Start(isOriginator: bool)
      modifies this
      ensures starts == old(starts) + [isOriginator]
      ensures keysExchanged == old(keysExchanged)
    {
      starts := starts + [isOriginator];
    }

    /** The handshake's own progress: a derived secret, or a new episode. */
    method SetKeysExchanged(exchanged: bool)
      modifies this
      ensures keysExchanged == exchanged && starts == old(starts)
    {
      keysExchanged := exchanged;
    }
  }

  class Socket {
    var channelId: Js
    var isOriginator: bool
    var clientsConnected: bool
    var reconnect: bool
    var manualDisconnect: bool
    var subscribed: seq<Js>
    var transport: seq<Emission>
    var raised: seq<Event>
    const commLayer: CommLayer
    const keyExchange: KeyExchange
    const serialize: Js -> string
    const parse: string -> Option<Js>

    /** The fields as a SessionSpec state. */
    function Snapshot(): State
      reads this, keyExchange
    {
      State(channelId, isOriginator, clientsConnected, reconnect, manualDisconnect, subscribed,
            keyExchange.keysExchanged, keyExchange.starts, transport, raised)
    }

    function Collaborators(): Env {
      Env(commLayer, serialize, keyExchange.encrypt, keyExchange.decrypt, parse)
    }

    /** The object invariant: no `message` envelope built by `sendMessage`
        ever carried a non-handshake message in plaintext. */
    ghost predicate Valid()
      reads this
    {
      Sealed(transport)
    }

    constructor(reconnect: bool, commLayer: CommLayer, myPublicKey: string,
                encrypt: string -> string, decrypt: Js -> Option<string>,
                serialize: Js -> string, parse: string -> Option<Js>)
      ensures Valid() && fresh(keyExchange)
      ensures Snapshot() == Init(reconnect)
      ensures Collaborators() == Env(commLayer, serialize, encrypt, decrypt, parse)
      ensures keyExchange.myPublicKey == myPublicKey
    {
      this.reconnect := reconnect;
      this.commLayer := commLayer;
      this.serialize := serialize;
      this.parse := parse;
      channelId := Null;
      isOriginator := false;
      clientsConnected := false;
      manualDisconnect := false;
      subscribed := [];
      transport := [];
      raised := [];
      keyExchange := new KeyExchange(myPublicKey, encrypt, decrypt);
    }

    method SendMessage(message: Js) returns (outcome: Outcome)
      requires Valid()
      modifies this
      ensures Valid()
      ensures Snapshot() == SessionSpec.SendMessage(Collaborators(), old(Snapshot()), message).next
      ensures outcome == SessionSpec.SendMessage(Collaborators(), old(Snapshot()), message).outcome
    {
      if !Truthy(channelId) {
        return Failed(NoChannel);
      }
      if !keyExchange.keysExchanged {
        match TypeStartsWith(message, KeyHandshake) {
          case Holds =>
            transport := transport + [MessageOut(channelId, Verbatim(message))];
            return Done;
          case Fails =>
            return Failed(KeysNotExchanged);
          case Throws =>
            return Failed(TypeError);
        }
      }
      var cipher := keyExchange.encrypt(serialize(message));
      transport := transport + [MessageOut(channelId, Encrypted(cipher))];
      outcome := Done;
    }

    /** `checkSameId(id)`: reads the bound id and changes nothing. */
    method CheckSameId(id: Js) returns (outcome: Outcome)
      ensures outcome.Done? <==> id == channelId
      ensures outcome.Failed? ==> outcome.error == WrongId
    {
      if id != channelId {
        return Failed(WrongId);
      }
      return Done;
    }

    /** `receiveMessages(channel)`: the handlers below listen on `channel`. */
    method ReceiveMessages(channel: Js)
      requires Valid()
      modifies this
      ensures Valid()
      ensures Snapshot() == SessionSpec.ReceiveMessages(old(Snapshot()), channel)
      ensures transport == old(transport)
    {
      subscribed := subscribed + [channel];
    }

    method OnMessage(envelope: Envelope) returns (outcome: Outcome)
      requires Valid()
      modifies keyExchange, this
      ensures Valid()
      ensures Snapshot() == SessionSpec.OnMessage(Collaborators(), old(Snapshot()), envelope).next
      ensures outcome == SessionSpec.OnMessage(Collaborators(), old(Snapshot()), envelope).outcome
    {
      if Truthy(envelope.error) {
        return Failed(RelayReported(envelope.error));
      }
      outcome := CheckSameId(envelope.id);
      if outcome.Failed? {
        return;
      }
      if isOriginator && keyExchange.keysExchanged && TypeIs(envelope.message, KeyHandshakeStart) {
        keyExchange.Start(isOriginator);
        return Done;
      }
      if !keyExchange.keysExchanged {
        match TypeStartsWith(envelope.message, KeyHandshake) {
          case Holds =>
            raised := raised + [KeyExchangeMessage(envelope.message)];
            return Done;
          case Fails =>
            return Failed(KeysNotExchanged);
          case Throws =>
            return Failed(TypeError);
        }
      }
      var plain := keyExchange.decrypt(envelope.message);
      if plain.None? {
        return Failed(DecryptFailed);
      }
      var received := parse(plain.value);
      if received.None? {
        return Failed(ParseFailed);
      }
      raised := raised + [MessageDelivered(received.value)];
      outcome := Done;
    }

    method OnClientsConnected(id: Js) returns (outcome: Outcome)
      requires Valid()
      modifies keyExchange, this
      ensures Valid()
      ensures Snapshot() == SessionSpec.OnClientsConnected(Collaborators(), old(Snapshot()), id).next
      ensures outcome == SessionSpec.OnClientsConnected(Collaborators(), old(Snapshot()), id).outcome
    {
      channelId := id;
      clientsConnected := true;
      if isOriginator && !keyExchange.keysExchanged {
        keyExchange.Start(isOriginator);
      }
      if reconnect {
        if keyExchange.keysExchanged {
          outcome := SendMessage(Typed("ready"));
          if outcome.Failed? {
            return;
          }
          if commLayer == WebRtc {
            raised := raised + [ClientsReady(isOriginator)];
          }
        } else if !isOriginator {
          StartRequestIsTagged(Typed(KeyHandshakeStart));
          outcome := SendMessage(Typed(KeyHandshakeStart));
          if outcome.Failed? {
            return;
          }
        }
        reconnect := false;
      }
      outcome := Done;
    }

    method OnClientsDisconnected()
      requires Valid()
      modifies this
      ensures Valid()
      ensures Snapshot() == SessionSpec.OnClientsDisconnected(old(Snapshot()))
    {
      clientsConnected := false;
      raised := raised + [ClientsDisconnected];
    }

    method OnChannelCreated(id: Js)
      requires Valid()
      modifies this
      ensures Valid()
      ensures Snapshot() == SessionSpec.OnChannelCreated(old(Snapshot()), id)
    {
      raised := raised + [ChannelCreated(id)];
    }

    method OnClientsWaitingToJoin(count: Js)
      requires Valid()
      modifies this
      ensures Valid()
      ensures Snapshot() == SessionSpec.OnClientsWaitingToJoin(old(Snapshot()), count)
    {
      raised := raised + [ClientsWaitingToJoin(count)];
    }

    /** The listener the constructor puts on the key exchange's
        `keys_exchanged` event. */
    method OnKeysExchanged()
      requires Valid()
      modifies this
      ensures Valid()
      ensures Snapshot() == SessionSpec.OnKeysExchanged(old(Snapshot()))
    {
      raised := raised + [ClientsReady(isOriginator)];
    }

    method Send(event: string, payload: Js)
      requires Valid()
      modifies this
      ensures Valid()
      ensures Snapshot() == SessionSpec.Send(old(Snapshot()), event, payload)
    {
      transport := transport + [Raw(event, payload)];
    }

    method ConnectToChannel(id: Js)
      requires Valid()
      modifies this
      ensures Valid()
      ensures Snapshot() == SessionSpec.ConnectToChannel(old(Snapshot()), id)
    {
      channelId := id;
      ReceiveMessages(channelId);
      transport := transport + [JoinChannel(id)];
    }

    /** `createChannel()`, with `freshId` the UUID it generates. */
    method CreateChannel(freshId: string) returns (channel: string, pubKey: string)
      requires Valid()
      modifies this
      ensures Valid()
      ensures Snapshot() == SessionSpec.CreateChannel(old(Snapshot()), freshId)
      ensures channel == freshId && pubKey == keyExchange.myPublicKey
    {
      isOriginator := true;
      ReceiveMessages(Str(freshId));
      transport := transport + [JoinChannel(Str(freshId))];
      channel, pubKey := freshId, keyExchange.myPublicKey;
    }

    method Pause() returns (outcome: Outcome)
      requires Valid()
      modifies this
      ensures Valid()
      ensures Snapshot() == SessionSpec.Pause(Collaborators(), old(Snapshot())).next
      ensures outcome == SessionSpec.Pause(Collaborators(), old(Snapshot())).outcome
    {
      manualDisconnect := true;
      if keyExchange.keysExchanged {
        outcome := SendMessage(Typed("pause"));
        if outcome.Failed? {
          return;
        }
      }
      transport := transport + [Disconnect];
      outcome := Done;
    }

    method Resume()
      requires Valid()
      modifies this
      ensures Valid()
      ensures Snapshot() == SessionSpec.Resume(old(Snapshot()))
    {
      manualDisconnect := false;
      if keyExchange.keysExchanged {
        reconnect := true;
        transport := transport + [Connect, JoinChannel(channelId)];
      }
    }

    /** `connectAgain`, run when focus returns after a transport error. */
    method ConnectAgain()
      requires Valid()
      modifies this
      ensures Valid()
      ensures Snapshot() == SessionSpec.ConnectAgain(old(Snapshot()))
    {
      reconnect := true;
      transport := transport + [Connect, JoinChannel(channelId)];
    }
  }
}
