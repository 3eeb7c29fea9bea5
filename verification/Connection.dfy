/** `Connection` with its lifecycle and sequence as fields; the other fields record what the
    original hands to promises, listeners and transports.  Every method is proved to take the
    step of the transition system. */
module ConnectionImplementation {
  import opened Connections

  class Connection {
    var lifecycle: Lifecycle
    var sequence: nat
    var changes: seq<Change>
    var answers: map<nat, seq<bool>>
    var opening: set<nat>
    var made: set<Transport>
    var shut: set<Transport>
    var delivered: seq<nat>

    function View(): State
      reads this
    {
      State(lifecycle, sequence, changes, answers, opening, made, shut, delivered)
    }

    constructor ()
      ensures View() == Init
    {
      lifecycle, sequence, changes, answers := Disconnected, 0, [], map[];
      opening, made, shut, delivered := {}, {}, {}, [];
    }

    method SettleHandshake(id: nat, ok: bool)
      modifies this`answers
      ensures View() == Settled(old(View()), id, ok)
    {
      answers := answers[id := (if id in answers then answers[id] else []) + [ok]];
    }

    /** False is the error of connecting a client that is not disconnected. */
    method Connect() returns (ok: bool)
      modifies this
      ensures View() == Begin(old(View()))
      ensures ok == old(lifecycle).Disconnected?
    {
      if !lifecycle.Disconnected? { return false; }
      sequence := sequence + 1;
      lifecycle := Connecting(sequence, None);
      changes := changes + [ToConnecting(sequence)];
      opening := opening + {sequence};
      return true;
    }

    method LoseLink()
      modifies this`lifecycle, this`answers, this`changes
      ensures View() == Fail(old(View()))
    {
      var was := lifecycle;
      if was.Disconnected? { return; }
      lifecycle := Disconnected;
      if was.Connecting? || was.waiting { SettleHandshake(was.id, false); }
      changes := changes + [ToDisconnected(was.id)];
    }

    method LoseLinkAndClose()
      modifies this`lifecycle, this`answers, this`changes, this`shut
      ensures View() == FailAndClose(old(View()))
    {
      var transport := TransportOf(lifecycle);
      LoseLink();
      if transport.Some? { shut := shut + {transport.value}; }
    }

    /** One decoded message; the reaction of the message handler comes with the message. */
    method HandleMessage(m: Message)
      modifies this
      ensures View() == Handle(old(View()), m)
    {
      match lifecycle {
        case Disconnected =>
        case Connecting(id, transport) =>
          if !m.Hello? || transport.None? { LoseLinkAndClose(); return; }
          lifecycle := Connected(id, transport.value, true);
          if !m.accepted { LoseLinkAndClose(); return; }
          changes := changes + [ToConnected(id)];
          lifecycle := Connected(id, transport.value, false);
          SettleHandshake(id, true);
        case Connected(id, _, _) =>
          if !m.Body? { LoseLinkAndClose(); return; }
          delivered := delivered + [id];
          match m.reaction {
            case Accepts =>
            case Rejects => LoseLinkAndClose();
            case Reconnects =>
              LoseLinkAndClose();
              var _ := Connect();
          }
      }
    }

    method ReceiveData(id: nat, decoded: Decoded)
      modifies this
      ensures View() == HandleData(old(View()), id, decoded)
    {
      if lifecycle.Disconnected? || lifecycle.id != id { return; }
      if lifecycle.Connecting? && lifecycle.transport.None? { LoseLinkAndClose(); return; }
      if decoded.Malformed? { LoseLinkAndClose(); return; }
      var messages := decoded.messages;
      var i := 0;
      while i < |messages|
        invariant 0 <= i <= |messages|
        invariant HandleAll(View(), messages[i..]) == HandleAll(old(View()), messages)
      {
        if lifecycle.Disconnected? { return; }
        assert messages[i..][0] == messages[i] && messages[i..][1..] == messages[i + 1..];
        HandleMessage(messages[i]);
        i := i + 1;
      }
    }

    /** The segment of `#openTransport` after the factory returned a transport. */
    method TransportReady(id: nat, t: Transport)
      modifies this
      ensures View() == Open(old(View()), id, t)
    {
      opening := opening - {id};
      made := made + {t};
      if !lifecycle.Connecting? || lifecycle.id != id {
        shut := shut + {t};
        return;
      }
      lifecycle := Connecting(id, Some(t));
    }

    method TransportFailed(id: nat)
      requires id in opening
      modifies this
      ensures View() == Apply(old(View()), TransportRefused(id))
    {
      opening := opening - {id};
      if !lifecycle.Disconnected? && lifecycle.id == id { LoseLink(); }
    }

    method TransportClosed(id: nat)
      modifies this
      ensures View() == HandleClose(old(View()), id)
    {
      if lifecycle.Disconnected? || lifecycle.id != id { return; }
      var transport := TransportOf(lifecycle);
      LoseLink();
      if transport.Some? { shut := shut + {transport.value}; }
    }

    /** The error callback of a transport and a client hello that could not be sent. */
    method TransportErrored(id: nat)
      modifies this
      ensures View() == Apply(old(View()), Error(id)) == Apply(old(View()), HelloUnsent(id))
    {
      if !lifecycle.Disconnected? && lifecycle.id == id { LoseLinkAndClose(); }
    }

    /** A frame whose sending was rejected later: the link is lost only if it is the same one. */
    method FrameRejected(t: Transport)
      modifies this
      ensures View() == Apply(old(View()), SendRejected(t))
    {
      if !lifecycle.Disconnected? && TransportOf(lifecycle) == Some(t) { LoseLinkAndClose(); }
    }
  }
}
