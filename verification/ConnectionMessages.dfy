/** What each event does to the attempt under way: which ones complete the handshake, which ones end
    the attempt, and which ones it does not notice. */
module ConnectionMessages {
  import opened Connections

  function Closed(l: Lifecycle): set<Transport> {
    match l
    case Connecting(_, Some(t)) => {t}
    case Connected(_, t, _) => {t}
    case _ => {}
  }

  /** The attempt under way has ended: its promise is rejected if it was still pending, the end is
      reported, its transport is closed, and nothing else has changed. */
  ghost predicate Ends(s: State, r: State) {
    && !s.lifecycle.Disconnected? && r.lifecycle.Disconnected?
    && r.changes == s.changes + [ToDisconnected(s.lifecycle.id)]
    && r.answers == (if s.lifecycle.Connecting? then s.answers[s.lifecycle.id := [false]] else s.answers)
    && r.shut == s.shut + Closed(s.lifecycle)
    && r.sequence == s.sequence && r.opening == s.opening && r.made == s.made && r.delivered == s.delivered
  }

  /** The handshake is complete: the change is reported and the promise resolved. */
  ghost predicate Completes(s: State, r: State) {
    && s.lifecycle.Connecting? && s.lifecycle.transport.Some?
    && r == s.(lifecycle := Connected(s.lifecycle.id, s.lifecycle.transport.value, false),
               changes := s.changes + [ToConnected(s.lifecycle.id)],
               answers := s.answers[s.lifecycle.id := [true]])
  }

  /** A new attempt is under way. */
  ghost predicate Starts(s: State, r: State) {
    && s.lifecycle.Disconnected?
    && r == s.(lifecycle := Connecting(s.sequence + 1, None), sequence := s.sequence + 1,
               changes := s.changes + [ToConnecting(s.sequence + 1)], opening := s.opening + {s.sequence + 1})
  }

  lemma NothingAnswered(s: State)
    requires Inv(s) && !s.lifecycle.Disconnected?
    ensures Answers(s, s.lifecycle.id) == if s.lifecycle.Connecting? then [] else [true]
  {
    assert Answer(s, s.lifecycle.id);
  }

  lemma Settles(s: State, ok: bool)
    requires Inv(s) && s.lifecycle.Connecting?
    ensures Settled(s, s.lifecycle.id, ok).answers == s.answers[s.lifecycle.id := [ok]]
  {
    NothingAnswered(s);
    assert [] + [ok] == [ok];
  }

  lemma LostMeansEnds(s: State)
    requires Inv(s) && !s.lifecycle.Disconnected?
    ensures Ends(s, FailAndClose(s))
  {
    NothingAnswered(s);
    if s.lifecycle.Connecting? { Settles(s, false); }
  }

  // ---------- messages ----------

  /** While connecting, an accepted hello completes the handshake once the transport is there; every
      other message ends the attempt. */
  lemma ConnectingExactly(s: State, m: Message)
    requires Inv(s) && s.lifecycle.Connecting?
    ensures m == Hello(true) && s.lifecycle.transport.Some? ==> Completes(s, Handle(s, m))
    ensures !(m == Hello(true) && s.lifecycle.transport.Some?) ==> Ends(s, Handle(s, m))
  {
    NothingAnswered(s);
    LostMeansEnds(s);
    Settles(s, true);
    Settles(s, false);
  }

  /** While connected, a handshake message ends the attempt, and any other reaches the message
      handler, which may end it too, and start another one. */
  lemma ConnectedExactly(s: State, m: Message)
    requires Inv(s) && s.lifecycle.Connected?
    ensures
      var r, heard := Handle(s, m), s.(delivered := s.delivered + [s.lifecycle.id]);
      && (m.Hello? || m.HelloError? ==> Ends(s, r))
      && (m == Body(Accepts) ==> r == heard)
      && (m == Body(Rejects) ==> Ends(heard, r))
      && (m == Body(Reconnects) ==> exists between :: Ends(heard, between) && Starts(between, r))
  {
    NothingAnswered(s);
    LostMeansEnds(s);
    var heard := s.(delivered := s.delivered + [s.lifecycle.id]);
    assert Ends(heard, FailAndClose(heard));
    assert Starts(FailAndClose(heard), Begin(FailAndClose(heard)));
  }

  lemma BatchOver(s: State, ms: seq<Message>)
    requires s.lifecycle.Disconnected?
    ensures HandleAll(s, ms) == s
  {}

  /** What a chunk does: nothing to an attempt that is over; it ends an attempt whose transport is
      not there yet, or if it is malformed; otherwise its messages are handled in order, and the
      first one that ends the attempt is the last. */
  lemma DataExactly(s: State, id: nat, decoded: Decoded)
    requires Inv(s)
    ensures
      var r := Apply(s, Data(id, decoded));
      && (s.lifecycle.Disconnected? || s.lifecycle.id != id ==> r == s)
      && (!s.lifecycle.Disconnected? && s.lifecycle.id == id ==>
            && (decoded.Malformed? || (s.lifecycle.Connecting? && s.lifecycle.transport.None?) ==> Ends(s, r))
            && (decoded.Messages? && !(s.lifecycle.Connecting? && s.lifecycle.transport.None?) ==>
                  && (decoded.messages == [] ==> r == s)
                  && (decoded.messages != [] ==>
                        && (s.lifecycle.Connecting? && decoded.messages[0] != Hello(true) ==> Ends(s, r))
                        && (s.lifecycle.Connected? && !decoded.messages[0].Body? ==> Ends(s, r)))))
  {
    if !s.lifecycle.Disconnected? {
      LostMeansEnds(s);
      if decoded.Messages? && decoded.messages != [] {
        var next := Handle(s, decoded.messages[0]);
        if s.lifecycle.Connecting? {
          ConnectingExactly(s, decoded.messages[0]);
        } else {
          ConnectedExactly(s, decoded.messages[0]);
        }
        if next.lifecycle.Disconnected? { BatchOver(next, decoded.messages[1..]); }
      }
    }
  }

  /** The messages of a chunk one by one, as long as the attempt lasts. */
  lemma BatchExactly(s: State, m: Message, ms: seq<Message>)
    requires !s.lifecycle.Disconnected?
    ensures HandleAll(s, [m] + ms)
            == if Handle(s, m).lifecycle.Disconnected? then Handle(s, m) else HandleAll(Handle(s, m), ms)
  {
    assert ([m] + ms)[1..] == ms;
  }

  // ---------- the link ----------

  /** Connecting starts an attempt exactly if none is under way; disconnecting ends the one under way. */
  lemma CallsExactly(s: State)
    requires Inv(s)
    ensures if s.lifecycle.Disconnected? then Starts(s, Apply(s, Connect)) else Apply(s, Connect) == s
    ensures if s.lifecycle.Disconnected? then Apply(s, Disconnect) == s else Ends(s, Apply(s, Disconnect))
  {
    if !s.lifecycle.Disconnected? { LostMeansEnds(s); }
  }

  /** A transport that arrives for the attempt that waits for it becomes its transport; any other is
      closed at once.  A factory that fails ends its own attempt and no other. */
  lemma TransportsExactly(s: State, id: nat, t: Transport)
    requires Inv(s) && id in s.opening && t !in s.made
    ensures
      var r := Apply(s, TransportOpened(id, t));
      var mine := s.lifecycle.Connecting? && s.lifecycle.id == id;
      && r.lifecycle == (if mine then Connecting(id, Some(t)) else s.lifecycle)
      && r.shut == s.shut + (if mine then {} else {t})
      && r.made == s.made + {t} && r.opening == s.opening - {id}
      && r.changes == s.changes && r.answers == s.answers && r.sequence == s.sequence && r.delivered == s.delivered
    ensures
      var r, waiting := Apply(s, TransportRefused(id)), s.(opening := s.opening - {id});
      if !s.lifecycle.Disconnected? && s.lifecycle.id == id then Ends(waiting, r) else r == waiting
  {
    if !s.lifecycle.Disconnected? {
      NothingAnswered(s);
      if s.lifecycle.Connecting? { Settles(s, false); }
      assert Closed(s.lifecycle) != {} ==> s.lifecycle.id !in s.opening;
    }
  }

  /** The callbacks of a transport and a hello that could not be sent end their own attempt; a frame
      that could not be sent ends the attempt that is connected over the same transport. */
  lemma CallbacksExactly(s: State, id: nat, t: Transport)
    requires Inv(s)
    ensures
      var current := !s.lifecycle.Disconnected? && s.lifecycle.id == id;
      && (if current then Ends(s, Apply(s, Close(id))) else Apply(s, Close(id)) == s)
      && (if current then Ends(s, Apply(s, Error(id))) else Apply(s, Error(id)) == s)
      && (if current then Ends(s, Apply(s, HelloUnsent(id))) else Apply(s, HelloUnsent(id)) == s)
    ensures if s.lifecycle.Connected? then Ends(s, Apply(s, SendThrows)) else Apply(s, SendThrows) == s
    ensures if t in Closed(s.lifecycle) then Ends(s, Apply(s, SendRejected(t))) else Apply(s, SendRejected(t)) == s
  {
    if !s.lifecycle.Disconnected? { LostMeansEnds(s); }
  }
}
