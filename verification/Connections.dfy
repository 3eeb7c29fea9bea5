/** The connection lifecycle as a transition system, and what every run of it keeps. */
module Connections {

  type Transport = nat

  datatype Option<T> = None | Some(value: T)

  /** `waiting` says that the promise returned by `connect` has not been settled. */
  datatype Lifecycle =
    | Disconnected
    | Connecting(id: nat, transport: Option<Transport>)
    | Connected(id: nat, link: Transport, waiting: bool)

  /** What the message handler does with a decoded message.  `Reconnects` is a listener that
      disconnects and connects again before it returns. */
  datatype Reaction = Accepts | Rejects | Reconnects

  datatype Message =
    | Hello(accepted: bool)
    | HelloError
    | Body(reaction: Reaction)

  datatype Decoded = Malformed | Messages(messages: seq<Message>)

  /** A reported state change and the attempt it belongs to. */
  datatype Change = ToConnecting(id: nat) | ToConnected(id: nat) | ToDisconnected(id: nat)

  /** `answers` records every call that settles the promise of an attempt, `opening` the attempts
      whose transport factory has not returned, `shut` the transports closed by either side, and
      `delivered` the attempt of every message handed to the message handler. */
  datatype State = State(
    lifecycle: Lifecycle,
    sequence: nat,
    changes: seq<Change>,
    answers: map<nat, seq<bool>>,
    opening: set<nat>,
    made: set<Transport>,
    shut: set<Transport>,
    delivered: seq<nat>)

  const Init := State(Disconnected, 0, [], map[], {}, {}, {}, [])

  datatype Event =
    | Connect
    | Disconnect
    | TransportOpened(id: nat, transport: Transport)
    | TransportRefused(id: nat)
    | HelloUnsent(id: nat)
    | Data(id: nat, decoded: Decoded)
    | Close(id: nat)
    | Error(id: nat)
    | SendThrows
    | SendRejected(transport: Transport)

  // ---------- the handlers ----------

  predicate IsCurrent(s: State, id: nat) {
    !s.lifecycle.Disconnected? && s.lifecycle.id == id
  }

  function TransportOf(l: Lifecycle): Option<Transport> {
    match l
    case Disconnected => None
    case Connecting(_, t) => t
    case Connected(_, t, _) => Some(t)
  }

  function Answers(s: State, id: nat): seq<bool> {
    if id in s.answers then s.answers[id] else []
  }

  function Settled(s: State, id: nat, ok: bool): State {
    s.(answers := s.answers[id := Answers(s, id) + [ok]])
  }

  function Begin(s: State): State {
    if !s.lifecycle.Disconnected? then s
    else
      var id := s.sequence + 1;
      s.(sequence := id, lifecycle := Connecting(id, None), changes := s.changes + [ToConnecting(id)],
         opening := s.opening + {id})
  }

  function Fail(s: State): State {
    if s.lifecycle.Disconnected? then s
    else
      var id := s.lifecycle.id;
      var s1 := if s.lifecycle.Connecting? || s.lifecycle.waiting then Settled(s, id, false) else s;
      s1.(lifecycle := Disconnected, changes := s1.changes + [ToDisconnected(id)])
  }

  function FailAndClose(s: State): State {
    match TransportOf(s.lifecycle)
    case None => Fail(s)
    case Some(t) => Fail(s).(shut := s.shut + {t})
  }

  /** The end of the handshake: the state change is reported before the promise resolves. */
  function Greet(s: State, t: Transport, accepted: bool): State
    requires s.lifecycle.Connecting?
  {
    var id := s.lifecycle.id;
    var s1 := s.(lifecycle := Connected(id, t, true));
    if !accepted then FailAndClose(s1)
    else Settled(s1.(changes := s1.changes + [ToConnected(id)], lifecycle := Connected(id, t, false)), id, true)
  }

  function Deliver(s: State, reaction: Reaction): State
    requires s.lifecycle.Connected?
  {
    var s1 := s.(delivered := s.delivered + [s.lifecycle.id]);
    match reaction
    case Accepts => s1
    case Rejects => FailAndClose(s1)
    case Reconnects => Begin(FailAndClose(s1))
  }

  function Handle(s: State, m: Message): State {
    match s.lifecycle
    case Disconnected => s
    case Connecting(_, transport) =>
      if m.Hello? && transport.Some? then Greet(s, transport.value, m.accepted) else FailAndClose(s)
    case Connected(_, _, _) =>
      if m.Body? then Deliver(s, m.reaction) else FailAndClose(s)
  }

  /** The batch loop: it stops at a disconnected link and at nothing else. */
  function HandleAll(s: State, ms: seq<Message>): State
    decreases ms
  {
    if ms == [] || s.lifecycle.Disconnected? then s else HandleAll(Handle(s, ms[0]), ms[1..])
  }

  function HandleData(s: State, id: nat, decoded: Decoded): State {
    if !IsCurrent(s, id) then s
    else if s.lifecycle.Connecting? && s.lifecycle.transport.None? then FailAndClose(s)
    else if decoded.Malformed? then FailAndClose(s)
    else HandleAll(s, decoded.messages)
  }

  function Open(s: State, id: nat, t: Transport): State {
    var s1 := s.(opening := s.opening - {id}, made := s.made + {t});
    if s.lifecycle.Connecting? && s.lifecycle.id == id
    then s1.(lifecycle := Connecting(id, Some(t)))
    else s1.(shut := s1.shut + {t})
  }

  function HandleClose(s: State, id: nat): State {
    if !IsCurrent(s, id) then s
    else
      match TransportOf(s.lifecycle)
      case None => Fail(s)
      case Some(t) => Fail(s).(shut := s.shut + {t})
  }

  predicate Enabled(s: State, e: Event) {
    match e
    case TransportOpened(id, t) => id in s.opening && t !in s.made
    case TransportRefused(id) => id in s.opening
    case _ => true
  }

  function Apply(s: State, e: Event): State
    requires Enabled(s, e)
  {
    match e
    case Connect => Begin(s)
    case Disconnect => FailAndClose(s)
    case TransportOpened(id, t) => Open(s, id, t)
    case TransportRefused(id) =>
      var s1 := s.(opening := s.opening - {id});
      if IsCurrent(s, id) then Fail(s1) else s1
    case HelloUnsent(id) => if IsCurrent(s, id) then FailAndClose(s) else s
    case Data(id, decoded) => HandleData(s, id, decoded)
    case Close(id) => HandleClose(s, id)
    case Error(id) => if IsCurrent(s, id) then FailAndClose(s) else s
    case SendThrows => if s.lifecycle.Connected? then FailAndClose(s) else s
    case SendRejected(t) => if TransportOf(s.lifecycle) == Some(t) then FailAndClose(s) else s
  }

  // ---------- the invariant ----------

  /** The state changes of one attempt, read off its promise and the current lifecycle. */
  function Block(s: State, id: nat): seq<Change> {
    [ToConnecting(id)]
    + (if Answers(s, id) == [true] then [ToConnected(id)] else [])
    + (if IsCurrent(s, id) then [] else [ToDisconnected(id)])
  }

  function History(s: State, n: nat): seq<Change> {
    if n == 0 then [] else History(s, n - 1) + Block(s, n)
  }

  predicate Pending(s: State, id: nat) {
    IsCurrent(s, id) && (s.lifecycle.Connecting? || s.lifecycle.waiting)
  }

  /** The promise of an attempt has been settled exactly once, unless the attempt is under way. */
  predicate Answer(s: State, id: nat) {
    if Pending(s, id) then Answers(s, id) == [] else |Answers(s, id)| == 1
  }

  ghost predicate Inv(s: State) {
    && (!s.lifecycle.Disconnected? ==> s.lifecycle.id == s.sequence > 0)
    && (s.lifecycle.Connected? ==> !s.lifecycle.waiting && Answers(s, s.lifecycle.id) == [true])
    && (s.lifecycle.Connected? ==> s.lifecycle.id !in s.opening)
    && (s.lifecycle.Connecting? ==> (s.lifecycle.transport.None? <==> s.lifecycle.id in s.opening))
    && (forall id | 1 <= id <= s.sequence :: Answer(s, id))
    && (forall id | id in s.answers :: 1 <= id <= s.sequence)
    && (forall id | id in s.opening :: 1 <= id <= s.sequence)
    && (forall t | t in s.made && t !in s.shut :: TransportOf(s.lifecycle) == Some(t))
    && (TransportOf(s.lifecycle).Some? ==> TransportOf(s.lifecycle).value in s.made - s.shut)
    && s.shut <= s.made
    && s.changes == History(s, s.sequence)
    && (forall k | 0 <= k < |s.delivered| :: 1 <= s.delivered[k] <= s.sequence && Answers(s, s.delivered[k]) == [true])
  }

  lemma {:induction false} HistorySame(s: State, r: State, n: nat)
    requires forall id | 1 <= id <= n :: Answers(s, id) == Answers(r, id)
    requires forall id | 1 <= id <= n :: IsCurrent(s, id) == IsCurrent(r, id)
    ensures History(s, n) == History(r, n)
  {
    if n > 0 { HistorySame(s, r, n - 1); }
  }

  lemma BeginKeeps(s: State)
    requires Inv(s)
    ensures Inv(Begin(s))
  {
    if s.lifecycle.Disconnected? {
      var r := Begin(s);
      HistorySame(s, r, s.sequence);
      forall id | 1 <= id <= r.sequence ensures Answer(r, id) {
        assert id <= s.sequence ==> Answer(s, id);
      }
    }
  }

  lemma FailBlock(s: State, r: State)
    requires !s.lifecycle.Disconnected?
    requires s.lifecycle.Connecting? ==> Answers(s, s.lifecycle.id) == []
    requires s.lifecycle.Connected? ==> !s.lifecycle.waiting && Answers(s, s.lifecycle.id) == [true]
    requires r.answers == Fail(s).answers && r.lifecycle.Disconnected?
    ensures Block(r, s.lifecycle.id) == Block(s, s.lifecycle.id) + [ToDisconnected(s.lifecycle.id)]
  {
    var id := s.lifecycle.id;
    if s.lifecycle.Connecting? {
      assert Answers(r, id) == [false];
    } else {
      assert Answers(r, id) == [true];
    }
  }

  /** What the ways to lose a link share. */
  lemma FailKeeps(s: State, shut: set<Transport>, opening: set<nat>)
    requires Inv(s) && !s.lifecycle.Disconnected?
    requires opening <= s.opening
    requires shut == match TransportOf(s.lifecycle) case None => s.shut case Some(t) => s.shut + {t}
    ensures Inv(Fail(s).(shut := shut, opening := opening))
  {
    var r := Fail(s).(shut := shut, opening := opening);
    HistorySame(s, r, s.sequence - 1);
    assert Answer(s, s.sequence);
    forall id | 1 <= id <= r.sequence ensures Answer(r, id) {
      assert Answer(s, id);
    }
    forall t | t in s.made && t !in s.shut ensures t in shut {
      assert TransportOf(s.lifecycle) == Some(t);
    }
    assert History(s, s.sequence) == History(s, s.sequence - 1) + Block(s, s.sequence);
    FailBlock(s, r);
    assert r.changes == History(r, s.sequence);
  }

  lemma FailAndCloseKeeps(s: State)
    requires Inv(s)
    ensures Inv(FailAndClose(s)) && FailAndClose(s).lifecycle.Disconnected?
  {
    if !s.lifecycle.Disconnected? {
      var shut := match TransportOf(s.lifecycle) case None => s.shut case Some(t) => s.shut + {t};
      FailKeeps(s, shut, s.opening);
      assert FailAndClose(s) == Fail(s).(shut := shut, opening := s.opening);
    }
  }

  lemma GreetKeeps(s: State, t: Transport, accepted: bool)
    requires Inv(s) && s.lifecycle.Connecting? && s.lifecycle.transport == Some(t)
    ensures Inv(Greet(s, t, accepted))
  {
    var id := s.lifecycle.id;
    assert Answer(s, id);
    if accepted {
      var r := Greet(s, t, true);
      HistorySame(s, r, s.sequence - 1);
      forall k | 1 <= k <= r.sequence ensures Answer(r, k) {
        assert Answer(s, k);
      }
      assert History(s, id) == History(s, id - 1) + Block(s, id);
      assert Block(s, id) == [ToConnecting(id)];
      assert Block(r, id) == [ToConnecting(id)] + [ToConnected(id)];
      assert r.changes == History(r, id);
    } else {
      // Rejecting the handshake is losing the link while connecting.
      FailAndCloseKeeps(s);
      assert Greet(s, t, false) == FailAndClose(s);
    }
  }

  lemma DeliverKeeps(s: State, reaction: Reaction)
    requires Inv(s) && s.lifecycle.Connected?
    ensures Inv(Deliver(s, reaction))
  {
    var s1 := s.(delivered := s.delivered + [s.lifecycle.id]);
    assert Inv(s1) by {
      HistorySame(s, s1, s.sequence);
      forall id | 1 <= id <= s.sequence ensures Answer(s1, id) { assert Answer(s, id); }
    }
    match reaction
    case Accepts =>
    case Rejects => FailAndCloseKeeps(s1);
    case Reconnects => FailAndCloseKeeps(s1); BeginKeeps(FailAndClose(s1));
  }

  lemma HandleKeeps(s: State, m: Message)
    requires Inv(s)
    ensures Inv(Handle(s, m))
  {
    match s.lifecycle
    case Disconnected =>
    case Connecting(_, transport) =>
      if m.Hello? && transport.Some? { GreetKeeps(s, transport.value, m.accepted); } else { FailAndCloseKeeps(s); }
    case Connected(_, _, _) =>
      if m.Body? { DeliverKeeps(s, m.reaction); } else { FailAndCloseKeeps(s); }
  }

  lemma {:induction false} HandleAllKeeps(s: State, ms: seq<Message>)
    requires Inv(s)
    ensures Inv(HandleAll(s, ms))
    decreases ms
  {
    if ms != [] && !s.lifecycle.Disconnected? {
      HandleKeeps(s, ms[0]);
      HandleAllKeeps(Handle(s, ms[0]), ms[1..]);
    }
  }

  lemma OpenKeeps(s: State, id: nat, t: Transport)
    requires Inv(s) && id in s.opening && t !in s.made
    ensures Inv(Open(s, id, t))
  {
    var r := Open(s, id, t);
    HistorySame(s, r, s.sequence);
    forall k | 1 <= k <= s.sequence ensures Answer(r, k) { assert Answer(s, k); }
    forall u | u in r.made && u !in r.shut ensures TransportOf(r.lifecycle) == Some(u) {
      if u != t { assert TransportOf(s.lifecycle) == Some(u); }
    }
  }

  lemma RefusedKeeps(s: State, id: nat)
    requires Inv(s) && id in s.opening
    ensures Inv(Apply(s, TransportRefused(id)))
  {
    var s1 := s.(opening := s.opening - {id});
    if IsCurrent(s, id) {
      FailKeeps(s, s.shut, s.opening - {id});
      assert Fail(s1) == Fail(s).(shut := s.shut, opening := s.opening - {id});
    } else {
      HistorySame(s, s1, s.sequence);
      forall k | 1 <= k <= s.sequence ensures Answer(s1, k) { assert Answer(s, k); }
    }
  }

  lemma KeepInv(s: State, e: Event)
    requires Inv(s) && Enabled(s, e)
    ensures Inv(Apply(s, e))
  {
    match e
    case Connect => BeginKeeps(s);
    case Disconnect => FailAndCloseKeeps(s);
    case TransportOpened(id, t) => OpenKeeps(s, id, t);
    case TransportRefused(id) => RefusedKeeps(s, id);
    case HelloUnsent(id) => FailAndCloseKeeps(s);
    case Data(id, decoded) =>
      FailAndCloseKeeps(s);
      if decoded.Messages? { HandleAllKeeps(s, decoded.messages); }
    case Close(id) =>
      FailAndCloseKeeps(s);
      assert IsCurrent(s, id) ==> HandleClose(s, id) == FailAndClose(s);
    case Error(id) => FailAndCloseKeeps(s);
    case SendThrows => FailAndCloseKeeps(s);
    case SendRejected(t) => FailAndCloseKeeps(s);
  }
}
