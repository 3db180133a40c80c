/**
 One process's link to the broker: the connection manager's fields and the publisher's pending map, under any
 order of confirm, return, timeout, channel loss and shutdown (rabbitmq-publisher.ts, rabbitmq-connection-manager.ts).

 Channels, connections and publish attempts are numbered in the order they are made. Of the client library only
 this is assumed: a return precedes the confirm of its message, and a channel whose listeners have been detached
 (being closed, or with its transport lost) delivers no positive confirm any more, though a late return may show up.
 */
module Messaging {
  import opened Options
  import opened Payments

  datatype Message = Message(id: Id, routingKey: EventType, body: Envelope)

  datatype Result = Confirmed | Rejected | NotAttempted

  /** One call of `publish` that got a channel. `acked` and `returned` are what the broker did, seen or not. */
  datatype Attempt = Attempt(
    message: Message,
    channel: nat,
    acked: bool,
    returned: bool,
    returnedError: bool,      // pending.returnedError
    result: Option<Result>)   // how the promise settled

  datatype Manager = Manager(
    connection: Option<nat>,
    channel: Option<nat>,
    connecting: bool,
    closed: bool,
    listening: set<nat>)      // channels with the return listener attached

  datatype Link = Link(
    manager: Manager,
    nextChannel: nat,
    attempts: seq<Attempt>,
    pending: map<Id, nat>)    // pendingPublishes: message id to attempt

  const FRESH := Link(Manager(None, None, false, false, {}), 0, [], map[])

  // ----- the connection manager -----

  function InvalidateChannel(m: Manager, channel: nat): Manager {
    if m.channel != Some(channel) then m
    else m.(channel := None, listening := m.listening - {channel})
  }

  function InvalidateTransport(m: Manager, channel: nat, connection: nat): Manager {
    if m.channel != Some(channel) then m
    else m.(channel := None, listening := m.listening - {channel},
            connection := if m.connection == Some(connection) then None else m.connection)
  }

  function InvalidateConnection(m: Manager, connection: nat): Manager {
    if m.connection != Some(connection) then m
    else m.(connection := None, channel := None,
            listening := if m.channel.Some? then m.listening - {m.channel.value} else m.listening)
  }

  function Connected(m: Manager, connection: nat): Manager {
    if m.closed then m.(connecting := false) else m.(connection := Some(connection))
  }

  function ChannelReady(m: Manager, channel: nat): Manager {
    m.(connecting := false, channel := Some(channel), listening := m.listening + {channel})
  }

  function ConnectFailed(m: Manager, connection: nat): Manager {
    m.(connecting := false, connection := if m.connection == Some(connection) then None else m.connection)
  }

  function Release(m: Manager): Manager {
    m.(channel := None, connection := None,
       listening := if m.channel.Some? then m.listening - {m.channel.value} else m.listening)
  }

  class RabbitMqConnectionManager {
    var connection: Option<nat>
    var channel: Option<nat>
    var connecting: bool
    var closed: bool
    var listening: set<nat>

    ghost function State(): Manager
      reads this
    {
      Manager(connection, channel, connecting, closed, listening)
    }

    constructor ()
      ensures State() == FRESH.manager
    {
      connection, channel, connecting, closed, listening := None, None, false, false, {};
    }

    method OnConnected(c: nat)
      modifies this
      ensures State() == Connected(old(State()), c)
      ensures old(closed) ==> connection == old(connection) && !connecting
      ensures !old(closed) ==> connection == Some(c) && connecting == old(connecting)
      ensures channel == old(channel) && listening == old(listening)
    {
      if closed { connecting := false; } else { connection := Some(c); }
    }

    method OnChannelReady(c: nat)
      modifies this
      ensures State() == ChannelReady(old(State()), c)
      ensures channel == Some(c) && c in listening && !connecting && connection == old(connection)
    {
      listening := listening + {c};
      channel := Some(c);
      connecting := false;
    }

    method OnConnectFailed(c: nat)
      modifies this
      ensures State() == ConnectFailed(old(State()), c)
      ensures connection != Some(c) && !connecting && channel == old(channel) && listening == old(listening)
    {
      if connection == Some(c) { connection := None; }
      connecting := false;
    }

    method Invalidate(c: nat)
      modifies this
      ensures State() == InvalidateChannel(old(State()), c)
      ensures old(channel) != Some(c) ==> State() == old(State())
      ensures channel != Some(c) && connection == old(connection)
      ensures old(channel) == Some(c) ==> channel.None? && c !in listening
    {
      if channel != Some(c) { return; }
      channel := None;
      listening := listening - {c};
    }

    method OnChannelLost(c: nat, of: nat)
      modifies this
      ensures State() == InvalidateTransport(old(State()), c, of)
      ensures old(channel) != Some(c) ==> State() == old(State())
      ensures old(channel) == Some(c) ==> channel.None? && c !in listening && connection != Some(of)
    {
      if channel != Some(c) { return; }
      listening := listening - {c};
      channel := None;
      if connection == Some(of) { connection := None; }
    }

    method OnConnectionLost(c: nat)
      modifies this
      ensures State() == InvalidateConnection(old(State()), c)
      ensures old(connection) != Some(c) ==> State() == old(State())
      ensures old(connection) == Some(c) ==> connection.None? && channel.None?
      ensures old(connection) == Some(c) && old(channel).Some? ==> old(channel).value !in listening
    {
      if connection != Some(c) { return; }
      if channel.Some? { listening := listening - {channel.value}; }
      channel := None;
      connection := None;
    }

    /** The end of `close`: the captured channel and connection are detached and given up. */
    method CloseResources()
      modifies this
      ensures State() == Release(old(State()))
      ensures connection.None? && channel.None? && closed == old(closed)
      ensures old(channel).Some? ==> old(channel).value !in listening
    {
      if channel.Some? { listening := listening - {channel.value}; }
      channel := None;
      connection := None;
    }
  }

  // ----- the publisher -----

  /** `settle`: the first call wins; the pending entry goes by message id. */
  function Settle(l: Link, a: nat, result: Result): Link
    requires a < |l.attempts|
  {
    if l.attempts[a].result.Some? then l
    else l.(attempts := l.attempts[a := l.attempts[a].(result := Some(result))],
            pending := l.pending - {l.attempts[a].message.id})
  }

  /** The synchronous part of `publish` once it has a channel. */
  function Send(l: Link, message: Message, channel: nat): Link {
    l.(attempts := l.attempts + [Attempt(message, channel, false, false, false, None)],
       pending := l.pending[message.id := |l.attempts|])
  }

  /** `channel.publish` throws: nothing was attempted, and the channel is given up. */
  function SendThrows(l: Link, message: Message, channel: nat): Link {
    var sent := Send(l, message, channel);
    Settle(sent.(manager := InvalidateChannel(sent.manager, channel)), |l.attempts|, NotAttempted)
  }

  function ConfirmResult(attempt: Attempt, ok: bool): Result {
    if ok && !attempt.returnedError then Confirmed else Rejected
  }

  function OnAck(l: Link, a: nat, ok: bool): Link
    requires a < |l.attempts|
  {
    Settle(l.(attempts := l.attempts[a := l.attempts[a].(acked := true)]), a, ConfirmResult(l.attempts[a], ok))
  }

  /** `handleReturnedMessage`: the pending entry of that message id, if any, is marked. */
  function HandleReturned(l: Link, id: Id): Link
    requires id in l.pending ==> l.pending[id] < |l.attempts|
  {
    if id in l.pending
    then l.(attempts := l.attempts[l.pending[id] := l.attempts[l.pending[id]].(returnedError := true)])
    else l
  }

  /** The broker returns attempt `a`; the listener forwards it only from a channel it is still attached to. */
  function OnReturn(l: Link, a: nat): Link
    requires a < |l.attempts|
    requires forall id :: id in l.pending ==> l.pending[id] < |l.attempts|
  {
    var noted := l.(attempts := l.attempts[a := l.attempts[a].(returned := true)]);
    if l.attempts[a].channel in l.manager.listening then HandleReturned(noted, l.attempts[a].message.id) else noted
  }

  function OnTimeout(l: Link, a: nat): Link
    requires a < |l.attempts|
  {
    Settle(l.(manager := InvalidateChannel(l.manager, l.attempts[a].channel)), a, Rejected)
  }

  class RabbitMqPublisher {
    const manager: RabbitMqConnectionManager
    var nextChannel: nat
    var attempts: seq<Attempt>
    var pendingPublishes: map<Id, nat>

    ghost function State(): Link
      reads this, manager
    {
      Link(manager.State(), nextChannel, attempts, pendingPublishes)
    }

    constructor (manager: RabbitMqConnectionManager)
      requires manager.State() == FRESH.manager
      ensures this.manager == manager && State() == FRESH
    {
      this.manager := manager;
      nextChannel, attempts, pendingPublishes := 0, [], map[];
    }

    method SettleAttempt(a: nat, result: Result)
      requires a < |attempts|
      modifies this
      ensures State() == Settle(old(State()), a, result)
      ensures old(attempts)[a].result.Some? ==> State() == old(State())
      ensures old(attempts)[a].result.None? ==>
        && attempts == old(attempts)[a := old(attempts)[a].(result := Some(result))]
        && attempts[a].message.id !in pendingPublishes
        && forall id :: id != attempts[a].message.id ==>
             (id in pendingPublishes <==> id in old(pendingPublishes))
             && (id in pendingPublishes ==> pendingPublishes[id] == old(pendingPublishes)[id])
    {
      if attempts[a].result.Some? { return; }
      pendingPublishes := pendingPublishes - {attempts[a].message.id};
      attempts := attempts[a := attempts[a].(result := Some(result))];
    }

    /** `publish`, up to the promise it returns; `accepted` is false when `channel.publish` throws. */
    method Publish(message: Message, accepted: bool) returns (sent: bool)
      modifies this, manager
      ensures sent <==> old(manager.channel).Some? && accepted
      ensures old(manager.channel).None? ==> State() == old(State())
      ensures sent ==> State() == Send(old(State()), message, old(manager.channel).value)
      ensures old(manager.channel).Some? && !accepted ==>
        State() == SendThrows(old(State()), message, old(manager.channel).value)
      ensures old(manager.channel).Some? ==>
        && |attempts| == |old(attempts)| + 1 && attempts[..|old(attempts)|] == old(attempts)
        && attempts[|old(attempts)|].message == message
        && attempts[|old(attempts)|].result == (if accepted then None else Some(NotAttempted))
        && (message.id in pendingPublishes <==> accepted)
      ensures sent ==> pendingPublishes[message.id] == |old(attempts)|
      ensures old(manager.channel).Some? && !accepted ==> manager.channel.None?
    {
      if manager.channel.None? { return false; }
      var channel := manager.channel.value;
      var a := |attempts|;
      attempts := attempts + [Attempt(message, channel, false, false, false, None)];
      pendingPublishes := pendingPublishes[message.id := a];
      if !accepted {
        manager.Invalidate(channel);
        SettleAttempt(a, NotAttempted);
      }
      return accepted;
    }

    method OnConfirm(a: nat, ok: bool)
      requires a < |attempts|
      modifies this
      ensures State() == OnAck(old(State()), a, ok)
      ensures |attempts| == |old(attempts)| && attempts[a].acked && attempts[a].result.Some?
      ensures old(attempts)[a].result.None? ==>
        (attempts[a].result == Some(Confirmed) <==> ok && !old(attempts)[a].returnedError)
      ensures old(attempts)[a].result.Some? ==>
        attempts[a].result == old(attempts)[a].result && pendingPublishes == old(pendingPublishes)
    {
      var result := ConfirmResult(attempts[a], ok);
      attempts := attempts[a := attempts[a].(acked := true)];
      SettleAttempt(a, result);
    }

    method OnReturnedMessage(id: Id)
      requires id in pendingPublishes ==> pendingPublishes[id] < |attempts|
      modifies this
      ensures State() == HandleReturned(old(State()), id)
      ensures id !in old(pendingPublishes) ==> State() == old(State())
      ensures id in old(pendingPublishes) ==>
        |attempts| == |old(attempts)| && attempts[old(pendingPublishes)[id]].returnedError
      ensures pendingPublishes == old(pendingPublishes)
    {
      if id !in pendingPublishes { return; }
      var a := pendingPublishes[id];
      attempts := attempts[a := attempts[a].(returnedError := true)];
    }

    method OnConfirmTimeout(a: nat)
      requires a < |attempts|
      modifies this, manager
      ensures State() == OnTimeout(old(State()), a)
      ensures |attempts| == |old(attempts)| && attempts[a].result.Some?
      ensures old(attempts)[a].result.None? ==> attempts[a].result == Some(Rejected)
      ensures manager.channel != Some(old(attempts)[a].channel)
    {
      manager.Invalidate(attempts[a].channel);
      SettleAttempt(a, Rejected);
    }
  }

  // ----- everything that can happen to a link -----

  datatype Signal =
    | ConnectBegins
    | ConnectionOpens(connection: nat)
    | ChannelOpens
    | ConnectFails(connection: nat)
    | Publishes(message: Message)
    | PublishThrows(message: Message)
    | BrokerAcks(a: nat, ok: bool)
    | ConfirmFails(a: nat)            // the client library fails an outstanding confirm of a lost channel
    | BrokerReturns(a: nat)
    | TimeoutFires(a: nat)
    | ChannelLost(channel: nat, connection: nat)
    | ConnectionLost(connection: nat)
    | CloseBegins
    | CloseEnds

  /** The worker awaits every publish before the next, so a publish begins only when none is unsettled. */
  predicate Quiet(l: Link) {
    forall a :: 0 <= a < |l.attempts| ==> l.attempts[a].result.Some?
  }

  predicate Possible(l: Link, signal: Signal) {
    match signal
    case ConnectBegins => !l.manager.closed && l.manager.channel.None? && !l.manager.connecting
    case ConnectionOpens(_) => l.manager.connecting && l.manager.connection.None?
    case ChannelOpens => l.manager.connecting && l.manager.channel.None?
    case ConnectFails(_) => l.manager.connecting
    case Publishes(_) => l.manager.channel.Some? && Quiet(l)
    case PublishThrows(_) => l.manager.channel.Some? && Quiet(l)
    case BrokerAcks(a, ok) =>
      a < |l.attempts| && !l.attempts[a].acked && (ok ==> l.attempts[a].channel in l.manager.listening)
    case ConfirmFails(a) => a < |l.attempts| && l.attempts[a].channel !in l.manager.listening
    case BrokerReturns(a) => a < |l.attempts| && !l.attempts[a].acked
    case TimeoutFires(a) => a < |l.attempts| && l.attempts[a].result.None?
    case ChannelLost(_, _) => true
    case ConnectionLost(_) => true
    case CloseBegins => true
    case CloseEnds => l.manager.closed && !l.manager.connecting
  }

  predicate PendingInRange(l: Link) {
    forall id :: id in l.pending ==> l.pending[id] < |l.attempts|
  }

  function Handle(l: Link, signal: Signal): Link
    requires Possible(l, signal) && PendingInRange(l)
  {
    match signal
    case ConnectBegins => l.(manager := l.manager.(connecting := true))
    case ConnectionOpens(connection) => l.(manager := Connected(l.manager, connection))
    case ChannelOpens => l.(manager := ChannelReady(l.manager, l.nextChannel), nextChannel := l.nextChannel + 1)
    case ConnectFails(connection) => l.(manager := ConnectFailed(l.manager, connection))
    case Publishes(message) => Send(l, message, l.manager.channel.value)
    case PublishThrows(message) => SendThrows(l, message, l.manager.channel.value)
    case BrokerAcks(a, ok) => OnAck(l, a, ok)
    case ConfirmFails(a) => Settle(l, a, Rejected)
    case BrokerReturns(a) => OnReturn(l, a)
    case TimeoutFires(a) => OnTimeout(l, a)
    case ChannelLost(channel, connection) => l.(manager := InvalidateTransport(l.manager, channel, connection))
    case ConnectionLost(connection) => l.(manager := InvalidateConnection(l.manager, connection))
    case CloseBegins => l.(manager := l.manager.(closed := true))
    case CloseEnds => l.(manager := Release(l.manager))
  }

  // ----- the invariant -----

  /** Only the current channel forwards returns. */
  predicate ManagerOk(l: Link) {
    && l.manager.listening == (if l.manager.channel.Some? then {l.manager.channel.value} else {})
    && (l.manager.channel.Some? ==> l.manager.channel.value < l.nextChannel)
  }

  predicate AttemptOk(l: Link, a: Attempt) {
    && a.channel < l.nextChannel
    && (a.returnedError ==> a.returned)
    && (a.result == Some(Confirmed) ==> a.acked && !a.returned)
    && (a.result.Some? && a.channel in l.manager.listening ==> a.acked)
    && (a.result.None? && a.returned && a.channel in l.manager.listening ==> a.returnedError)
    && (a.acked ==> a.result.Some?)
  }

  /** The pending map is exactly the publishes in flight. */
  predicate PendingOk(l: Link) {
    && (forall id :: id in l.pending ==>
          && l.pending[id] < |l.attempts|
          && l.attempts[l.pending[id]].message.id == id
          && l.attempts[l.pending[id]].result.None?)
    && (forall a :: 0 <= a < |l.attempts| && l.attempts[a].result.None? ==>
          l.attempts[a].message.id in l.pending && l.pending[l.attempts[a].message.id] == a)
  }

  predicate OneInFlight(l: Link) {
    forall a, b :: 0 <= a < b < |l.attempts| ==> l.attempts[a].result.Some? || l.attempts[b].result.Some?
  }

  predicate LinkOk(l: Link) {
    && ManagerOk(l)
    && (forall a :: 0 <= a < |l.attempts| ==> AttemptOk(l, l.attempts[a]))
    && PendingOk(l)
    && OneInFlight(l)
  }

  lemma ManagerSignalKeeps(l: Link, signal: Signal)
    requires LinkOk(l) && Possible(l, signal)
    requires signal.ConnectBegins? || signal.ConnectionOpens? || signal.ChannelOpens? || signal.ConnectFails?
          || signal.ChannelLost? || signal.ConnectionLost? || signal.CloseBegins? || signal.CloseEnds?
    ensures LinkOk(Handle(l, signal))
  {
    var l' := Handle(l, signal);
    forall a | 0 <= a < |l'.attempts| ensures AttemptOk(l', l'.attempts[a]) {
      assert AttemptOk(l, l.attempts[a]);
    }
  }

  lemma SettleKeeps(l: Link, a: nat, result: Result)
    requires ManagerOk(l) && PendingOk(l) && OneInFlight(l) && a < |l.attempts|
    requires forall b :: 0 <= b < |l.attempts| && (b != a || l.attempts[a].result.Some?) ==> AttemptOk(l, l.attempts[b])
    requires l.attempts[a].result.None? ==> AttemptOk(l, l.attempts[a].(result := Some(result)))
    ensures LinkOk(Settle(l, a, result))
  {
    var l' := Settle(l, a, result);
    forall b | 0 <= b < |l'.attempts| ensures AttemptOk(l', l'.attempts[b]) {
    }
  }

  lemma SendKeeps(l: Link, message: Message)
    requires LinkOk(l) && Quiet(l) && l.manager.channel.Some?
    ensures LinkOk(Send(l, message, l.manager.channel.value))
  {
    var l' := Send(l, message, l.manager.channel.value);
    forall a | 0 <= a < |l'.attempts| ensures AttemptOk(l', l'.attempts[a]) {
      if a < |l.attempts| { assert AttemptOk(l, l.attempts[a]); }
    }
  }

  /** Giving up a channel leaves only sound attempts: those still in flight on it can no longer be confirmed. */
  lemma InvalidateKeeps(l: Link, channel: nat)
    requires LinkOk(l)
    ensures LinkOk(l.(manager := InvalidateChannel(l.manager, channel)))
  {
    var l' := l.(manager := InvalidateChannel(l.manager, channel));
    forall a | 0 <= a < |l'.attempts| ensures AttemptOk(l', l'.attempts[a]) {
      assert AttemptOk(l, l.attempts[a]);
    }
  }

  lemma SendThrowsKeeps(l: Link, message: Message)
    requires LinkOk(l) && Quiet(l) && l.manager.channel.Some?
    ensures LinkOk(SendThrows(l, message, l.manager.channel.value))
  {
    var channel := l.manager.channel.value;
    SendKeeps(l, message);
    var sent := Send(l, message, channel);
    InvalidateKeeps(sent, channel);
    SettleKeeps(sent.(manager := InvalidateChannel(sent.manager, channel)), |l.attempts|, NotAttempted);
  }

  lemma TimeoutKeeps(l: Link, a: nat)
    requires LinkOk(l) && Possible(l, TimeoutFires(a))
    ensures LinkOk(OnTimeout(l, a))
  {
    InvalidateKeeps(l, l.attempts[a].channel);
    SettleKeeps(l.(manager := InvalidateChannel(l.manager, l.attempts[a].channel)), a, Rejected);
  }

  lemma AckKeeps(l: Link, a: nat, ok: bool)
    requires LinkOk(l) && Possible(l, BrokerAcks(a, ok))
    ensures LinkOk(OnAck(l, a, ok))
  {
    assert AttemptOk(l, l.attempts[a]);
    var noted := l.(attempts := l.attempts[a := l.attempts[a].(acked := true)]);
    forall b | 0 <= b < |l.attempts| && b != a ensures AttemptOk(noted, noted.attempts[b]) {
      assert AttemptOk(l, l.attempts[b]);
    }
    SettleKeeps(noted, a, ConfirmResult(l.attempts[a], ok));
  }

  lemma ConfirmFailsKeeps(l: Link, a: nat)
    requires LinkOk(l) && Possible(l, ConfirmFails(a))
    ensures LinkOk(Settle(l, a, Rejected))
  {
    assert AttemptOk(l, l.attempts[a]);
    SettleKeeps(l, a, Rejected);
  }

  /** A forwarded return finds its own attempt in the pending map, or none. */
  lemma ReturnFindsItsOwn(l: Link, a: nat)
    requires LinkOk(l) && Possible(l, BrokerReturns(a)) && l.attempts[a].channel in l.manager.listening
    ensures l.attempts[a].message.id in l.pending && l.pending[l.attempts[a].message.id] == a
  {
    assert AttemptOk(l, l.attempts[a]);
  }

  lemma ReturnKeeps(l: Link, a: nat)
    requires LinkOk(l) && Possible(l, BrokerReturns(a))
    ensures LinkOk(OnReturn(l, a))
  {
    var l' := OnReturn(l, a);
    if l.attempts[a].channel in l.manager.listening { ReturnFindsItsOwn(l, a); }
    forall b | 0 <= b < |l'.attempts| ensures AttemptOk(l', l'.attempts[b]) {
      assert AttemptOk(l, l.attempts[b]);
    }
  }

  lemma SignalKeeps(l: Link, signal: Signal)
    requires LinkOk(l) && Possible(l, signal)
    ensures LinkOk(Handle(l, signal))
  {
    match signal
    case Publishes(message) => SendKeeps(l, message);
    case PublishThrows(message) => SendThrowsKeeps(l, message);
    case BrokerAcks(a, ok) => AckKeeps(l, a, ok);
    case ConfirmFails(a) => ConfirmFailsKeeps(l, a);
    case BrokerReturns(a) => ReturnKeeps(l, a);
    case TimeoutFires(a) => TimeoutKeeps(l, a);
    case _ => ManagerSignalKeeps(l, signal);
  }

  // ----- sessions -----

  ghost predicate Follows(links: seq<Link>, i: int)
    requires 0 <= i < |links| - 1
  {
    PendingInRange(links[i]) && exists signal :: Possible(links[i], signal) && links[i + 1] == Handle(links[i], signal)
  }

  /** Any finite order of signals, from a fresh process. */
  ghost predicate IsSession(links: seq<Link>) {
    |links| > 0 && links[0] == FRESH && forall i :: 0 <= i < |links| - 1 ==> Follows(links, i)
  }

  lemma {:induction false} SessionOk(links: seq<Link>, i: nat)
    requires IsSession(links) && i < |links|
    ensures LinkOk(links[i])
  {
    if i > 0 {
      SessionOk(links, i - 1);
      assert Follows(links, i - 1);
      var signal :| Possible(links[i - 1], signal) && links[i] == Handle(links[i - 1], signal);
      SignalKeeps(links[i - 1], signal);
    }
  }

  /** An attempt's later self: same message and channel, and nothing the broker or the promise did is taken back. */
  predicate AttemptGrows(a: Attempt, b: Attempt) {
    && b.message == a.message && b.channel == a.channel
    && (a.acked ==> b.acked) && (a.returned ==> b.returned)
    && (a.result.Some? ==> b.result == a.result)
  }

  ghost predicate AttemptsGrow(l: Link, l': Link) {
    |l.attempts| <= |l'.attempts| && forall a :: 0 <= a < |l.attempts| ==> AttemptGrows(l.attempts[a], l'.attempts[a])
  }

  lemma SignalGrows(l: Link, signal: Signal)
    requires LinkOk(l) && Possible(l, signal)
    ensures AttemptsGrow(l, Handle(l, signal))
  {
  }

  lemma {:induction false} SessionGrows(links: seq<Link>, i: nat, j: nat)
    requires IsSession(links) && i <= j < |links|
    ensures AttemptsGrow(links[i], links[j])
    decreases j - i
  {
    if i < j {
      SessionGrows(links, i, j - 1);
      SessionOk(links, j - 1);
      assert Follows(links, j - 1);
      var signal :| Possible(links[j - 1], signal) && links[j] == Handle(links[j - 1], signal);
      SignalGrows(links[j - 1], signal);
      forall a | 0 <= a < |links[i].attempts| ensures AttemptGrows(links[i].attempts[a], links[j].attempts[a]) {
        assert AttemptGrows(links[i].attempts[a], links[j - 1].attempts[a]);
      }
    }
  }

  /**
   Each publish settles at most once: whatever arrives later, its result stays. A second settlement changes nothing,
   and a late confirm no promise, no pending entry and no channel.
   */
  lemma SettlesOnce(links: seq<Link>, i: nat, j: nat, a: nat, ok: bool)
    requires IsSession(links) && i <= j < |links| && a < |links[i].attempts| && links[i].attempts[a].result.Some?
    ensures a < |links[j].attempts| && links[j].attempts[a].result == links[i].attempts[a].result
    ensures Settle(links[j], a, Rejected) == links[j]
    ensures OnAck(links[j], a, ok) == links[j].(attempts := links[j].attempts[a := links[j].attempts[a].(acked := true)])
  {
    SessionGrows(links, i, j);
  }

  lemma OnlyEntry(l: Link, a: nat, id: Id)
    requires LinkOk(l) && a < |l.attempts| && l.attempts[a].result.None? && id in l.pending
    ensures id == l.attempts[a].message.id
  {
    var b := l.pending[id];
    assert l.attempts[b].result.None?;
  }

  /** And it can always settle: while it has not, its timeout is armed, and firing settles it and gives up its channel. */
  lemma TimeoutSettles(links: seq<Link>, i: nat, a: nat)
    requires IsSession(links) && i < |links| && a < |links[i].attempts| && links[i].attempts[a].result.None?
    ensures Possible(links[i], TimeoutFires(a)) && PendingInRange(links[i])
    ensures var l' := Handle(links[i], TimeoutFires(a));
            && l'.attempts[a].result == Some(Rejected)
            && l'.manager.channel != Some(links[i].attempts[a].channel)
            && l'.pending == map[]
  {
    SessionOk(links, i);
    var l := links[i];
    forall id | id in l.pending ensures id == l.attempts[a].message.id { OnlyEntry(l, a, id); }
  }

  /** A late return of a settled attempt marks no one. */
  lemma LateReturnMarksNoOne(links: seq<Link>, i: nat, a: nat, b: nat)
    requires IsSession(links) && i < |links| && Possible(links[i], BrokerReturns(a)) && links[i].attempts[a].result.Some?
    requires b < |links[i].attempts|
    ensures PendingInRange(links[i])
    ensures OnReturn(links[i], a).attempts[b].returnedError == links[i].attempts[b].returnedError
  {
    SessionOk(links, i);
    assert AttemptOk(links[i], links[i].attempts[a]);
  }

  /** Attribution: a returned error marks an attempt only if the broker returned that very attempt. */
  lemma ReturnsAreAttributed(links: seq<Link>, i: nat, a: nat)
    requires IsSession(links) && i < |links| && a < |links[i].attempts| && links[i].attempts[a].returnedError
    ensures links[i].attempts[a].returned
  {
    SessionOk(links, i);
    assert AttemptOk(links[i], links[i].attempts[a]);
  }

  /** A confirmed publish was acknowledged by the broker and never returned, before or after. */
  lemma ConfirmedMeansRouted(links: seq<Link>, i: nat, j: nat, a: nat)
    requires IsSession(links) && i <= j < |links| && a < |links[i].attempts|
    requires links[i].attempts[a].result == Some(Confirmed)
    ensures a < |links[j].attempts| && links[j].attempts[a].acked && !links[j].attempts[a].returned
  {
    SessionGrows(links, i, j);
    SessionOk(links, j);
    assert AttemptOk(links[j], links[j].attempts[a]);
  }

  /** An acknowledgement confirms a publish in flight exactly if the broker has not returned it; a refusal never does. */
  lemma AckConfirmsIff(links: seq<Link>, i: nat, a: nat, ok: bool)
    requires IsSession(links) && i < |links| && Possible(links[i], BrokerAcks(a, ok)) && links[i].attempts[a].result.None?
    requires links[i].attempts[a].channel in links[i].manager.listening
    ensures PendingInRange(links[i])
    ensures var result := Handle(links[i], BrokerAcks(a, ok)).attempts[a].result;
            && (result == Some(Confirmed) <==> ok && !links[i].attempts[a].returned)
            && (result == Some(Rejected) <==> !ok || links[i].attempts[a].returned)
  {
    SessionOk(links, i);
    assert AttemptOk(links[i], links[i].attempts[a]);
  }

  /** A publish in flight on a channel that is gone is rejected by whatever settles it: never confirmed, never lost. */
  lemma LostChannelRejects(links: seq<Link>, i: nat, a: nat, signal: Signal)
    requires IsSession(links) && i < |links| && a < |links[i].attempts| && links[i].attempts[a].result.None?
    requires links[i].attempts[a].channel !in links[i].manager.listening && Possible(links[i], signal)
    ensures PendingInRange(links[i])
    ensures Handle(links[i], signal).attempts[a].result.None?
         || Handle(links[i], signal).attempts[a].result == Some(Rejected)
  {
    SessionOk(links, i);
  }

  /** The pending map is empty exactly when nothing is in flight, and never holds more than one entry. */
  lemma PendingIsInFlight(links: seq<Link>, i: nat)
    requires IsSession(links) && i < |links|
    ensures links[i].pending == map[] <==> Quiet(links[i])
    ensures |links[i].pending| <= 1
  {
    SessionOk(links, i);
    var l := links[i];
    if !Quiet(l) {
      var a :| 0 <= a < |l.attempts| && l.attempts[a].result.None?;
      assert l.attempts[a].message.id in l.pending;
      assert l.pending.Keys == {l.attempts[a].message.id} by {
        forall id | id in l.pending ensures id == l.attempts[a].message.id { OnlyEntry(l, a, id); }
      }
      assert |l.pending| == |l.pending.Keys|;
    } else {
      assert PendingOk(l) && l.pending.Keys == {};
    }
  }

  /** The channel listened to is the current one: a replaced channel forwards nothing. */
  lemma OnlyCurrentChannelListens(links: seq<Link>, i: nat, channel: nat)
    requires IsSession(links) && i < |links|
    ensures channel in links[i].manager.listening <==> links[i].manager.channel == Some(channel)
  {
    SessionOk(links, i);
  }

  /** Losing a channel or connection gives it up when it is current, with all that rests on it, and else changes nothing. */
  lemma LossGivesUp(links: seq<Link>, i: nat, channel: nat, connection: nat)
    requires IsSession(links) && i < |links|
    ensures PendingInRange(links[i])
    ensures var m, m' := links[i].manager, Handle(links[i], ChannelLost(channel, connection)).manager;
            if m.channel == Some(channel) then m'.channel.None? && m'.connection != Some(connection) && m'.listening == {}
            else m' == m
    ensures var m, m' := links[i].manager, Handle(links[i], ConnectionLost(connection)).manager;
            if m.connection == Some(connection) then m'.channel.None? && m'.connection.None? && m'.listening == {}
            else m' == m
  {
    SessionOk(links, i);
  }

  // ----- shutdown -----

  predicate Released(m: Manager) {
    m.closed && !m.connecting && m.channel.None? && m.connection.None?
  }

  lemma ReleasedStays(l: Link, signal: Signal)
    requires LinkOk(l) && Possible(l, signal) && Released(l.manager)
    ensures Released(Handle(l, signal).manager)
  {
  }

  /** `close` marks the manager at once, gives up what it holds at its end, and a connection that opens late is not kept. */
  lemma CloseReleases(links: seq<Link>, i: nat, connection: nat)
    requires IsSession(links) && i < |links|
    ensures PendingInRange(links[i])
    ensures Handle(links[i], CloseBegins).manager.closed
    ensures Possible(links[i], CloseEnds) ==> Released(Handle(links[i], CloseEnds).manager)
    ensures links[i].manager.closed && Possible(links[i], ConnectionOpens(connection)) ==>
      var m := Handle(links[i], ConnectionOpens(connection)).manager; m.connection.None? && !m.connecting
  {
    SessionOk(links, i);
  }

  /** Once `close` has finished, no connection and no channel is ever held again. */
  lemma {:induction false} ClosedHoldsNothing(links: seq<Link>, i: nat, j: nat)
    requires IsSession(links) && i <= j < |links| && Released(links[i].manager)
    ensures Released(links[j].manager) && links[j].manager.listening == {}
    decreases j - i
  {
    SessionOk(links, j);
    if i < j {
      ClosedHoldsNothing(links, i, j - 1);
      SessionOk(links, j - 1);
      assert Follows(links, j - 1);
      var signal :| Possible(links[j - 1], signal) && links[j] == Handle(links[j - 1], signal);
      ReleasedStays(links[j - 1], signal);
    }
  }

  // ----- why publishes must not overlap -----

  /**
   Were two publishes of one event in flight together, the first to settle would drop the other's pending entry,
   and a message the broker returned would then count as confirmed.
   */
  lemma OverlapLosesReturns(message: Message)
    ensures var l := FRESH.(manager := ChannelReady(FRESH.manager, 0), nextChannel := 1);
            var two := Send(Send(l, message, 0), message, 0);
            var settled := OnAck(two, 0, true);
            && PendingInRange(settled)
            && var final := OnAck(OnReturn(settled, 1), 1, true);
               final.attempts[1].returned && final.attempts[1].result == Some(Confirmed)
  {
  }
}
