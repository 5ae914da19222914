/** The router of the broker: connections, channels and offline queues as objects. Each operation
    is the operation of `RouterLines` on the line of the Agent concerned, and leaves the other
    Agents alone. */
module BrokerRouter {
  import opened Types
  import opened Envelope
  import opened RouterLines

  datatype SendError = Full | Closed

  /** A bounded channel; the receiving half may be gone. */
  class Channel {
    const capacity: nat
    var queue: seq<Packet>
    var receiverOpen: bool

    constructor (capacity: nat)
      ensures this.capacity == capacity && queue == [] && receiverOpen
    {
      this.capacity, queue, receiverOpen := capacity, [], true;
    }

    method TrySend(p: Packet) returns (r: Result<(), SendError>)
      modifies this
      ensures receiverOpen == old(receiverOpen)
      ensures r == if !receiverOpen then Err(Closed) else if |old(queue)| >= capacity then Err(Full) else Ok(())
      ensures queue == if r.Ok? then old(queue) + [p] else old(queue)
    {
      if !receiverOpen {
        return Err(Closed);
      }
      if |queue| >= capacity {
        return Err(Full);
      }
      queue := queue + [p];
      return Ok(());
    }

    method TryReceive() returns (p: Option<Packet>)
      modifies this
      ensures receiverOpen == old(receiverOpen)
      ensures old(queue) == Optional(p) + queue && (p.None? ==> queue == [])
    {
      if queue == [] {
        return None;
      }
      p := Some(queue[0]);
      queue := queue[1..];
    }
  }

  /** The registration that a connection task owns. */
  class AgentRegistration {
    const identity: AgentId
    const generation: nat
    var pending: seq<Packet>
    const receiver: Channel

    constructor (identity: AgentId, generation: nat, pending: seq<Packet>, receiver: Channel)
      ensures this.identity == identity && this.generation == generation
      ensures this.pending == pending && this.receiver == receiver
    {
      this.identity, this.generation, this.pending, this.receiver := identity, generation, pending, receiver;
    }

    ghost function Session(): RouterLines.Session
      reads this, receiver
    {
      RouterLines.Session(generation, pending, receiver.queue)
    }

    /** The captured packets first, then the live ones. */
    method TryReceive() returns (p: Option<Packet>)
      modifies this, receiver
      ensures p.Some? <==> Received(old(Session())).Some?
      ensures p.Some? ==> Received(old(Session())) == Some((p.value, Session()))
      ensures old(pending + receiver.queue) == Optional(p) + (pending + receiver.queue)
      ensures p.None? ==> old(pending + receiver.queue) == []
      ensures p.None? ==> Session() == old(Session())
      ensures receiver.receiverOpen == old(receiver.receiverOpen)
    {
      if pending != [] {
        p := Some(pending[0]);
        pending := pending[1..];
        return;
      }
      p := receiver.TryReceive();
    }
  }

  class MemoryOfflineQueueStore {
    const depth: nat
    var queues: map<AgentId, seq<Packet>>

    constructor (depth: nat)
      ensures this.depth == depth && queues == map[]
    {
      this.depth, queues := depth, map[];
    }

    ghost function QueueOf(identity: AgentId): seq<Packet>
      reads this
    {
      if identity in queues then queues[identity] else []
    }

    /** The queues of the other identities are as they were. */
    twostate predicate OthersKept(identity: AgentId)
      reads this
    {
      forall a :: a != identity ==> QueueOf(a) == old(QueueOf(a))
    }

    method Enqueue(identity: AgentId, p: Packet) returns (r: Result<(), RouteError>)
      modifies this
      ensures r == if |old(QueueOf(identity))| >= depth then Err(OfflineQueueFull) else Ok(())
      ensures QueueOf(identity) == if r.Ok? then old(QueueOf(identity)) + [p] else old(QueueOf(identity))
      ensures OthersKept(identity)
    {
      if depth == 0 {
        return Err(OfflineQueueFull);
      }
      var queue := if identity in queues then queues[identity] else [];
      queues := queues[identity := queue];
      if |queue| >= depth {
        return Err(OfflineQueueFull);
      }
      queues := queues[identity := queue + [p]];
      return Ok(());
    }

    method TakeAll(identity: AgentId) returns (queue: seq<Packet>)
      modifies this
      ensures queue == old(QueueOf(identity)) && QueueOf(identity) == [] && OthersKept(identity)
    {
      queue := if identity in queues then queues[identity] else [];
      queues := queues - {identity};
    }

    method Prepend(identity: AgentId, packets: seq<Packet>) returns (r: Result<(), RouteError>)
      modifies this
      ensures QueueOf(identity) == Truncated(packets + old(QueueOf(identity)), depth) && OthersKept(identity)
      ensures r == if |packets + old(QueueOf(identity))| > depth then Err(OfflineQueueFull) else Ok(())
      ensures QueueOf(identity) <= packets + old(QueueOf(identity))
      ensures r.Ok? ==> QueueOf(identity) == packets + old(QueueOf(identity))
      ensures r.Err? ==> |QueueOf(identity)| == depth
    {
      var all := packets + if identity in queues then queues[identity] else [];
      queues := queues - {identity};
      var overflowed := |all| > depth;
      if overflowed {
        all := all[..depth];
      }
      if all != [] {
        queues := queues[identity := all];
      }
      if overflowed {
        return Err(OfflineQueueFull);
      }
      return Ok(());
    }
  }

  datatype Connection = Connection(generation: nat, sender: Channel)

  class BrokerRouter {
    var connections: map<AgentId, Connection>
    const maximum: nat
    const onlineDepth: nat
    const offline: MemoryOfflineQueueStore
    var generation: nat

    constructor (maximum: nat, onlineDepth: nat, offlineDepth: nat)
      ensures connections == map[] && generation == 1 && fresh(offline) && offline.queues == map[]
      ensures this.maximum == maximum && this.onlineDepth == onlineDepth && offline.depth == offlineDepth
    {
      connections, generation := map[], 1;
      this.maximum, this.onlineDepth := maximum, onlineDepth;
      offline := new MemoryOfflineQueueStore(offlineDepth);
    }

    /** The registration is the one behind the connection of its identity. */
    ghost predicate Serves(registration: AgentRegistration)
      reads this
    {
      registration.identity in connections
      && connections[registration.identity] == Connection(registration.generation, registration.receiver)
    }

    ghost function Depths(): RouterLines.Depths { RouterLines.Depths(onlineDepth, offline.depth) }

    /** The line of an Agent without a connection. */
    ghost function AwayLine(identity: AgentId): Line
      reads offline
    {
      Line(None, offline.QueueOf(identity))
    }

    /** The line of the Agent that a registration serves. */
    ghost function LiveLine(registration: AgentRegistration): Line
      reads registration, registration.receiver, offline
    {
      Line(Some(registration.Session()), offline.QueueOf(registration.identity))
    }

    method Register(identity: AgentId) returns (r: Result<AgentRegistration, RouteError>)
      modifies this, offline
      ensures r.Err? <==>
        identity == CA || maximum == 0 || onlineDepth == 0 || identity in old(connections)
          || |old(connections)| >= maximum
      ensures r == Err(ReservedIdentity) <==> identity == CA
      ensures r == Err(DuplicateConnection) <==>
        identity != CA && maximum > 0 && onlineDepth > 0 && identity in old(connections)
      ensures r.Err? ==> r.error == ReservedIdentity || r.error == DuplicateConnection || r.error == ConnectionLimit
      ensures r.Err? ==>
        connections == old(connections) && offline.queues == old(offline.queues) && generation == old(generation)
      ensures r.Ok? ==> fresh(r.value) && fresh(r.value.receiver) && r.value.identity == identity && Serves(r.value)
      ensures r.Ok? ==> r.value.receiver.receiverOpen && r.value.receiver.capacity == onlineDepth
      ensures r.Ok? ==>
        && r.value.generation == old(generation) && r.value.receiver.queue == []
        && r.value.pending == old(offline.QueueOf(identity)) && offline.QueueOf(identity) == []
      ensures r.Ok? ==>
        connections == old(connections)[identity := connections[identity]] && generation == old(generation) + 1
      ensures r.Ok? ==>
        LiveLine(r.value) == Registered(old(AwayLine(identity)), old(generation)) && offline.OthersKept(identity)
    {
      if identity == CA {
        return Err(ReservedIdentity);
      }
      if maximum == 0 || onlineDepth == 0 {
        return Err(ConnectionLimit);
      }
      if identity in connections {
        return Err(DuplicateConnection);
      }
      if |connections| >= maximum {
        return Err(ConnectionLimit);
      }
      var token := generation;
      generation := generation + 1;
      var channel := new Channel(onlineDepth);
      connections := connections[identity := Connection(token, channel)];
      var pending := offline.TakeAll(identity);
      var registration := new AgentRegistration(identity, token, pending, channel);
      return Ok(registration);
    }

    /** Ends the service of the registration with this identity and token, and of no other: a stale
        token ends none. Every connection that stays is as it was. */
    method Unregister(identity: AgentId, token: nat, ghost any: AgentRegistration)
      modifies this`connections
      ensures Serves(any) <==> old(Serves(any)) && !(any.identity == identity && any.generation == token)
      ensures forall id :: id in connections ==> id in old(connections) && connections[id] == old(connections)[id]
      ensures forall id :: id in old(connections) && id !in connections ==>
        id == identity && old(connections)[id].generation == token
      ensures identity in connections ==> connections[identity].generation != token
    {
      if identity in connections && connections[identity].generation == token {
        connections := connections - {identity};
      }
    }

    /** Returns everything unsent to the front of the offline queue; a stale registration changes nothing. */
    method DisconnectAndRequeue(registration: AgentRegistration, first: Option<Packet>)
      returns (r: Result<(), RouteError>)
      requires registration.identity in connections
        && connections[registration.identity].generation == registration.generation
        ==> Serves(registration)
      modifies this, registration, registration.receiver, offline
      ensures !old(Serves(registration)) ==>
        r == Ok(()) && connections == old(connections) && registration.Session() == old(registration.Session())
        && offline.queues == old(offline.queues)
      ensures old(Serves(registration)) ==>
        connections == old(connections) - {registration.identity}
        && AwayLine(registration.identity) == Requeued(old(LiveLine(registration)), Depths(), first)
        && r == (if Overflows(old(LiveLine(registration)), Depths(), first) then Err(OfflineQueueFull) else Ok(()))
        && offline.OthersKept(registration.identity)
      ensures old(Serves(registration)) ==>
        var unsent := Optional(first) + old(registration.pending) + old(registration.receiver.queue)
          + old(offline.QueueOf(registration.identity));
        && offline.QueueOf(registration.identity) <= unsent
        && |offline.QueueOf(registration.identity)| == (if |unsent| > offline.depth then offline.depth else |unsent|)
        && r == if |unsent| > offline.depth then Err(OfflineQueueFull) else Ok(())
      ensures generation == old(generation)
    {
      var unsent := Optional(first);
      if registration.identity !in connections
        || connections[registration.identity].generation != registration.generation {
        return Ok(());
      }
      connections := connections - {registration.identity};
      var drained := Drain(registration);
      unsent := unsent + drained;
      UnsentIsWaiting(old(LiveLine(registration)), first, drained);
      r := offline.Prepend(registration.identity, unsent);
    }

    /** The half of a routing under the lock: `registration` is the one that serves the recipient, if
        it is connected. A connection whose receiver is gone counts as none, and is removed. No
        result means that the packet is still to be stored. */
    method RouteLive(recipient: AgentId, frame: Packet, ghost registration: AgentRegistration?)
      returns (r: Option<Result<(), RouteError>>)
      requires registration != null ==>
        Serves(registration) && registration.identity == recipient && registration.receiver.capacity == onlineDepth
      requires registration != null <==> recipient in connections
      modifies this`connections, if registration == null then {} else {registration.receiver}
      ensures r.Some? <==> registration != null && old(registration.receiver.receiverOpen)
      ensures r.Some? ==>
        && connections == old(connections)
        && Delivered(Routed(old(LiveLine(registration)), Depths(), frame), r.value,
             old(LiveLine(registration)), LiveLine(registration))
      ensures r.Some? ==>
        && (r == Some(Err(OnlineQueueFull)) <==> |old(registration.receiver.queue)| >= onlineDepth)
        && (r == Some(Ok(())) <==> |old(registration.receiver.queue)| < onlineDepth)
        && registration.receiver.queue == old(registration.receiver.queue) + (if r.value.Ok? then [frame] else [])
      ensures r.None? ==> connections == old(connections) - {recipient}
      ensures r.None? && registration != null ==> LiveLine(registration) == old(LiveLine(registration))
    {
      if recipient in connections {
        var sent := connections[recipient].sender.TrySend(frame);
        match sent {
          case Ok(_) => return Some(Ok(()));
          case Err(Full) => return Some(Err(OnlineQueueFull));
          case Err(Closed) => connections := connections - {recipient};
        }
      }
      assert connections == old(connections) - {recipient};
      return None;
    }

    /** The half after the lock is released, when the Agent may have registered in between: the
        packet is stored, connected or not. */
    method StoreDelivery(recipient: AgentId, frame: Packet, ghost later: AgentRegistration?)
      returns (r: Result<(), RouteError>)
      requires later != null ==> later.identity == recipient
      modifies offline
      ensures Delivered(Stored(old(AwayLine(recipient)), Depths(), frame), r, old(AwayLine(recipient)),
        AwayLine(recipient))
      ensures later != null ==>
        Delivered(Stored(old(LiveLine(later)), Depths(), frame), r, old(LiveLine(later)), LiveLine(later))
      ensures offline.OthersKept(recipient)
      ensures r == Err(OfflineQueueFull) <==> |old(offline.QueueOf(recipient))| >= offline.depth
      ensures r == Ok(()) <==> |old(offline.QueueOf(recipient))| < offline.depth
      ensures offline.QueueOf(recipient) == old(offline.QueueOf(recipient)) + if r.Ok? then [frame] else []
    {
      r := offline.Enqueue(recipient, frame);
    }

    /** Both halves with nothing in between. */
    method RouteCaDelivery(frame: Packet, ghost registration: AgentRegistration?)
      returns (r: Result<(), RouteError>)
      requires registration != null ==> Serves(registration) && registration.receiver.capacity == onlineDepth
      requires var e := ParseEnvelope(frame); e.Ok? ==>
        && (registration != null <==> e.value.header.recipient in connections)
        && (registration != null ==> registration.identity == e.value.header.recipient)
      modifies this, offline, if registration == null then {} else {registration.receiver}
      ensures generation == old(generation)
      ensures !DeliveryFrame(frame) ==> connections == old(connections) && offline.queues == old(offline.queues)
      ensures ParseEnvelope(frame).Err? ==> r == Err(Protocol(ParseEnvelope(frame).error))
      ensures ParseEnvelope(frame).Ok? && !DeliveryFrame(frame) ==> r == Err(Protocol(WrongMessageType))
      ensures DeliveryFrame(frame) ==> offline.OthersKept(ParseEnvelope(frame).value.header.recipient)
      ensures DeliveryFrame(frame) && registration != null && old(registration.receiver.receiverOpen) ==>
        && connections == old(connections)
        && Delivered(Routed(old(LiveLine(registration)), Depths(), frame), r,
             old(LiveLine(registration)), LiveLine(registration))
      ensures DeliveryFrame(frame) && (registration == null || !old(registration.receiver.receiverOpen)) ==>
        var recipient := ParseEnvelope(frame).value.header.recipient;
        && connections == old(connections) - {recipient}
        && Delivered(Routed(old(AwayLine(recipient)), Depths(), frame), r, old(AwayLine(recipient)),
             AwayLine(recipient))
      ensures DeliveryFrame(frame) && registration != null && old(registration.receiver.receiverOpen) ==>
        && (r == Err(OnlineQueueFull) <==> |old(registration.receiver.queue)| >= onlineDepth)
        && (r == Ok(()) <==> |old(registration.receiver.queue)| < onlineDepth)
        && registration.receiver.queue == old(registration.receiver.queue) + if r.Ok? then [frame] else []
      ensures DeliveryFrame(frame) && (registration == null || !old(registration.receiver.receiverOpen)) ==>
        var recipient := ParseEnvelope(frame).value.header.recipient;
        && (r == Err(OfflineQueueFull) <==> |old(offline.QueueOf(recipient))| >= offline.depth)
        && (r == Ok(()) <==> |old(offline.QueueOf(recipient))| < offline.depth)
        && offline.QueueOf(recipient) == old(offline.QueueOf(recipient)) + if r.Ok? then [frame] else []
    {
      hide ParseEnvelope;
      var envelope := ParseEnvelope(frame);
      if envelope.Err? {
        return Err(Protocol(envelope.error));
      }
      var h := envelope.value.header;
      if h.sender != CA || h.recipient == CA || h.messageType != MessageType.PublicationResponse {
        return Err(Protocol(WrongMessageType));
      }
      var live := RouteLive(h.recipient, frame, registration);
      if live.Some? {
        return live.value;
      }
      r := StoreDelivery(h.recipient, frame, null);
    }
  }

  /** Takes everything from a registration. */
  method Drain(registration: AgentRegistration) returns (unsent: seq<Packet>)
    modifies registration, registration.receiver
    ensures unsent == old(registration.pending + registration.receiver.queue)
    ensures registration.pending + registration.receiver.queue == []
  {
    unsent := [];
    ghost var live := registration.pending + registration.receiver.queue;
    var frame := registration.TryReceive();
    while frame.Some?
      invariant live == unsent + Optional(frame) + (registration.pending + registration.receiver.queue)
      invariant frame.None? ==> registration.pending + registration.receiver.queue == []
      decreases |registration.pending + registration.receiver.queue| + |Optional(frame)|
    {
      unsent := unsent + [frame.value];
      frame := registration.TryReceive();
    }
  }

  lemma UnsentIsWaiting(l: Line, first: Option<Packet>, drained: seq<Packet>)
    requires l.session.Some? && drained == l.session.value.pending + l.session.value.channel
    ensures Optional(first) + drained + l.offline == Optional(first) + Waiting(l)
  {
  }

  /** A well-formed publication response from the CA to an Agent. */
  predicate DeliveryFrame(frame: Packet) {
    ParseEnvelope(frame).Ok? && IsDelivery(ParseEnvelope(frame).value.header)
  }

  predicate IsDelivery(h: Header) {
    h.sender == CA && h.recipient != CA && h.messageType == MessageType.PublicationResponse
  }

  /** The line is that after a successful routing, or as before. */
  ghost predicate Delivered(step: Result<Line, RouteError>, r: Result<(), RouteError>, before: Line, after: Line) {
    if step.Ok? then r == Ok(()) && after == step.value else r == Err(step.error) && after == before
  }
}
