/** The deliveries waiting for one Agent: captured and live ones of its connection, and those stored
    while it is away. */
module RouterLines {
  import opened Bytes
  import opened Types

  type Packet = seq<byte>

  datatype RouteError =
    | Protocol(error: Error) | ReservedIdentity | DuplicateConnection | ConnectionLimit
    | CaQueueFull | OnlineQueueFull | OfflineQueueFull

  /** The captured queue, taken first, and the bounded channel. */
  datatype Session = Session(generation: nat, pending: seq<Packet>, channel: seq<Packet>)

  datatype Line = Line(session: Option<Session>, offline: seq<Packet>)

  datatype Depths = Depths(online: nat, offline: nat)

  function Truncated<T>(s: seq<T>, depth: nat): seq<T> { if |s| > depth then s[..depth] else s }

  function Optional<T>(o: Option<T>): seq<T> { if o.Some? then [o.value] else [] }

  /** Everything that waits, oldest first. */
  function Waiting(l: Line): seq<Packet> {
    (if l.session.Some? then l.session.value.pending + l.session.value.channel else []) + l.offline
  }

  function Registered(l: Line, generation: nat): Line
    requires l.session.None?
  {
    Line(Some(Session(generation, l.offline, [])), [])
  }

  function Stored(l: Line, depths: Depths, p: Packet): Result<Line, RouteError> {
    if |l.offline| >= depths.offline then Err(OfflineQueueFull) else Ok(l.(offline := l.offline + [p]))
  }

  function Routed(l: Line, depths: Depths, p: Packet): Result<Line, RouteError> {
    match l.session
    case Some(s) =>
      if |s.channel| >= depths.online then Err(OnlineQueueFull)
      else Ok(l.(session := Some(s.(channel := s.channel + [p]))))
    case None => Stored(l, depths, p)
  }

  /** The next packet of a session, and what is left of it. */
  function Received(s: Session): Option<(Packet, Session)> {
    if s.pending != [] then Some((s.pending[0], s.(pending := s.pending[1..])))
    else if s.channel != [] then Some((s.channel[0], s.(channel := s.channel[1..])))
    else None
  }

  /** The unsent packets of a connection go in front of what is stored; the newest are cut off. */
  function Requeued(l: Line, depths: Depths, first: Option<Packet>): Line {
    Line(None, Truncated(Optional(first) + Waiting(l), depths.offline))
  }

  predicate Overflows(l: Line, depths: Depths, first: Option<Packet>) {
    |Optional(first) + Waiting(l)| > depths.offline
  }

  // ----- whole runs -----

  /** A line with its history. `held` is the packet that the connection task has taken and is
      writing; `transmitted` were written; `accepted` were routed with success; `dropped` were cut
      off by requeues; `kept` is `accepted` cut likewise; `next` is the next generation. `inTransit`
      is a packet on its way to the offline store, outside the lock of the router. */
  datatype Feed = Feed(
    line: Line, held: Option<Packet>, next: nat, inTransit: Option<Packet>,
    transmitted: seq<Packet>, accepted: seq<Packet>, kept: seq<Packet>, dropped: seq<Packet>)

  const START: Feed := Feed(Line(None, []), None, 1, None, [], [], [], [])

  datatype Action =
    | Register
    | Route(packet: Packet)
    | Receive
    | Transmit
    | Disconnect(generation: nat, undelivered: bool)
    | BeginRoute(packet: Packet)
    | EndRoute

  /** A task disconnects with the packet it failed to write, if any. */
  predicate Enabled(f: Feed, a: Action) {
    match a
    case Register => f.line.session.None?
    case Route(_) => f.inTransit.None?
    case Receive => f.line.session.Some? && f.held.None? && Received(f.line.session.value).Some?
    case Transmit => f.line.session.Some? && f.held.Some?
    case Disconnect(generation, undelivered) =>
      generation < f.next && (Current(f, generation) ==> (undelivered <==> f.held.Some?))
    case BeginRoute(_) => f.inTransit.None? && f.line.session.None?
    case EndRoute => f.inTransit.Some?
  }

  predicate Current(f: Feed, generation: nat) {
    f.line.session.Some? && f.line.session.value.generation == generation
  }

  function Accept(f: Feed, after: Result<Line, RouteError>, p: Packet): Feed {
    if after.Ok? then f.(line := after.value, accepted := f.accepted + [p], kept := f.kept + [p]) else f
  }

  function Cut<T>(s: seq<T>, depth: nat): seq<T> { if |s| > depth then s[depth..] else [] }

  function Disconnected(f: Feed, depths: Depths): Feed {
    f.(line := Requeued(f.line, depths, f.held), held := None,
       kept := Truncated(f.kept, |f.transmitted| + depths.offline),
       dropped := f.dropped + Cut(Optional(f.held) + Waiting(f.line), depths.offline))
  }

  function Step(f: Feed, depths: Depths, a: Action): Feed
    requires Enabled(f, a)
  {
    match a
    case Register => f.(line := Registered(f.line, f.next), next := f.next + 1)
    case Route(p) => Accept(f, Routed(f.line, depths, p), p)
    case Receive =>
      var (p, s) := Received(f.line.session.value).value;
      f.(line := f.line.(session := Some(s)), held := Some(p))
    case Transmit => f.(held := None, transmitted := f.transmitted + [f.held.value])
    case Disconnect(generation, _) =>
      if Current(f, generation) then Disconnected(f, depths) else f
    case BeginRoute(p) => f.(inTransit := Some(p))
    case EndRoute => Accept(f.(inTransit := None), Stored(f.line, depths, f.inTransit.value), f.inTransit.value)
  }

  // ----- what is accepted -----

  /** A routing finds room: fewer packets than the depth wait in the live channel, if there is a
      connection, and in the offline store otherwise. A packet in transit is stored even if there is a
      connection by then. */
  predicate FindsRoom(f: Feed, depths: Depths, a: Action) {
    match a
    case Route(_) =>
      if f.line.session.Some? then |f.line.session.value.channel| < depths.online else |f.line.offline| < depths.offline
    case EndRoute => |f.line.offline| < depths.offline
    case _ => true
  }

  /** The packet that the step offers for routing. */
  function Offered(f: Feed, a: Action): seq<Packet>
    requires Enabled(f, a)
  {
    match a case Route(p) => [p] case EndRoute => [f.inTransit.value] case _ => []
  }

  /** A packet is accepted exactly if there is room for it; it then goes to the end of its queue. */
  lemma AcceptedIfRoom(f: Feed, depths: Depths, a: Action)
    requires Enabled(f, a)
    ensures var g := Step(f, depths, a);
      g.accepted == f.accepted + if FindsRoom(f, depths, a) then Offered(f, a) else []
    ensures var g := Step(f, depths, a);
      a.Route? && f.line.session.Some? ==>
        && g.line.session.Some? && g.line.offline == f.line.offline
        && g.line.session.value.pending == f.line.session.value.pending
        && g.line.session.value.channel
           == f.line.session.value.channel + if FindsRoom(f, depths, a) then Offered(f, a) else []
    ensures var g := Step(f, depths, a);
      (a.Route? && f.line.session.None?) || a.EndRoute? ==>
        && g.line.session == f.line.session
        && g.line.offline == f.line.offline + if FindsRoom(f, depths, a) then Offered(f, a) else []
  {
  }

  /** Everything that the run offers, in order. */
  function AllOffered(f: Feed, depths: Depths, actions: seq<Action>): seq<Packet>
    requires Runs(f, depths, actions)
    decreases |actions|
  {
    if actions == [] then []
    else Offered(f, actions[0]) + AllOffered(Step(f, depths, actions[0]), depths, actions[1..])
  }

  /** Every routing of the run finds room. */
  predicate RoomThroughout(f: Feed, depths: Depths, actions: seq<Action>)
    requires Runs(f, depths, actions)
    decreases |actions|
  {
    actions != [] ==>
      FindsRoom(f, depths, actions[0]) && RoomThroughout(Step(f, depths, actions[0]), depths, actions[1..])
  }

  /** Over all runs: everything offered is accepted, in order, if and only if every routing finds
      fewer packets than the depth in the queue concerned. */
  lemma {:induction false} AcceptanceIsExact(f: Feed, depths: Depths, actions: seq<Action>)
    requires Runs(f, depths, actions)
    ensures |Outcome(f, depths, actions).accepted| <= |f.accepted| + |AllOffered(f, depths, actions)|
    ensures RoomThroughout(f, depths, actions) <==>
      Outcome(f, depths, actions).accepted == f.accepted + AllOffered(f, depths, actions)
    decreases |actions|
  {
    hide Step, Enabled, FindsRoom;
    if actions == [] {
      assert f.accepted + [] == f.accepted;
    } else {
      var a := actions[0];
      var g := Step(f, depths, a);
      AcceptedIfRoom(f, depths, a);
      NothingOffered(f, depths, a);
      AcceptanceIsExact(g, depths, actions[1..]);
      assert f.accepted + (Offered(f, a) + AllOffered(g, depths, actions[1..]))
        == f.accepted + Offered(f, a) + AllOffered(g, depths, actions[1..]);
    }
  }

  lemma NothingOffered(f: Feed, depths: Depths, a: Action)
    requires Enabled(f, a)
    ensures !FindsRoom(f, depths, a) ==> |Offered(f, a)| == 1
  {
  }

  predicate Runs(f: Feed, depths: Depths, actions: seq<Action>)
    decreases |actions|
  {
    actions != [] ==> Enabled(f, actions[0]) && Runs(Step(f, depths, actions[0]), depths, actions[1..])
  }

  function Outcome(f: Feed, depths: Depths, actions: seq<Action>): Feed
    requires Runs(f, depths, actions)
    decreases |actions|
  {
    if actions == [] then f else Outcome(Step(f, depths, actions[0]), depths, actions[1..])
  }

  /** No Agent connects while a packet for it is between the look for its connection and the storing. */
  predicate Undisturbed(f: Feed, depths: Depths, actions: seq<Action>)
    requires Runs(f, depths, actions)
    decreases |actions|
  {
    actions != [] ==>
      (actions[0].Register? ==> f.inTransit.None?) && Undisturbed(Step(f, depths, actions[0]), depths, actions[1..])
  }

  /** What is kept has been transmitted, is held or waits, in this order. */
  predicate OrderHolds(f: Feed) { f.kept == f.transmitted + Optional(f.held) + Waiting(f.line) }

  /** The order holds; while connected, nothing is stored or about to be. */
  predicate InOrder(f: Feed) {
    && OrderHolds(f)
    && (f.line.session.Some? ==> f.line.offline == [] && f.inTransit.None?)
    && (f.line.session.None? ==> f.held.None?)
  }

  /** What was accepted has been transmitted, is held, waits or was cut off; nothing twice. */
  predicate Conserved(f: Feed) {
    && multiset(f.accepted)
         == multiset(f.transmitted) + multiset(Optional(f.held)) + multiset(Waiting(f.line)) + multiset(f.dropped)
    && (f.line.session.None? ==> f.held.None?)
  }

  lemma RoutedWaits(l: Line, depths: Depths, p: Packet)
    requires l.session.Some? ==> l.offline == []
    ensures Routed(l, depths, p).Ok? ==>
      var after := Routed(l, depths, p).value;
      Waiting(after) == Waiting(l) + [p] && (after.session.Some? <==> l.session.Some?)
        && (after.session.Some? ==> after.offline == [])
  {
  }

  lemma ReceivedWaited(l: Line)
    requires l.session.Some? && Received(l.session.value).Some?
    ensures var (p, s) := Received(l.session.value).value; Waiting(l) == [p] + Waiting(l.(session := Some(s)))
  {
  }

  lemma DisconnectKeepsOrder(f: Feed, depths: Depths)
    requires InOrder(f)
    ensures InOrder(Disconnected(f, depths))
  {
  }

  lemma StepKeepsOrder(f: Feed, depths: Depths, a: Action)
    requires InOrder(f) && Enabled(f, a) && (a.Register? ==> f.inTransit.None?)
    ensures InOrder(Step(f, depths, a))
  {
    match a {
      case Register => RegisterKeepsWaiting(f.line, f.next);
      case Route(p) =>
        hide Waiting, Routed;
        RoutedWaits(f.line, depths, p);
      case Receive =>
        hide Waiting;
        ReceivedWaited(f.line);
      case Transmit =>
        hide Waiting;
      case Disconnect(generation, _) =>
        hide Disconnected;
        DisconnectKeepsOrder(f, depths);
      case BeginRoute(_) =>
        hide Waiting;
      case EndRoute =>
        hide Waiting, Routed;
        RoutedWaits(f.line, depths, f.inTransit.value);
        StoredIsRouted(f.line, depths, f.inTransit.value);
    }
  }

  lemma StoredIsRouted(l: Line, depths: Depths, p: Packet)
    requires l.session.None?
    ensures Stored(l, depths, p) == Routed(l, depths, p)
  {
  }

  lemma RegisterKeepsWaiting(l: Line, generation: nat)
    requires l.session.None?
    ensures Waiting(Registered(l, generation)) == Waiting(l)
  {
  }

  /** The oldest packets stay, as many as the depth allows, and the others are cut off. */
  lemma CutIsExact(s: seq<Packet>, depth: nat)
    ensures Truncated(s, depth) + Cut(s, depth) == s
    ensures |Truncated(s, depth)| == if |s| > depth then depth else |s|
  {
  }

  /** A requeue puts the packet that could not be written in front of what was captured, of what was
      in the channel, and of what was stored; it loses packets exactly if they are more than the depth. */
  lemma RequeueIsExact(f: Feed, depths: Depths)
    requires f.line.session.Some?
    ensures var g, s := Disconnected(f, depths), f.line.session.value;
      var unsent := Optional(f.held) + s.pending + s.channel + f.line.offline;
      && g.line.session.None? && g.held.None? && g.line.offline <= unsent
      && |g.line.offline| == (if |unsent| > depths.offline then depths.offline else |unsent|)
      && g.dropped == f.dropped + unsent[|g.line.offline|..]
      && (g.dropped == f.dropped <==> |unsent| <= depths.offline)
  {
    var s := f.line.session.value;
    var unsent := Optional(f.held) + s.pending + s.channel + f.line.offline;
    assert unsent == Optional(f.held) + Waiting(f.line);
    CutIsExact(unsent, depths.offline);
  }

  lemma CutSplits(s: seq<Packet>, depth: nat)
    ensures multiset(s) == multiset(Truncated(s, depth)) + multiset(Cut(s, depth))
  {
    assert s == Truncated(s, depth) + Cut(s, depth);
  }

  lemma RequeuedWaits(l: Line, depths: Depths, first: Option<Packet>)
    ensures Waiting(Requeued(l, depths, first)) == Truncated(Optional(first) + Waiting(l), depths.offline)
  {
  }

  lemma DisconnectConserves(f: Feed, depths: Depths)
    requires Conserved(f)
    ensures Conserved(Disconnected(f, depths))
  {
    hide Truncated, Cut, Waiting, Requeued;
    var unsent := Optional(f.held) + Waiting(f.line);
    RequeuedWaits(f.line, depths, f.held);
    RequeuedIsOffline(f.line, depths, f.held);
    CutSplits(unsent, depths.offline);
    var next, cut := Disconnected(f, depths), Cut(unsent, depths.offline);
    assert multiset(next.dropped) == multiset(f.dropped) + multiset(cut);
    assert multiset(Optional(next.held)) == multiset{};
    Balance(multiset(f.transmitted), multiset(Optional(f.held)), multiset(Waiting(f.line)), multiset(f.dropped),
      multiset(Waiting(next.line)), multiset(cut));
  }

  lemma Balance(transmitted: multiset<Packet>, held: multiset<Packet>, waiting: multiset<Packet>,
                dropped: multiset<Packet>,
                kept: multiset<Packet>, cut: multiset<Packet>)
    requires held + waiting == kept + cut
    ensures transmitted + held + waiting + dropped == transmitted + multiset{} + kept + (dropped + cut)
  {
    assert transmitted + held + waiting + dropped == transmitted + (held + waiting) + dropped;
  }

  lemma RequeuedIsOffline(l: Line, depths: Depths, first: Option<Packet>)
    ensures Requeued(l, depths, first).session.None?
  {
  }

  lemma AcceptConserves(f: Feed, after: Result<Line, RouteError>, p: Packet)
    requires Conserved(f) && (after.Ok? ==> multiset(Waiting(after.value)) == multiset(Waiting(f.line)) + multiset([p]))
    requires after.Ok? ==> (after.value.session.Some? <==> f.line.session.Some?)
    ensures Conserved(Accept(f, after, p))
  {
  }

  lemma ReceiveConserves(f: Feed, depths: Depths)
    requires Conserved(f) && Enabled(f, Receive)
    ensures Conserved(Step(f, depths, Receive))
  {
    hide Waiting;
    ReceivedWaited(f.line);
  }

  lemma StepConserves(f: Feed, depths: Depths, a: Action)
    requires Conserved(f) && Enabled(f, a)
    ensures Conserved(Step(f, depths, a))
  {
    hide Waiting, Disconnected, Routed, Stored;
    match a {
      case Register => RegisterKeepsWaiting(f.line, f.next);
      case Route(p) => RouteConserves(f, depths, p);
      case Receive => ReceiveConserves(f, depths);
      case Transmit =>
      case Disconnect(generation, _) => DisconnectConserves(f, depths);
      case BeginRoute(_) =>
      case EndRoute => EndRouteConserves(f, depths);
    }
  }

  lemma RouteConserves(f: Feed, depths: Depths, p: Packet)
    requires Conserved(f)
    ensures Conserved(Accept(f, Routed(f.line, depths, p), p))
  {
    hide Waiting;
    if Routed(f.line, depths, p).Ok? {
      WaitingGrows(f.line, Routed(f.line, depths, p).value, p);
    }
    AcceptConserves(f, Routed(f.line, depths, p), p);
  }

  lemma EndRouteConserves(f: Feed, depths: Depths)
    requires Conserved(f) && f.inTransit.Some?
    ensures Conserved(Step(f, depths, EndRoute))
  {
    hide Waiting;
    var p := f.inTransit.value;
    if Stored(f.line, depths, p).Ok? {
      WaitingGrows(f.line, Stored(f.line, depths, p).value, p);
    }
    AcceptConserves(f.(inTransit := None), Stored(f.line, depths, p), p);
  }

  /** Accepting adds one packet to those that wait. */
  lemma WaitingGrows(before: Line, after: Line, p: Packet)
    requires after == before.(offline := before.offline + [p])
      || (before.session.Some?
        && after == before.(session := Some(before.session.value.(channel := before.session.value.channel + [p]))))
    ensures multiset(Waiting(after)) == multiset(Waiting(before)) + multiset([p])
  {
  }

  lemma {:induction false} UndisturbedRunsKeepOrder(f: Feed, depths: Depths, actions: seq<Action>)
    requires Runs(f, depths, actions) && Undisturbed(f, depths, actions) && InOrder(f)
    ensures InOrder(Outcome(f, depths, actions))
    decreases |actions|
  {
    if actions != [] {
      StepKeepsOrder(f, depths, actions[0]);
      UndisturbedRunsKeepOrder(Step(f, depths, actions[0]), depths, actions[1..]);
    }
  }

  /** Through any number of disconnects and reconnects, an Agent is sent what was routed to it, in
      order and without gaps, but for what a requeue cuts off at the end. Routings may be interrupted,
      as long as the Agent does not connect in between. */
  lemma DeliveredInOrder(depths: Depths, actions: seq<Action>)
    requires Runs(START, depths, actions) && Undisturbed(START, depths, actions)
    ensures var f := Outcome(START, depths, actions);
      InOrder(f) && f.transmitted <= f.kept && (f.dropped == [] ==> f.kept == f.accepted)
  {
    UndisturbedRunsKeepOrder(START, depths, actions);
    NothingDropped(START, depths, actions);
    var f := Outcome(START, depths, actions);
    assert f.kept == f.transmitted + (Optional(f.held) + Waiting(f.line));
  }

  lemma {:induction false} NothingDropped(f: Feed, depths: Depths, actions: seq<Action>)
    requires Runs(f, depths, actions) && Undisturbed(f, depths, actions) && InOrder(f)
    requires (f.dropped == [] ==> f.kept == f.accepted)
    ensures var g := Outcome(f, depths, actions);
      (g.dropped == [] ==> g.kept == g.accepted) && (f.dropped != [] ==> g.dropped != [])
    decreases |actions|
  {
    if actions != [] {
      StepKeepsOrder(f, depths, actions[0]);
      NothingDropped(Step(f, depths, actions[0]), depths, actions[1..]);
    }
  }

  // ----- the order is kept by exactly the undisturbed runs -----

  /** The order holds here and after every undisturbed continuation. */
  ghost predicate OrderAhead(f: Feed, depths: Depths) {
    forall more :: Runs(f, depths, more) && Undisturbed(f, depths, more) ==> OrderHolds(Outcome(f, depths, more))
  }

  /** At every state of the run. */
  ghost predicate OrderThroughout(f: Feed, depths: Depths, actions: seq<Action>)
    requires Runs(f, depths, actions)
    decreases |actions|
  {
    OrderAhead(f, depths) && (actions != [] ==> OrderThroughout(Step(f, depths, actions[0]), depths, actions[1..]))
  }

  lemma OrderStaysAhead(f: Feed, depths: Depths)
    requires InOrder(f)
    ensures OrderAhead(f, depths)
  {
    hide InOrder;
    forall more | Runs(f, depths, more) && Undisturbed(f, depths, more) ensures OrderHolds(Outcome(f, depths, more)) {
      UndisturbedRunsKeepOrder(f, depths, more);
      InOrderHolds(Outcome(f, depths, more));
    }
  }

  lemma InOrderHolds(f: Feed)
    requires InOrder(f)
    ensures OrderHolds(f)
  {
  }

  /** Once an Agent has connected with a packet in transit, that packet is stored, and the next one
      overtakes it in the channel. */
  lemma DisturbanceReorders(f: Feed, depths: Depths)
    requires InOrder(f) && Enabled(f, Register) && f.inTransit.Some? && depths.online > 0 && depths.offline > 0
    ensures !OrderAhead(Step(f, depths, Register), depths)
  {
    hide InOrder;
    InOrderHolds(f);
    var a := f.inTransit.value;
    var b := a + [0];
    var g := Step(f, depths, Register);
    var stored := Step(g, depths, EndRoute);
    var routed := Step(stored, depths, Route(b));
    OneMoreStep(stored, depths, Route(b), []);
    OneMoreStep(g, depths, EndRoute, [Route(b)]);
    NoRegister(g, depths, [EndRoute] + [Route(b)]);
    var before := f.transmitted + Optional(f.held) + Waiting(f.line);
    RegisterKeepsWaiting(f.line, f.next);
    Overtaking(g, depths, a, b, before);
    assert [Route(b)] + [] == [Route(b)];
    assert !OrderHolds(Outcome(g, depths, [EndRoute] + [Route(b)]));
  }

  lemma Overtaking(g: Feed, depths: Depths, a: Packet, b: Packet, before: seq<Packet>)
    requires a != b && depths.online > 0 && depths.offline > 0 && g.inTransit == Some(a)
    requires g.line.session.Some? && g.line.session.value.channel == [] && g.line.offline == []
    requires g.kept == before == g.transmitted + Optional(g.held) + Waiting(g.line)
    ensures var stored := Step(g, depths, EndRoute);
      Enabled(stored, Route(b)) && !OrderHolds(Step(stored, depths, Route(b)))
  {
    var stored := Step(g, depths, EndRoute);
    var routed := Step(stored, depths, Route(b));
    assert routed.kept == before + [a] + [b];
    var front := g.transmitted + Optional(g.held) + g.line.session.value.pending;
    assert front == before;
    assert routed.transmitted + Optional(routed.held) + Waiting(routed.line) == before + [b] + [a];
    assert (before + [a] + [b])[|before|] == a && (before + [b] + [a])[|before|] == b;
  }

  lemma {:induction false} NoRegister(f: Feed, depths: Depths, actions: seq<Action>)
    requires Runs(f, depths, actions) && forall a :: a in actions ==> !a.Register?
    ensures Undisturbed(f, depths, actions)
    decreases |actions|
  {
    if actions != [] {
      NoRegister(Step(f, depths, actions[0]), depths, actions[1..]);
    }
  }

  /** The exact condition. A run is undisturbed if and only if at each of its states the order holds,
      and keeps holding however the run might have gone on undisturbed from there. */
  lemma {:induction false} OrderIsExact(f: Feed, depths: Depths, actions: seq<Action>)
    requires InOrder(f) && Runs(f, depths, actions) && depths.online > 0 && depths.offline > 0
    ensures Undisturbed(f, depths, actions) <==> OrderThroughout(f, depths, actions)
    decreases |actions|
  {
    hide InOrder, OrderAhead, Step, Enabled;
    OrderStaysAhead(f, depths);
    if actions != [] {
      if actions[0].Register? && f.inTransit.Some? {
        DisturbanceReorders(f, depths);
      } else {
        StepKeepsOrder(f, depths, actions[0]);
        OrderIsExact(Step(f, depths, actions[0]), depths, actions[1..]);
      }
    }
  }

  lemma StartIsInOrder()
    ensures InOrder(START)
  {
  }

  /** The order holds, and nothing is stored. */
  predicate NothingStored(f: Feed) {
    OrderHolds(f) && f.line.offline == [] && (f.line.session.None? ==> f.held.None?)
  }

  lemma StepStoresNothing(f: Feed, depths: Depths, a: Action)
    requires NothingStored(f) && Enabled(f, a) && depths.offline == 0
    ensures NothingStored(Step(f, depths, a))
  {
    match a {
      case Receive =>
        hide Waiting;
        ReceivedWaited(f.line);
      case Register => RegisterKeepsWaiting(f.line, f.next);
      case Disconnect(generation, _) => RequeuedWaits(f.line, depths, f.held);
      case _ =>
    }
  }

  lemma {:induction false} RunStoresNothing(f: Feed, depths: Depths, actions: seq<Action>)
    requires Runs(f, depths, actions) && NothingStored(f) && depths.offline == 0
    ensures NothingStored(Outcome(f, depths, actions))
    decreases |actions|
  {
    if actions != [] {
      StepStoresNothing(f, depths, actions[0]);
      RunStoresNothing(Step(f, depths, actions[0]), depths, actions[1..]);
    }
  }

  /** Without an offline store, no run disturbs the order. */
  lemma {:induction false} OrderWithoutStore(f: Feed, depths: Depths, actions: seq<Action>)
    requires Runs(f, depths, actions) && NothingStored(f) && depths.offline == 0
    ensures OrderThroughout(f, depths, actions)
    decreases |actions|
  {
    forall more | Runs(f, depths, more) && Undisturbed(f, depths, more) ensures OrderHolds(Outcome(f, depths, more)) {
      RunStoresNothing(f, depths, more);
    }
    if actions != [] {
      StepStoresNothing(f, depths, actions[0]);
      OrderWithoutStore(Step(f, depths, actions[0]), depths, actions[1..]);
    }
  }

  /** For the runs of a router, which refuses every connection if the online depth is 0: the order
      holds throughout, and can be relied on, exactly if nobody connects while a packet for them is
      in transit, or nothing is ever stored. */
  lemma OrderFromStartIsExact(depths: Depths, actions: seq<Action>)
    requires Runs(START, depths, actions) && depths.online > 0
    ensures OrderThroughout(START, depths, actions) <==> Undisturbed(START, depths, actions) || depths.offline == 0
  {
    if depths.offline == 0 {
      OrderWithoutStore(START, depths, actions);
    } else {
      StartIsInOrder();
      OrderIsExact(START, depths, actions);
    }
  }

  /** Even when routing is interrupted, nothing is lost but what a requeue cuts off, and nothing is
      sent twice. */
  lemma {:induction false} NothingLostOrRepeated(f: Feed, depths: Depths, actions: seq<Action>)
    requires Runs(f, depths, actions) && Conserved(f)
    ensures Conserved(Outcome(f, depths, actions))
    decreases |actions|
  {
    if actions != [] {
      StepConserves(f, depths, actions[0]);
      NothingLostOrRepeated(Step(f, depths, actions[0]), depths, actions[1..]);
    }
  }

  /** An interrupted routing lets a later packet overtake: the Agent connects between the look for
      its connection and the storing, and is sent the second packet only. */
  lemma InterruptedRoutingReorders(a: Packet, b: Packet)
    requires a != b
    ensures var depths, actions := Depths(1, 1), [BeginRoute(a), Register, EndRoute, Route(b), Receive, Transmit];
      && Runs(START, depths, actions)
      && Outcome(START, depths, actions).accepted == [a, b]
      && Outcome(START, depths, actions).transmitted == [b]
      && !(Outcome(START, depths, actions).transmitted <= Outcome(START, depths, actions).accepted)
  {
    hide Step, Enabled;
    var d := Depths(1, 1);
    var f2 := Stranded(a);
    var f3, f4, f5 := Overtaken(a, b, f2);
    OneMoreStep(f5, d, Transmit, []);
    OneMoreStep(f4, d, Receive, [Transmit]);
    OneMoreStep(f3, d, Route(b), [Receive, Transmit]);
    OneMoreStep(f2, d, EndRoute, [Route(b), Receive, Transmit]);
    OneMoreStep(Step(START, d, BeginRoute(a)), d, Register, [EndRoute, Route(b), Receive, Transmit]);
    OneMoreStep(START, d, BeginRoute(a), [Register, EndRoute, Route(b), Receive, Transmit]);
    assert [b][0] == b && [a, b][..1][0] == a;
  }

  lemma Stranded(a: Packet) returns (f2: Feed)
    ensures Enabled(START, BeginRoute(a)) && Enabled(Step(START, Depths(1, 1), BeginRoute(a)), Register)
    ensures f2 == Step(Step(START, Depths(1, 1), BeginRoute(a)), Depths(1, 1), Register)
    ensures f2 == Feed(Line(Some(Session(1, [], [])), []), None, 2, Some(a), [], [], [], [])
  {
    f2 := Step(Step(START, Depths(1, 1), BeginRoute(a)), Depths(1, 1), Register);
  }

  lemma Overtaken(a: Packet, b: Packet, f2: Feed) returns (f3: Feed, f4: Feed, f5: Feed)
    requires f2 == Feed(Line(Some(Session(1, [], [])), []), None, 2, Some(a), [], [], [], [])
    ensures Enabled(f2, EndRoute) && f3 == Step(f2, Depths(1, 1), EndRoute)
    ensures Enabled(f3, Route(b)) && f4 == Step(f3, Depths(1, 1), Route(b))
    ensures Enabled(f4, Receive) && f5 == Step(f4, Depths(1, 1), Receive) && Enabled(f5, Transmit)
    ensures Step(f5, Depths(1, 1), Transmit).accepted == [a, b] && Step(f5, Depths(1, 1), Transmit).transmitted == [b]
  {
    var d, empty: seq<Packet> := Depths(1, 1), [];
    f3 := Step(f2, d, EndRoute);
    assert empty + [a] == [a];
    assert f3 == Feed(Line(Some(Session(1, [], [])), [a]), None, 2, None, [], [a], [a], []);
    f4 := Step(f3, d, Route(b));
    assert empty + [b] == [b] && [a] + [b] == [a, b] && [b][1..] == empty;
    assert f4 == Feed(Line(Some(Session(1, [], [b])), [a]), None, 2, None, [], [a, b], [a, b], []);
    f5 := Step(f4, d, Receive);
    assert f5.held == Some(b) && f5.accepted == [a, b] && f5.transmitted == empty;
    assert f5.transmitted + [f5.held.value] == [b];
  }

  lemma OneMoreStep(f: Feed, depths: Depths, a: Action, rest: seq<Action>)
    requires Enabled(f, a) && Runs(Step(f, depths, a), depths, rest)
    ensures Runs(f, depths, [a] + rest) && Outcome(f, depths, [a] + rest) == Outcome(Step(f, depths, a), depths, rest)
  {
  }
}
