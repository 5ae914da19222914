/** The whole path: requests that the broker takes reach the engine over the link, its answers come
    back over the link, and the router hands them to the lines of the Agents. Nothing is left open
    between the parts: the engine decides what the CA answers, and the router what the broker
    accepts. */
module EndToEnd {
  import opened Bytes
  import opened Types
  import opened Envelope
  import opened EnvironmentPolicy
  import opened Store
  import opened Engine
  import BrokerRouter
  import CaRuns
  import L = LinkProtocol
  import R = RouterLines

  /** The limits of both daemons; the link is configured with the limit of subscriptions. */
  datatype Setup = Setup(link: L.Config, limits: Limits, depths: R.Depths)
  {
    predicate Valid() { link.Valid() && link.maxGroup == limits.subscriptions }
  }

  /** What surrounds one call of the engine: the cryptography, the clock and the file system. */
  datatype Call = Call(crypto: Crypto, now: u64, failing: Failures)

  datatype Event =
    | Served(request: seq<byte>, call: Call)
    | Reloaded(configured: CaRuns.Directory, policy: Policy, writes: bool)

  /** Agents that have no entry among the feeds have never had a packet or a connection. `events` is
      the history of the CA. */
  datatype World = World(link: L.System, service: CaRuns.Service, feeds: map<AgentId, R.Feed>, events: seq<Event>)

  /** `group` gives the answer its link identifiers and its sealed frames, if it is one of deliveries. */
  datatype Action =
    | Link(action: L.Action)
    | CaReceive(call: Call, group: seq<L.Frame>)
    | BrokerReceive
    | Agent(agent: AgentId, move: R.Action)
    | Reload(configured: CaRuns.Directory, policy: Policy, writes: bool)


  function FeedOf(w: World, agent: AgentId): R.Feed { if agent in w.feeds then w.feeds[agent] else R.START }

  // ----- the CA -----

  ghost function ResponseTo(limits: Limits, service: CaRuns.Service, request: seq<byte>, call: Call): Response {
    Process(service.state, limits, service.policy, request, call.crypto, call.now, call.failing)
  }

  function OutcomeOf(r: Result<Answer, Error>, group: seq<L.Frame>): L.Outcome {
    if r.Err? then L.Rejected else if r.value.Accepted? then L.Accepted else L.Deliveries(group)
  }

  /** The packet is a response of the CA to the recipient and the handler of the delivery. */
  predicate Sealed(packet: R.Packet, d: Delivery) {
    && |packet| == Total(|d.plaintext|) && BrokerRouter.DeliveryFrame(packet)
    && var h := ParseEnvelope(packet).value.header; h.recipient == d.recipient && h.handler == d.handler
  }

  predicate Carries(f: L.Frame, d: Delivery) { f.kind == L.FrameKind.Delivery && Sealed(f.payload, d) }

  predicate CarriesAll(group: seq<L.Frame>, deliveries: seq<Delivery>) {
    |group| == |deliveries| && forall i :: 0 <= i < |group| ==> Carries(group[i], deliveries[i])
  }

  ghost function LinkOutcome(setup: Setup, w: World, call: Call, group: seq<L.Frame>): L.Outcome
    requires w.link.toCa != []
  {
    OutcomeOf(ResponseTo(setup.limits, w.service, w.link.toCa[0].payload, call).result, group)
  }

  ghost predicate Answers(r: Result<Answer, Error>, group: seq<L.Frame>) {
    r.Ok? && r.value.Deliveries? ==> CarriesAll(group, r.value.deliveries)
  }

  ghost function AfterReload(limits: Limits, service: CaRuns.Service, e: Event): CaRuns.Service
    requires e.Reloaded?
  {
    var next := Committed(Reconcile(service.state, limits, e.configured), e.writes);
    if next.Err? then service else CaRuns.Service(next.value, e.policy)
  }

  // ----- the broker -----

  function RecipientOf(packet: R.Packet): Option<AgentId> {
    if BrokerRouter.DeliveryFrame(packet) then Some(ParseEnvelope(packet).value.header.recipient) else None
  }

  /** The verdict of the router on the delivery at the head of the session. */
  predicate Accepts(setup: Setup, w: World)
    requires w.link.toBroker != []
  {
    var packet := w.link.toBroker[0].payload;
    RecipientOf(packet).Some? && R.Routed(FeedOf(w, RecipientOf(packet).value).line, setup.depths, packet).Ok?
  }

  // ----- steps and runs -----

  predicate IsAgents(a: R.Action) { a.Register? || a.Receive? || a.Transmit? || a.Disconnect? }

  ghost predicate Enabled(setup: Setup, w: World, a: Action) {
    match a
    case Link(action) => !action.CaReceive? && !action.BrokerReceive? && L.Enabled(setup.link, w.link, action)
    case CaReceive(call, group) =>
      && w.link.caOpen && w.link.toCa != []
      && Answers(ResponseTo(setup.limits, w.service, w.link.toCa[0].payload, call).result, group)
      && L.Enabled(setup.link, w.link, L.CaReceive(LinkOutcome(setup, w, call, group)))
    case BrokerReceive => w.link.brokerOpen && w.link.toBroker != []
    case Agent(agent, move) => IsAgents(move) && R.Enabled(FeedOf(w, agent), move)
    case Reload(configured, _, _) => CaRuns.FullDirectory(configured)
  }

  ghost function Step(setup: Setup, w: World, a: Action): World
    requires Enabled(setup, w, a) && NoneInTransit(w)
  {
    match a
    case Link(action) => w.(link := L.Step(setup.link, w.link, action))
    case CaReceive(call, group) => AfterCa(setup, w, call, group)
    case BrokerReceive => AfterBroker(setup, w)
    case Agent(agent, move) =>
      w.(feeds := w.feeds[agent := R.Step(FeedOf(w, agent), setup.depths, move)])
    case Reload(configured, policy, writes) =>
      var e := Reloaded(configured, policy, writes);
      w.(service := AfterReload(setup.limits, w.service, e), events := w.events + [e])
  }

  ghost function AfterCa(setup: Setup, w: World, call: Call, group: seq<L.Frame>): World
    requires Enabled(setup, w, CaReceive(call, group))
  {
    var request := w.link.toCa[0];
    var outcome := LinkOutcome(setup, w, call, group);
    var next := w.(link := L.Step(setup.link, w.link, L.CaReceive(outcome)));
    if L.CaReact(setup.link, w.link.ca, request, outcome).processes then
      next.(service := w.service.(state := ResponseTo(setup.limits, w.service, request.payload, call).state),
            events := w.events + [Served(request.payload, call)])
    else next
  }

  function AfterBroker(setup: Setup, w: World): World
    requires w.link.brokerOpen && w.link.toBroker != [] && NoneInTransit(w)
  {
    var f, accepts := w.link.toBroker[0], Accepts(setup, w);
    var next := w.(link := L.Step(setup.link, w.link, L.BrokerReceive(accepts)));
    if L.BrokerReact(setup.link, w.link.broker, f, accepts).routed.Some? then
      var recipient := RecipientOf(f.payload).value;
      next.(feeds := w.feeds[recipient := R.Step(FeedOf(w, recipient), setup.depths, R.Route(f.payload))])
    else next
  }

  /** The router stores a packet in the same step in which it looks for the connection. */
  predicate NoneInTransit(w: World) { forall agent :: agent in w.feeds ==> w.feeds[agent].inTransit.None? }

  lemma NoneStaysInTransit(setup: Setup, w: World, a: Action)
    requires Enabled(setup, w, a) && NoneInTransit(w)
    ensures NoneInTransit(Step(setup, w, a))
  {
    hide L.Step, L.Enabled, Process, R.Routed, R.Requeued, R.Truncated, ParseEnvelope;
  }

  /** No session yet, nobody connected, and a CA that has started. */
  function Start(service: CaRuns.Service): (w: World)
    ensures NoneInTransit(w)
  {
    World(L.START, service, map[], [])
  }

  ghost predicate Runs(setup: Setup, w: World, actions: seq<Action>)
    requires NoneInTransit(w)
    decreases |actions|
  {
    actions != [] ==>
      && Enabled(setup, w, actions[0])
      && (NoneStaysInTransit(setup, w, actions[0]); Runs(setup, Step(setup, w, actions[0]), actions[1..]))
  }

  ghost function Outcome(setup: Setup, w: World, actions: seq<Action>): World
    requires NoneInTransit(w) && Runs(setup, w, actions)
    decreases |actions|
  {
    if actions == [] then w
    else
      NoneStaysInTransit(setup, w, actions[0]);
      Outcome(setup, Step(setup, w, actions[0]), actions[1..])
  }
}
