/** What holds from one end to the other: the store is what the requests have made of it, and each
    Agent is handed the answers addressed to it. */
module EndToEndTheorems {
  import opened Bytes
  import opened Types
  import opened Store
  import opened StoreProofs
  import opened Snapshot
  import opened Engine
  import opened EngineTheorems
  import opened Deployment
  import opened EndToEnd
  import BrokerRouter
  import CaRuns
  import L = LinkProtocol
  import LinkTheorems
  import R = RouterLines

  // ----- the history of the CA -----

  /** The CA after its history, one call of the engine after the other. */
  ghost function After(limits: Limits, service: CaRuns.Service, events: seq<Event>): CaRuns.Service {
    if events == [] then service
    else
      var before, last := After(limits, service, events[..|events| - 1]), events[|events| - 1];
      if last.Served? then before.(state := ResponseTo(limits, before, last.request, last.call).state)
      else AfterReload(limits, before, last)
  }

  function DeliveriesOf(r: Result<Answer, Error>): seq<Delivery> {
    if r.Ok? && r.value.Deliveries? then r.value.deliveries else []
  }

  /** The deliveries that the engine has answered, in order. */
  ghost function Answered(limits: Limits, service: CaRuns.Service, events: seq<Event>): seq<Delivery> {
    if events == [] then []
    else
      var front, last := events[..|events| - 1], events[|events| - 1];
      Answered(limits, service, front)
      + if last.Served?
        then DeliveriesOf(ResponseTo(limits, After(limits, service, front), last.request, last.call).result) else []
  }

  /** The requests that the engine was called with. */
  function Requests(events: seq<Event>): seq<seq<byte>> {
    if events == [] then []
    else
      var last := events[|events| - 1];
      Requests(events[..|events| - 1]) + if last.Served? then [last.request] else []
  }

  function Payloads(frames: seq<L.Frame>): seq<seq<byte>>
  {
    seq(|frames|, i requires 0 <= i < |frames| => frames[i].payload)
  }

  /** The packets among the frames that are addressed to the Agent. */
  function AddressedTo(agent: AgentId, frames: seq<L.Frame>): seq<R.Packet> {
    if frames == [] then []
    else
      var last := frames[|frames| - 1].payload;
      AddressedTo(agent, frames[..|frames| - 1]) + if RecipientOf(last) == Some(agent) then [last] else []
  }

  lemma {:induction false} AddressedSplits(agent: AgentId, a: seq<L.Frame>, b: seq<L.Frame>)
    ensures AddressedTo(agent, a + b) == AddressedTo(agent, a) + AddressedTo(agent, b)
  {
    hide RecipientOf;
    if b == [] {
      assert a + b == a;
    } else {
      AddressedSplits(agent, a, b[..|b| - 1]);
      assert (a + b)[..|a + b| - 1] == a + b[..|b| - 1];
    }
  }

  // ----- what every step keeps -----

  /** The store is the fold of the history, whose requests are those that the link has processed and
      whose answers are what the link has generated. */
  ghost predicate Connected(limits: Limits, service: CaRuns.Service, w: World) {
    && w.service == After(limits, service, w.events)
    && Requests(w.events) == Payloads(w.link.log.processed)
    && CarriesAll(w.link.log.generated, Answered(limits, service, w.events))
  }

  /** Each line has accepted what was routed to its Agent. */
  ghost predicate Handed(w: World) {
    forall agent :: FeedOf(w, agent).accepted == AddressedTo(agent, w.link.routed)
  }

  ghost predicate Usable(limits: Limits, service: CaRuns.Service) {
    Store.Valid(service.state, limits) && Provisioned(service.state)
  }

  lemma LinkStepKeepsHistory(c: L.Config, s: L.System, a: L.Action)
    requires L.Enabled(c, s, a) && !a.CaReceive? && !a.BrokerReceive?
    ensures var next := L.Step(c, s, a);
      next.routed == s.routed && next.log == s.log.(dequeued := next.log.dequeued)
  {
  }

  lemma EventsGrow(limits: Limits, service: CaRuns.Service, events: seq<Event>, e: Event)
    ensures var before := After(limits, service, events);
      && (e.Served? ==>
            && After(limits, service, events + [e])
                 == before.(state := ResponseTo(limits, before, e.request, e.call).state)
            && Requests(events + [e]) == Requests(events) + [e.request]
            && Answered(limits, service, events + [e])
               == Answered(limits, service, events)
                 + DeliveriesOf(ResponseTo(limits, before, e.request, e.call).result))
      && (e.Reloaded? ==>
            && After(limits, service, events + [e]) == AfterReload(limits, before, e)
            && Requests(events + [e]) == Requests(events)
            && Answered(limits, service, events + [e]) == Answered(limits, service, events))
  {
    hide ResponseTo, AfterReload;
    assert (events + [e])[..|events|] == events;
  }

  lemma BrokerRoutesWhatItAccepts(c: L.Config, s: L.BrokerState, f: L.Frame, accepts: bool)
    ensures var r := L.BrokerReact(c, s, f, accepts); r.routed.Some? ==> accepts && r.routed.value == f
  {
  }

  lemma CaStepExtendsHistory(c: L.Config, s: L.System, outcome: L.Outcome)
    requires L.Enabled(c, s, L.CaReceive(outcome))
    ensures var next := L.Step(c, s, L.CaReceive(outcome));
      && next.routed == s.routed
      && next.log == (if L.CaReact(c, s.ca, s.toCa[0], outcome).processes
                      then L.Processed(s.log, s.toCa[0], L.GroupOf(outcome)) else s.log)
  {
    hide L.CaReact;
  }

  lemma BrokerStepExtendsHistory(c: L.Config, s: L.System, accepts: bool)
    requires L.Enabled(c, s, L.BrokerReceive(accepts))
    ensures var next, r := L.Step(c, s, L.BrokerReceive(accepts)), L.BrokerReact(c, s.broker, s.toBroker[0], accepts);
      && next.log == s.log && (r.routed.Some? ==> accepts)
      && next.routed == s.routed + (if r.routed.Some? then [s.toBroker[0]] else [])
  {
    BrokerRoutesWhatItAccepts(c, s.broker, s.toBroker[0], accepts);
    hide L.BrokerReact;
  }

  lemma RouteAccepts(f: R.Feed, depths: R.Depths, p: R.Packet)
    requires f.inTransit.None? && R.Routed(f.line, depths, p).Ok?
    ensures R.Step(f, depths, R.Route(p)).accepted == f.accepted + [p]
  {
    hide R.Routed;
  }

  lemma CarriedTogether(a: seq<L.Frame>, c: seq<Delivery>, b: seq<L.Frame>, d: seq<Delivery>)
    requires CarriesAll(a, c) && CarriesAll(b, d)
    ensures CarriesAll(a + b, c + d)
  {
    hide Carries;
  }

  lemma CaReceiveConnects(setup: Setup, service: CaRuns.Service, w: World, call: Call, group: seq<L.Frame>)
    requires Connected(setup.limits, service, w) && Enabled(setup, w, CaReceive(call, group))
    ensures Connected(setup.limits, service, AfterCa(setup, w, call, group))
    ensures AfterCa(setup, w, call, group).link.routed == w.link.routed
  {
    hide ResponseTo, CarriesAll, After, Requests, Answered, L.Step, L.CaReact;
    var request, outcome := w.link.toCa[0], LinkOutcome(setup, w, call, group);
    var r := ResponseTo(setup.limits, w.service, request.payload, call);
    CaStepExtendsHistory(setup.link, w.link, outcome);
    EventsGrow(setup.limits, service, w.events, Served(request.payload, call));
    assert Payloads(w.link.log.processed + [request]) == Payloads(w.link.log.processed) + [request.payload];
    NoneCarried();
    CarriedTogether(w.link.log.generated, Answered(setup.limits, service, w.events), L.GroupOf(outcome),
      DeliveriesOf(r.result));
  }

  lemma NoneCarried()
    ensures CarriesAll([], [])
  {
  }

  lemma HandedOn(w: World, next: World, f: L.Frame, recipient: AgentId, fed: R.Feed)
    requires Handed(w) && RecipientOf(f.payload) == Some(recipient)
    requires next.feeds == w.feeds[recipient := fed] && next.link.routed == w.link.routed + [f]
    requires fed.accepted == FeedOf(w, recipient).accepted + [f.payload]
    ensures Handed(next)
  {
    hide RecipientOf;
    assert (w.link.routed + [f])[..|w.link.routed|] == w.link.routed;
    forall agent ensures FeedOf(next, agent).accepted == AddressedTo(agent, next.link.routed) {
      assert AddressedTo(agent, w.link.routed) == FeedOf(w, agent).accepted;
    }
  }

  lemma BrokerReceiveHands(setup: Setup, w: World)
    requires Handed(w) && NoneInTransit(w) && w.link.brokerOpen && w.link.toBroker != []
    ensures Handed(AfterBroker(setup, w))
    ensures AfterBroker(setup, w).link.log == w.link.log && AfterBroker(setup, w).service == w.service
    ensures AfterBroker(setup, w).events == w.events
  {
    hide L.BrokerReact, L.Step, R.Routed, R.Step, RecipientOf, AddressedTo;
    var f, accepts := w.link.toBroker[0], Accepts(setup, w);
    BrokerStepExtendsHistory(setup.link, w.link, accepts);
    var next := AfterBroker(setup, w);
    if L.BrokerReact(setup.link, w.link.broker, f, accepts).routed.Some? {
      var recipient := RecipientOf(f.payload).value;
      RouteAccepts(FeedOf(w, recipient), setup.depths, f.payload);
      HandedOn(w, next, f, recipient, next.feeds[recipient]);
    } else {
      assert next.link.routed == w.link.routed;
    }
  }

  lemma AgentKeepsAccepted(f: R.Feed, depths: R.Depths, a: R.Action)
    requires IsAgents(a) && R.Enabled(f, a)
    ensures R.Step(f, depths, a).accepted == f.accepted
  {
  }

  lemma StepConnects(setup: Setup, service: CaRuns.Service, w: World, a: Action)
    requires Connected(setup.limits, service, w) && Handed(w) && NoneInTransit(w) && Enabled(setup, w, a)
    ensures Connected(setup.limits, service, Step(setup, w, a)) && Handed(Step(setup, w, a))
  {
    hide After, Requests, Answered, Carries, ResponseTo, L.Step, L.Enabled, R.Step, R.Enabled, AfterCa, AfterBroker,
      AfterReload, AddressedTo;
    match a {
      case Link(action) => LinkStepKeepsHistory(setup.link, w.link, action);
      case CaReceive(call, group) =>
        CaReceiveConnects(setup, service, w, call, group);
        CaReceiveKeepsFeeds(setup, w, call, group);
      case BrokerReceive => BrokerReceiveHands(setup, w);
      case Agent(agent, move) => AgentKeepsAccepted(FeedOf(w, agent), setup.depths, move);
      case Reload(configured, policy, writes) =>
        EventsGrow(setup.limits, service, w.events, Reloaded(configured, policy, writes));
    }
  }

  lemma CaReceiveKeepsFeeds(setup: Setup, w: World, call: Call, group: seq<L.Frame>)
    requires Enabled(setup, w, CaReceive(call, group))
    ensures AfterCa(setup, w, call, group).feeds == w.feeds
    ensures AfterCa(setup, w, call, group).link.routed == w.link.routed
  {
    hide ResponseTo, Carries, L.Enabled;
  }

  lemma {:induction false} RunConnects(setup: Setup, service: CaRuns.Service, w: World, actions: seq<Action>)
    requires NoneInTransit(w) && Runs(setup, w, actions) && Connected(setup.limits, service, w) && Handed(w)
    ensures Connected(setup.limits, service, Outcome(setup, w, actions)) && Handed(Outcome(setup, w, actions))
    decreases |actions|
  {
    hide Connected, Handed, Step, Enabled;
    if actions == [] {
    } else {
      NoneStaysInTransit(setup, w, actions[0]);
      StepConnects(setup, service, w, actions[0]);
      RunConnects(setup, service, Step(setup, w, actions[0]), actions[1..]);
    }
  }

  // ----- the state stays usable, and its answers fit -----

  lemma StepKeepsUsable(setup: Setup, w: World, a: Action)
    requires Usable(setup.limits, w.service) && NoneInTransit(w) && Enabled(setup, w, a)
    ensures Usable(setup.limits, Step(setup, w, a).service)
  {
    hide Store.Valid, Provisioned, Process, Reconcile, Verdict, L.Step, L.Enabled, R.Step, R.Enabled, Carries;
    match a {
      case CaReceive(call, _) =>
        ProcessKeeps(w.service.state, setup.limits, w.service.policy, w.link.toCa[0].payload, call.crypto, call.now,
          call.failing);
      case Reload(configured, _, writes) =>
        if Committed(Reconcile(w.service.state, setup.limits, configured), writes).Ok? {
          ReconcileIsExact(w.service.state, setup.limits, configured);
        }
      case _ =>
    }
  }

  lemma {:induction false} RunKeepsUsable(setup: Setup, w: World, actions: seq<Action>)
    requires NoneInTransit(w) && Runs(setup, w, actions) && Usable(setup.limits, w.service)
    ensures Usable(setup.limits, Outcome(setup, w, actions).service)
    decreases |actions|
  {
    hide Usable, Step, Enabled;
    if actions == [] {
    } else {
      NoneStaysInTransit(setup, w, actions[0]);
      StepKeepsUsable(setup, w, actions[0]);
      RunKeepsUsable(setup, Step(setup, w, actions[0]), actions[1..]);
    }
  }

  /** No answer of the engine is refused by the link: what the link asks of a group beyond fresh and
      distinct identifiers, its size, the engine provides. */
  lemma AnswersAreAdmitted(setup: Setup, w: World, call: Call, group: seq<L.Frame>)
    requires setup.Valid() && Usable(setup.limits, w.service) && w.link.caOpen && w.link.toCa != []
    requires Answers(ResponseTo(setup.limits, w.service, w.link.toCa[0].payload, call).result, group)
    requires L.DistinctIds(group) && forall f :: f in group ==> L.Fresh(w.link, f.id)
    ensures Enabled(setup, w, CaReceive(call, group))
  {
    hide Process, Store.Valid, Provisioned, L.Fresh, BrokerRouter.DeliveryFrame;
    var r := ResponseTo(setup.limits, w.service, w.link.toCa[0].payload, call).result;
    if r.Ok? && r.value.Deliveries? {
      assert Seals(group, r.value.deliveries);
      AnswersFitTheLink(w.service.state, setup.limits, w.service.policy, w.link.toCa[0].payload, call.crypto, call.now,
        call.failing, setup.link, group);
      forall f | f in group ensures f.kind == L.FrameKind.Delivery {
        var i :| 0 <= i < |group| && group[i] == f;
        assert Carries(group[i], r.value.deliveries[i]);
      }
    }
  }

  // ----- the runs of the parts -----

  /** What the step is for the link. */
  ghost function LinkPart(setup: Setup, w: World, a: Action): seq<L.Action>
    requires Enabled(setup, w, a)
  {
    match a
    case Link(action) => [action]
    case CaReceive(call, group) => [L.CaReceive(LinkOutcome(setup, w, call, group))]
    case BrokerReceive => [L.BrokerReceive(Accepts(setup, w))]
    case _ => []
  }

  /** What the step is for the line of the Agent. */
  ghost function LinePart(setup: Setup, w: World, a: Action, agent: AgentId): seq<R.Action>
    requires Enabled(setup, w, a)
  {
    match a
    case Agent(other, move) => if other == agent then [move] else []
    case BrokerReceive =>
      var f := w.link.toBroker[0];
      if L.BrokerReact(setup.link, w.link.broker, f, Accepts(setup, w)).routed.Some?
        && RecipientOf(f.payload) == Some(agent)
      then [R.Route(f.payload)] else []
    case _ => []
  }

  lemma LinkStep(setup: Setup, w: World, a: Action)
    requires NoneInTransit(w) && Enabled(setup, w, a)
    ensures L.Runs(setup.link, w.link, LinkPart(setup, w, a))
    ensures L.Outcomes(setup.link, w.link, LinkPart(setup, w, a)) == Step(setup, w, a).link
  {
    hide ResponseTo, Carries, L.Step, R.Step, R.Enabled;
  }

  lemma LineStep(setup: Setup, w: World, a: Action, agent: AgentId)
    requires NoneInTransit(w) && Enabled(setup, w, a)
    ensures R.Runs(FeedOf(w, agent), setup.depths, LinePart(setup, w, a, agent))
    ensures R.Undisturbed(FeedOf(w, agent), setup.depths, LinePart(setup, w, a, agent))
    ensures R.Outcome(FeedOf(w, agent), setup.depths, LinePart(setup, w, a, agent)) == FeedOf(Step(setup, w, a), agent)
  {
    hide ResponseTo, Carries, L.Step, R.Step, RecipientOf, R.Routed, L.Enabled;
    if a.BrokerReceive? {
      BrokerRoutesWhatItAccepts(setup.link, w.link.broker, w.link.toBroker[0], Accepts(setup, w));
      hide L.BrokerReact;
    }
  }

  ghost function LinkParts(setup: Setup, w: World, actions: seq<Action>): seq<L.Action>
    requires NoneInTransit(w) && Runs(setup, w, actions)
    decreases |actions|
  {
    if actions == [] then []
    else
      NoneStaysInTransit(setup, w, actions[0]);
      LinkPart(setup, w, actions[0]) + LinkParts(setup, Step(setup, w, actions[0]), actions[1..])
  }

  ghost function LineParts(setup: Setup, w: World, actions: seq<Action>, agent: AgentId): seq<R.Action>
    requires NoneInTransit(w) && Runs(setup, w, actions)
    decreases |actions|
  {
    if actions == [] then []
    else
      NoneStaysInTransit(setup, w, actions[0]);
      LinePart(setup, w, actions[0], agent) + LineParts(setup, Step(setup, w, actions[0]), actions[1..], agent)
  }

  /** A run of the whole is a run of the link. */
  lemma {:induction false} LinkRun(setup: Setup, w: World, actions: seq<Action>)
    requires NoneInTransit(w) && Runs(setup, w, actions)
    ensures L.Runs(setup.link, w.link, LinkParts(setup, w, actions))
    ensures L.Outcomes(setup.link, w.link, LinkParts(setup, w, actions)) == Outcome(setup, w, actions).link
    decreases |actions|
  {
    hide Step, Enabled, LinkPart, L.Step, L.Enabled;
    if actions == [] {
    } else {
      NoneStaysInTransit(setup, w, actions[0]);
      LinkStep(setup, w, actions[0]);
      var next := Step(setup, w, actions[0]);
      LinkRun(setup, next, actions[1..]);
      LinkTheorems.RunsConcat(setup.link, w.link, LinkPart(setup, w, actions[0]), LinkParts(setup, next, actions[1..]));
    }
  }

  lemma {:induction false} LineConcat(f: R.Feed, depths: R.Depths, a: seq<R.Action>, b: seq<R.Action>)
    requires R.Runs(f, depths, a) && R.Undisturbed(f, depths, a)
    requires R.Runs(R.Outcome(f, depths, a), depths, b) && R.Undisturbed(R.Outcome(f, depths, a), depths, b)
    ensures R.Runs(f, depths, a + b) && R.Undisturbed(f, depths, a + b)
    ensures R.Outcome(f, depths, a + b) == R.Outcome(R.Outcome(f, depths, a), depths, b)
    decreases |a|
  {
    hide R.Step, R.Enabled;
    if a == [] {
      assert a + b == b;
    } else {
      assert (a + b)[0] == a[0] && (a + b)[1..] == a[1..] + b;
      LineConcat(R.Step(f, depths, a[0]), depths, a[1..], b);
    }
  }

  /** A run of the whole is an undisturbed run of each line. */
  lemma {:induction false} LineRun(setup: Setup, w: World, actions: seq<Action>, agent: AgentId)
    requires NoneInTransit(w) && Runs(setup, w, actions)
    ensures var f, parts := FeedOf(w, agent), LineParts(setup, w, actions, agent);
      && R.Runs(f, setup.depths, parts) && R.Undisturbed(f, setup.depths, parts)
      && R.Outcome(f, setup.depths, parts) == FeedOf(Outcome(setup, w, actions), agent)
    decreases |actions|
  {
    hide Step, Enabled, LinePart, R.Step, R.Enabled;
    if actions == [] {
    } else {
      NoneStaysInTransit(setup, w, actions[0]);
      LineStep(setup, w, actions[0], agent);
      var next := Step(setup, w, actions[0]);
      LineRun(setup, next, actions[1..], agent);
      LineConcat(FeedOf(w, agent), setup.depths, LinePart(setup, w, actions[0], agent),
        LineParts(setup, next, actions[1..], agent));
    }
  }

  // ----- from one end to the other -----

  /** The answers addressed to the Agent. */
  function AnswersTo(agent: AgentId, deliveries: seq<Delivery>): seq<Delivery> {
    if deliveries == [] then []
    else
      var last := deliveries[|deliveries| - 1];
      AnswersTo(agent, deliveries[..|deliveries| - 1]) + if last.recipient == agent then [last] else []
  }

  /** The packets are the sealed frames of the first of the deliveries, in their order. */
  predicate SealFirst(packets: seq<R.Packet>, deliveries: seq<Delivery>) {
    |packets| <= |deliveries| && forall i :: 0 <= i < |packets| ==> Sealed(packets[i], deliveries[i])
  }

  lemma {:induction false} AddressedAreAnswers(agent: AgentId, frames: seq<L.Frame>, deliveries: seq<Delivery>)
    requires CarriesAll(frames, deliveries)
    ensures |AddressedTo(agent, frames)| == |AnswersTo(agent, deliveries)|
    ensures SealFirst(AddressedTo(agent, frames), AnswersTo(agent, deliveries))
  {
    if frames == [] {
    } else {
      var n := |frames| - 1;
      assert Carries(frames[n], deliveries[n]);
      hide BrokerRouter.DeliveryFrame;
      AddressedAreAnswers(agent, frames[..n], deliveries[..n]);
    }
  }

  lemma StartsConnected(limits: Limits, service: CaRuns.Service)
    ensures Connected(limits, service, Start(service)) && Handed(Start(service))
  {
  }

  /** In every run of the whole: the state of the CA is the fold of its engine over requests that the
      broker took, each once and in their order; and it is valid. */
  lemma StoreIsFold(setup: Setup, service: CaRuns.Service, actions: seq<Action>)
    requires setup.Valid() && Usable(setup.limits, service) && Runs(setup, Start(service), actions)
    ensures var w := Outcome(setup, Start(service), actions);
      && w.service == After(setup.limits, service, w.events) && Usable(setup.limits, w.service)
      && Requests(w.events) <= Payloads(w.link.log.dequeued) && L.DistinctIds(w.link.log.dequeued)
  {
    hide Usable, After, Answered, Runs, Outcome, Requests;
    StartsConnected(setup.limits, service);
    RunConnects(setup, service, Start(service), actions);
    RunKeepsUsable(setup, Start(service), actions);
    LinkRun(setup, Start(service), actions);
    LinkTheorems.ProcessedOnceAndInOrder(setup.link, LinkParts(setup, Start(service), actions));
    LinkTheorems.ReachableIsSafe(setup.link, LinkParts(setup, Start(service), actions));
    hide L.Runs, L.Outcomes, L.DistinctIds, CarriesAll;
  }

  /** Each Agent is sent what its line has accepted, in order, all but what requeues have cut off. */
  lemma LinesAreInOrder(setup: Setup, service: CaRuns.Service, actions: seq<Action>, agent: AgentId)
    requires Runs(setup, Start(service), actions)
    ensures var f := FeedOf(Outcome(setup, Start(service), actions), agent);
      R.InOrder(f) && f.transmitted <= f.kept && (f.dropped == [] ==> f.kept == f.accepted)
  {
    hide Runs, Outcome, R.InOrder;
    LineRun(setup, Start(service), actions, agent);
    R.DeliveredInOrder(setup.depths, LineParts(setup, Start(service), actions, agent));
  }

  /** In every run of the whole, if the deduplication depth covers a group: what the line of an Agent
      has accepted are the answers of the engine to requests of that history that are addressed to
      the Agent, in their order, from the first on, none twice. */
  lemma AnswersReachTheirAgents(setup: Setup, service: CaRuns.Service, actions: seq<Action>, agent: AgentId)
    requires setup.Valid() && setup.link.maxGroup <= setup.link.brokerDedup && Runs(setup, Start(service), actions)
    ensures var w := Outcome(setup, Start(service), actions);
      SealFirst(FeedOf(w, agent).accepted, AnswersTo(agent, Answered(setup.limits, service, w.events)))
  {
    hide After, Answered, Runs, Outcome, Requests, AnswersTo, Sealed;
    StartsConnected(setup.limits, service);
    RunConnects(setup, service, Start(service), actions);
    LinkRun(setup, Start(service), actions);
    LinkTheorems.RoutedOnceAndInOrder(setup.link, LinkParts(setup, Start(service), actions));
    hide L.Runs, L.Outcomes, L.DistinctIds, LinkParts;
    var w := Outcome(setup, Start(service), actions);
    var routed, generated := w.link.routed, w.link.log.generated;
    assert generated == routed + generated[|routed|..];
    AddressedSplits(agent, routed, generated[|routed|..]);
    AddressedAreAnswers(agent, generated, Answered(setup.limits, service, w.events));
  }

  /** Whenever the broker has no outstanding request, nothing is left over: the CA has served every
      request that the broker took, and each line has accepted all answers addressed to its Agent. */
  lemma IdleIsComplete(setup: Setup, service: CaRuns.Service, actions: seq<Action>, agent: AgentId)
    requires setup.Valid() && setup.link.maxGroup <= setup.link.brokerDedup && Runs(setup, Start(service), actions)
    requires Outcome(setup, Start(service), actions).link.broker.pending == []
    ensures var w := Outcome(setup, Start(service), actions);
      && Requests(w.events) == Payloads(w.link.log.dequeued)
      && SealFirst(FeedOf(w, agent).accepted, AnswersTo(agent, Answered(setup.limits, service, w.events)))
      && |FeedOf(w, agent).accepted| == |AnswersTo(agent, Answered(setup.limits, service, w.events))|
  {
    hide After, Answered, Runs, Outcome, Requests, AnswersTo, Sealed;
    StartsConnected(setup.limits, service);
    RunConnects(setup, service, Start(service), actions);
    LinkRun(setup, Start(service), actions);
    LinkTheorems.IdleBrokerHasEverything(setup.link, LinkParts(setup, Start(service), actions));
    hide L.Runs, L.Outcomes, LinkParts;
    var w := Outcome(setup, Start(service), actions);
    AddressedAreAnswers(agent, w.link.log.generated, Answered(setup.limits, service, w.events));
  }
}
