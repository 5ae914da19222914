/** Over whole runs: whatever the CA knows of an agent, and whatever it delivers under the name of an
    agent, comes from a request that this agent has signed. */
module Provenance {
  import opened Bytes
  import opened Types
  import opened Replay
  import opened EnvironmentPolicy
  import opened Store
  import opened StoreProofs
  import opened SnapshotTheorems
  import opened Engine
  import opened RequestTheorems
  import C = CaRuns
  import E = EndToEnd
  import EndToEndTheorems
  import L = LinkProtocol
  import R = RouterLines

  /** Every environment, subscription and mark of the state was there at the start, or was asked for
      by one of the frames. */
  ghost predicate Backed(start: State, s: State, sent: seq<Sent>) {
    && (forall a :: a in s.environments ==> EnvironmentIsBacked(start, sent, a, s.environments[a]))
    && (forall x :: Claimable(s, x) ==> SubscriptionIsBacked(start, sent, x))
    && (forall k :: k in s.replay ==> MarkIsBacked(start, sent, k))
  }

  ghost predicate EnvironmentIsBacked(start: State, sent: seq<Sent>, agent: AgentId, encoded: seq<byte>) {
    (agent in start.environments && start.environments[agent] == encoded)
    || exists m :: m in sent && AsksEnvironment(m, agent, encoded)
  }

  ghost predicate SubscriptionIsBacked(start: State, sent: seq<Sent>, x: Subscription) {
    Claimable(start, x) || exists m :: m in sent && AsksSubscription(m, x)
  }

  ghost predicate MarkIsBacked(start: State, sent: seq<Sent>, k: Key) {
    k in start.replay || exists m :: m in sent && AsksUnder(m, k)
  }

  /** The second state holds nothing that the first does not. */
  ghost predicate Fewer(s: State, next: State) {
    && (forall a :: a in next.environments ==> a in s.environments && next.environments[a] == s.environments[a])
    && (forall x :: Claimable(next, x) ==> Claimable(s, x))
    && (forall k :: k in next.replay ==> k in s.replay)
  }

  lemma FewerIsBacked(start: State, s: State, next: State, sent: seq<Sent>)
    requires Backed(start, s, sent) && Fewer(s, next)
    ensures Backed(start, next, sent)
  {
    hide Claimable, EnvironmentIsBacked, SubscriptionIsBacked, MarkIsBacked;
  }

  lemma AskedIsBacked(start: State, s: State, next: State, sent: seq<Sent>, m: Sent)
    requires Backed(start, s, sent) && NewIsAsked(s, next, m)
    ensures Backed(start, next, sent + [m])
  {
    hide Claimable, AsksEnvironment, AsksSubscription, AsksUnder;
    assert m in sent + [m];
    assert forall n :: n in sent ==> n in sent + [m];
    forall a | a in next.environments ensures EnvironmentIsBacked(start, sent + [m], a, next.environments[a]) {
      if !AsksEnvironment(m, a, next.environments[a]) {
        assert EnvironmentIsBacked(start, sent, a, s.environments[a]);
      }
    }
    forall x | Claimable(next, x) ensures SubscriptionIsBacked(start, sent + [m], x) {
      if !AsksSubscription(m, x) {
        assert SubscriptionIsBacked(start, sent, x);
      }
    }
    forall k | k in next.replay ensures MarkIsBacked(start, sent + [m], k) {
      if !AsksUnder(m, k) {
        assert MarkIsBacked(start, sent, k);
      }
    }
  }

  lemma StartIsBacked(s: State)
    ensures Backed(s, s, [])
  {
  }

  lemma ReconciledIsFewer(s: State, limits: Limits, configured: C.Directory)
    requires Valid(s, limits) && Reconcile(s, limits, configured).Ok? && C.FullDirectory(configured)
    ensures Fewer(s, Reconcile(s, limits, configured).value)
  {
    hide Valid, Retained, Sorted;
    var next := Reconcile(s, limits, configured).value;
    forall x | Claimable(next, x) ensures Claimable(s, x) {
      BucketEntries(s, limits, x.typeId);
      RetainedIs(BucketOf(s.subscriptions, x.typeId), s, next.keys);
    }
  }

  // ----- runs of the CA with restarts -----

  /** The frames that the CA was given. */
  function SentIn(actions: seq<C.Action>): seq<Sent> {
    if actions == [] then [] else SentBy(actions[0]) + SentIn(actions[1..])
  }

  function SentBy(a: C.Action): seq<Sent> { if a.Serve? then [Sent(a.frame, a.crypto)] else [] }

  ghost predicate PresentIsBacked(w: C.World, limits: Limits, sent: seq<Sent>) {
    C.Present(w, limits).Ok? && Backed(Store.EMPTY, C.Present(w, limits).value, sent)
  }

  lemma ReconciledIsBacked(w: C.World, limits: Limits, s: State, configured: C.Directory, policy: Policy, writes: bool,
                           sent: seq<Sent>)
    requires C.Present(w, limits) == Ok(s) && Valid(s, limits) && C.FullDirectory(configured)
    requires Backed(Store.EMPTY, s, sent)
    ensures PresentIsBacked(C.Reconciled(w, limits, s, configured, policy, writes), limits, sent)
  {
    hide Valid, Backed, Reconcile;
    if Reconcile(s, limits, configured).Ok? {
      ReconciledIsFewer(s, limits, configured);
      FewerIsBacked(Store.EMPTY, s, Reconcile(s, limits, configured).value, sent);
    }
  }

  lemma StepIsBacked(w: C.World, limits: Limits, a: C.Action, sent: seq<Sent>)
    requires C.Sound(w, limits) && C.Enabled(w, a) && PresentIsBacked(w, limits, sent)
    ensures PresentIsBacked(C.Step(w, limits, a), limits, sent + SentBy(a))
  {
    hide Valid, Backed, C.Reconciled, C.Sound, Process;
    assert sent + [] == sent;
    match a {
      case Start(configured, policy, writes) =>
        C.OpensAgain(w, limits);
        ReconciledIsBacked(w, limits, C.Opened(w.file, limits).value, configured, policy, writes, sent);
      case Reload(configured, policy, writes) =>
        RunningIsValid(w, limits);
        ReconciledIsBacked(w, limits, w.service.value.state, configured, policy, writes, sent);
      case Serve(frame, crypto, now, failing) =>
        RunningIsValid(w, limits);
        var s := w.service.value;
        EverythingIsRequested(s.state, limits, s.policy, frame, crypto, now, failing);
        AskedIsBacked(Store.EMPTY, s.state, Process(s.state, limits, s.policy, frame, crypto, now, failing).state, sent,
          Sent(frame, crypto));
      case Halt =>
        C.OpensAgain(w, limits);
        ReloadedIsFewer(w.service.value.state);
        FewerIsBacked(Store.EMPTY, w.service.value.state, WithoutEmpty(w.service.value.state), sent);
    }
  }

  lemma ReloadedIsFewer(s: State)
    ensures Fewer(s, WithoutEmpty(s))
  {
    ReloadedClaims(s);
  }

  lemma RunningIsValid(w: C.World, limits: Limits)
    requires C.Sound(w, limits) && w.service.Some?
    ensures Valid(w.service.value.state, limits)
  {
    hide Valid;
  }

  lemma Regrouped(sent: seq<Sent>, first: seq<Sent>, others: seq<Sent>)
    ensures sent + first + others == sent + (first + others)
  {
  }

  lemma {:induction false} RunIsBacked(w: C.World, limits: Limits, actions: seq<C.Action>, sent: seq<Sent>)
    requires C.Sound(w, limits) && C.Runs(w, limits, actions) && PresentIsBacked(w, limits, sent)
    ensures PresentIsBacked(C.Outcome(w, limits, actions), limits, sent + SentIn(actions))
    decreases |actions|
  {
    hide C.Sound, PresentIsBacked, C.Step, C.Enabled, SentBy;
    if actions == [] {
      assert sent + [] == sent;
    } else {
      StepIsBacked(w, limits, actions[0], sent);
      C.StepIsSound(w, limits, actions[0]);
      RunIsBacked(C.Step(w, limits, actions[0]), limits, actions[1..], sent + SentBy(actions[0]));
      Regrouped(sent, SentBy(actions[0]), SentIn(actions[1..]));
    }
  }

  /** A CA that began without a file, after any run of starts, reloads, requests and crashes: all that it
      knows, or will know when it starts, was asked for by requests that their agents have signed. */
  lemma StateIsRequested(limits: Limits, actions: seq<C.Action>)
    requires C.Runs(C.FRESH, limits, actions)
    ensures PresentIsBacked(C.Outcome(C.FRESH, limits, actions), limits, SentIn(actions))
  {
    StartIsBacked(Store.EMPTY);
    RunIsBacked(C.FRESH, limits, actions, []);
    assert [] + SentIn(actions) == SentIn(actions);
  }

  lemma {:induction false} PrefixRuns(w: C.World, limits: Limits, actions: seq<C.Action>, i: nat)
    requires C.Runs(w, limits, actions) && i < |actions|
    ensures C.Runs(w, limits, actions[..i]) && C.Runs(w, limits, actions[..i + 1])
    ensures var before := C.Outcome(w, limits, actions[..i]);
      C.Enabled(before, actions[i]) && C.Outcome(w, limits, actions[..i + 1]) == C.Step(before, limits, actions[i])
    decreases i
  {
    hide C.Enabled, C.Step;
    assert actions[..i + 1][0] == actions[0] && actions[..i + 1][1..] == actions[1..][..i];
    if i > 0 {
      PrefixRuns(C.Step(w, limits, actions[0]), limits, actions[1..], i - 1);
      assert actions[..i][1..] == actions[1..][..i - 1] && actions[1..][i - 1] == actions[i];
    }
  }

  /** A frame that changes anything in a run of the CA was signed by an agent that was then in the
      directory. */
  lemma ServedWereSigned(w: C.World, limits: Limits, actions: seq<C.Action>, i: nat)
    requires C.Runs(w, limits, actions) && i < |actions| && actions[i].Serve?
    ensures C.Runs(w, limits, actions[..i]) && C.Runs(w, limits, actions[..i + 1])
    ensures C.Outcome(w, limits, actions[..i]).service.Some?
    ensures C.Outcome(w, limits, actions[..i + 1]) != C.Outcome(w, limits, actions[..i]) ==>
      SignedRequest(C.Outcome(w, limits, actions[..i]).service.value.state, actions[i].frame, actions[i].crypto)
  {
    PrefixRuns(w, limits, actions, i);
    var before, a := C.Outcome(w, limits, actions[..i]), actions[i];
    assert before.service.Some?;
    OnlySignedRequestsCount(before.service.value.state, limits, before.service.value.policy, a.frame, a.crypto, a.now,
      a.failing);
    hide C.Runs, C.Outcome, Process, SignedRequest;
  }

  // ----- runs from end to end -----

  /** The frames that the engine was called with. */
  function SentOf(events: seq<E.Event>): seq<Sent> {
    if events == [] then []
    else
      var last := events[|events| - 1];
      SentOf(events[..|events| - 1]) + if last.Served? then [Sent(last.request, last.call.crypto)] else []
  }

  lemma SentGrows(events: seq<E.Event>, e: E.Event)
    ensures SentOf(events + [e]) == SentOf(events) + if e.Served? then [Sent(e.request, e.call.crypto)] else []
  {
    assert (events + [e])[..|events|] == events;
  }

  /** The delivery was published by one of the frames. */
  ghost predicate PublicationIsBacked(sent: seq<Sent>, d: Delivery) { exists m :: m in sent && Published(m, d) }

  /** Whatever the CA knows was known at the start or requested, and whatever it has answered was
      published, by frames signed by the agents concerned. */
  ghost predicate Traced(limits: Limits, start: C.Service, w: E.World) {
    && Backed(start.state, w.service.state, SentOf(w.events))
    && forall d :: d in EndToEndTheorems.Answered(limits, start, w.events) ==> PublicationIsBacked(SentOf(w.events), d)
  }

  lemma CallIsTraced(setup: E.Setup, start: C.Service, w: E.World, request: seq<byte>, call: E.Call)
    requires Traced(setup.limits, start, w) && Valid(w.service.state, setup.limits)
    requires w.service == EndToEndTheorems.After(setup.limits, start, w.events)
    ensures var r, e := E.ResponseTo(setup.limits, w.service, request, call), E.Served(request, call);
      && Backed(start.state, r.state, SentOf(w.events + [e]))
      && forall d :: d in EndToEndTheorems.Answered(setup.limits, start, w.events + [e]) ==>
           PublicationIsBacked(SentOf(w.events + [e]), d)
  {
    hide Valid, Backed, Process, Published, EndToEndTheorems.After, EndToEndTheorems.Answered, SentOf;
    var e, m := E.Served(request, call), Sent(request, call.crypto);
    var r := E.ResponseTo(setup.limits, w.service, request, call);
    EverythingIsRequested(w.service.state, setup.limits, w.service.policy, request, call.crypto, call.now,
      call.failing);
    SentGrows(w.events, e);
    AskedIsBacked(start.state, w.service.state, r.state, SentOf(w.events), m);
    EndToEndTheorems.EventsGrow(setup.limits, start, w.events, e);
    assert m in SentOf(w.events) + [m];
    forall d | d in EndToEndTheorems.Answered(setup.limits, start, w.events + [e])
      ensures PublicationIsBacked(SentOf(w.events + [e]), d)
    {
      if d in EndToEndTheorems.Answered(setup.limits, start, w.events) {
        var n :| n in SentOf(w.events) && Published(n, d);
        assert n in SentOf(w.events + [e]);
      }
    }
  }

  lemma StepIsTraced(setup: E.Setup, start: C.Service, w: E.World, a: E.Action)
    requires Traced(setup.limits, start, w) && EndToEndTheorems.Usable(setup.limits, w.service)
    requires EndToEndTheorems.Connected(setup.limits, start, w) && E.NoneInTransit(w) && E.Enabled(setup, w, a)
    ensures Traced(setup.limits, start, E.Step(setup, w, a))
  {
    hide Valid, Provisioned, Backed, E.ResponseTo, EndToEndTheorems.After, EndToEndTheorems.Answered, SentOf,
      L.Step, L.Enabled, L.CaReact, R.Step, R.Enabled, E.Carries, PublicationIsBacked, Reconcile;
    match a {
      case CaReceive(call, group) => CallIsTraced(setup, start, w, w.link.toCa[0].payload, call);
      case Reload(configured, policy, writes) =>
        var e := E.Reloaded(configured, policy, writes);
        SentGrows(w.events, e);
        EndToEndTheorems.EventsGrow(setup.limits, start, w.events, e);
        assert SentOf(w.events) + [] == SentOf(w.events);
        if Reconcile(w.service.state, setup.limits, configured).Ok? {
          ReconciledIsFewer(w.service.state, setup.limits, configured);
          FewerIsBacked(start.state, w.service.state, Reconcile(w.service.state, setup.limits, configured).value,
            SentOf(w.events));
        }
      case _ =>
    }
  }

  lemma {:induction false} RunIsTraced(setup: E.Setup, start: C.Service, w: E.World, actions: seq<E.Action>)
    requires Traced(setup.limits, start, w) && EndToEndTheorems.Usable(setup.limits, w.service)
    requires EndToEndTheorems.Connected(setup.limits, start, w) && EndToEndTheorems.Handed(w)
    requires E.NoneInTransit(w) && E.Runs(setup, w, actions)
    ensures Traced(setup.limits, start, E.Outcome(setup, w, actions))
    decreases |actions|
  {
    hide Traced, EndToEndTheorems.Usable, EndToEndTheorems.Connected, EndToEndTheorems.Handed, E.Step, E.Enabled;
    if actions == [] {
    } else {
      E.NoneStaysInTransit(setup, w, actions[0]);
      StepIsTraced(setup, start, w, actions[0]);
      EndToEndTheorems.StepKeepsUsable(setup, w, actions[0]);
      EndToEndTheorems.StepConnects(setup, start, w, actions[0]);
      RunIsTraced(setup, start, E.Step(setup, w, actions[0]), actions[1..]);
    }
  }

  /** In every run of engine, link and router: every delivery that the engine has answered carries a
      value that its named publisher has published in a signed request, and every environment,
      subscription and mark was there at the start or was asked for in a signed request of its agent. */
  lemma EverythingIsSigned(setup: E.Setup, start: C.Service, actions: seq<E.Action>)
    requires EndToEndTheorems.Usable(setup.limits, start) && E.Runs(setup, E.Start(start), actions)
    ensures Traced(setup.limits, start, E.Outcome(setup, E.Start(start), actions))
  {
    hide EndToEndTheorems.Usable, E.Runs, E.Outcome;
    StartIsBacked(start.state);
    EndToEndTheorems.StartsConnected(setup.limits, start);
    RunIsTraced(setup, start, E.Start(start), actions);
  }

  /** A request in the history of the CA that was answered with success, or changed what it knows, was
      signed by an agent that was then in the directory. */
  lemma AnsweredWereSigned(limits: Limits, start: C.Service, events: seq<E.Event>, i: nat)
    requires i < |events| && events[i].Served?
    ensures var before := EndToEndTheorems.After(limits, start, events[..i]);
      E.ResponseTo(limits, before, events[i].request, events[i].call).result.Ok?
        || EndToEndTheorems.After(limits, start, events[..i + 1]) != before ==>
        SignedRequest(before.state, events[i].request, events[i].call.crypto)
  {
    hide Process, SignedRequest;
    var before, call := EndToEndTheorems.After(limits, start, events[..i]), events[i].call;
    assert events[..i + 1] == events[..i] + [events[i]];
    EndToEndTheorems.EventsGrow(limits, start, events[..i], events[i]);
    OnlySignedRequestsCount(before.state, limits, before.policy, events[i].request, call.crypto, call.now,
      call.failing);
  }
}
