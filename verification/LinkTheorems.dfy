/** What the Broker--CA link guarantees over whole runs, with any number of disconnects,
    half-closed sessions and retransmissions. */
module LinkTheorems {
  import opened Bytes
  import opened Types
  import opened LinkProtocol
  import opened LinkInvariant
  import opened LinkSafety
  import opened LinkOrder

  lemma CaProcessIsOrdered(c: Config, s: System, a: Action)
    requires c.Valid() && Safe(s) && Ordered(c, s) && Enabled(c, s, a)
    ensures a.CaReceive? && CaReact(c, s.ca, s.toCa[0], a.outcome).processes ==> Ordered(c, Step(c, s, a))
  {
    hide Safe, Ordered, Step;
    if a.CaReceive? && CaReact(c, s.ca, s.toCa[0], a.outcome).processes {
      assert a == CaReceive(a.outcome);
      EngineReceiveIsOrdered(c, s, a.outcome);
    }
  }

  lemma CaReceiveIsOrdered(c: Config, s: System, a: Action)
    requires Safe(s) && Ordered(c, s) && Enabled(c, s, a)
    ensures a.CaReceive? && !CaReact(c, s.ca, s.toCa[0], a.outcome).processes ==> Ordered(c, Step(c, s, a))
  {
    hide Safe, Ordered, Step;
    if a.CaReceive? && !CaReact(c, s.ca, s.toCa[0], a.outcome).processes {
      assert a == CaReceive(a.outcome);
      OtherCaReceiveIsOrdered(c, s, a.outcome);
    }
  }

  lemma BrokerReceiveIsOrdered(c: Config, s: System, a: Action)
    requires c.maxGroup <= c.brokerDedup && Safe(s) && Ordered(c, s) && Enabled(c, s, a)
    ensures a.BrokerReceive? ==> Ordered(c, Step(c, s, a))
  {
    hide Safe, Ordered, Step;
    if a.BrokerReceive? {
      ReceivesInOrder(c, s, a.accepts);
    }
  }

  lemma SendOrLocalIsOrdered(c: Config, s: System, a: Action)
    requires Safe(s) && Ordered(c, s) && Enabled(c, s, a)
    ensures !a.CaReceive? && !a.BrokerReceive? ==> Ordered(c, Step(c, s, a))
  {
    hide Ordered, Step;
    if IsLocal(a) {
      LocalStepIsOrdered(c, s, a);
    } else if !a.CaReceive? && !a.BrokerReceive? {
      CaSendIsOrdered(c, s);
    }
  }

  lemma StepIsOrdered(c: Config, s: System, a: Action)
    requires c.Valid() && c.maxGroup <= c.brokerDedup
    requires Safe(s) && Ordered(c, s) && Enabled(c, s, a)
    ensures Ordered(c, Step(c, s, a))
  {
    hide Safe, Ordered, Step;
    CaProcessIsOrdered(c, s, a);
    CaReceiveIsOrdered(c, s, a);
    BrokerReceiveIsOrdered(c, s, a);
    SendOrLocalIsOrdered(c, s, a);
  }

  lemma {:induction false} RunsAreSafe(c: Config, s: System, actions: seq<Action>)
    requires c.Valid() && Safe(s) && Runs(c, s, actions)
    ensures Safe(Outcomes(c, s, actions))
    ensures c.maxGroup <= c.brokerDedup && Ordered(c, s) ==> Ordered(c, Outcomes(c, s, actions))
    decreases |actions|
  {
    if actions != [] {
      StepIsSafe(c, s, actions[0]);
      if c.maxGroup <= c.brokerDedup && Ordered(c, s) {
        StepIsOrdered(c, s, actions[0]);
      }
      RunsAreSafe(c, Step(c, s, actions[0]), actions[1..]);
    }
  }

  lemma ReachableIsSafe(c: Config, actions: seq<Action>)
    requires c.Valid() && Runs(c, START, actions)
    ensures Safe(Outcomes(c, START, actions))
    ensures c.maxGroup <= c.brokerDedup ==> Ordered(c, Outcomes(c, START, actions))
  {
    RunsAreSafe(c, START, actions);
  }

  /** In every run, what the router has accepted is a prefix, without repetition, of what the CA
      has generated, if the deduplication depth covers a whole group. */
  lemma RoutedOnceAndInOrder(c: Config, actions: seq<Action>)
    requires c.Valid() && c.maxGroup <= c.brokerDedup && Runs(c, START, actions)
    ensures Outcomes(c, START, actions).routed <= Outcomes(c, START, actions).log.generated
    ensures DistinctIds(Outcomes(c, START, actions).routed)
  {
    ReachableIsSafe(c, actions);
    var s := Outcomes(c, START, actions);
    forall i: nat, j: nat | i < j < |s.routed| ensures !SameId(s.routed, i, j) {
      assert !SameId(s.log.generated, i, j);
    }
  }

  /** An Ack of a request that is on its way to the broker, however old its session or however
      often repeated, says that the router has accepted all deliveries of that request and of the
      ones before it. */
  lemma AckMeansRouted(c: Config, actions: seq<Action>, f: Frame)
    requires c.Valid() && Runs(c, START, actions)
    requires f in Outcomes(c, START, actions).toBroker && f.kind == Ack
    ensures var s := Outcomes(c, START, actions);
      exists k :: 0 <= k < |s.log.processed| && k < |s.log.ends| && s.log.processed[k].id == f.id
        && s.log.ends[k] <= |s.log.generated|
        && forall g :: g in s.log.generated[..s.log.ends[k]] ==> g in s.routed
  {
    ReachableIsSafe(c, actions);
    var s := Outcomes(c, START, actions);
    assert ToBrokerFrame(f, s.ca.current, s.broker.pending, s.log, s.routed);
    var k :| 0 <= k < |s.log.processed| && s.log.processed[k].id == f.id && AllRouted(s.log, k, s.routed);
    assert k < |s.log.ends| && s.log.ends[k] <= |s.log.generated|;
  }

  /** Whenever the broker has no outstanding request, every request it ever took was processed
      and every delivery was routed; nothing else was routed. */
  lemma IdleBrokerHasEverything(c: Config, actions: seq<Action>)
    requires c.Valid() && Runs(c, START, actions)
    requires Outcomes(c, START, actions).broker.pending == []
    ensures var s := Outcomes(c, START, actions);
      && s.log.processed == s.log.dequeued
      && (forall f :: f in s.log.generated <==> f in s.routed)
      && (c.maxGroup <= c.brokerDedup ==> s.routed == s.log.generated)
  {
    ReachableIsSafe(c, actions);
    var s := Outcomes(c, START, actions);
    if c.maxGroup <= c.brokerDedup && |s.routed| < |s.log.generated| {
      var f := s.log.generated[|s.routed|];
      assert f in s.log.generated && f in s.routed;
      RoutedIsBefore(s.log, s.routed, f, |s.routed|);
    }
  }

  /** The engine sees each request once, in the order of the broker, whatever the sizes of the
      two deduplication windows. */
  lemma ProcessedOnceAndInOrder(c: Config, actions: seq<Action>)
    requires c.Valid() && Runs(c, START, actions)
    ensures var s := Outcomes(c, START, actions);
      s.log.processed <= s.log.dequeued && DistinctIds(s.log.processed) && |s.log.dequeued| <= |s.log.processed| + 1
  {
    ReachableIsSafe(c, actions);
    var s := Outcomes(c, START, actions);
    forall i: nat, j: nat | i < j < |s.log.processed| ensures !SameId(s.log.processed, i, j) {
      assert !SameId(s.log.dequeued, i, j);
    }
  }

  /** `current_request` is set exactly while a delivery is unacknowledged, so a new group always
      finds an empty collection and the QueueFull branch is never taken. */
  lemma GroupsNeverOverflow(c: Config, actions: seq<Action>)
    requires c.Valid() && Runs(c, START, actions)
    ensures var s := Outcomes(c, START, actions);
      && (!s.caHalted ==> (s.ca.current.Some? <==> s.ca.pending != []))
      && !s.overflowed
      && forall outcome :: Enabled(c, s, CaReceive(outcome)) ==> !CaReact(c, s.ca, s.toCa[0], outcome).overflows
  {
    ReachableIsSafe(c, actions);
    var s := Outcomes(c, START, actions);
    forall outcome | Enabled(c, s, CaReceive(outcome)) ensures !CaReact(c, s.ca, s.toCa[0], outcome).overflows {
      if CaReact(c, s.ca, s.toCa[0], outcome).processes {
        EngineSeesNextRequest(c, s, outcome);
      }
    }
  }

  lemma {:induction false} RunsConcat(c: Config, s: System, first: seq<Action>, second: seq<Action>)
    requires Runs(c, s, first) && Runs(c, Outcomes(c, s, first), second)
    ensures Runs(c, s, first + second)
    ensures Outcomes(c, s, first + second) == Outcomes(c, Outcomes(c, s, first), second)
    decreases |first|
  {
    if first == [] {
      assert first + second == second;
    } else {
      RunsConcat(c, Step(c, s, first[0]), first[1..], second);
      assert (first + second)[1..] == first[1..] + second;
    }
  }

  lemma OneStep(c: Config, s: System, a: Action)
    requires Enabled(c, s, a)
    ensures Runs(c, s, [a]) && Outcomes(c, s, [a]) == Step(c, s, a)
  {
  }

  function Acks(frames: seq<Frame>): (acks: seq<Frame>)
    ensures |acks| == |frames|
  {
    if frames == [] then [] else [AckOf(frames[0].id)] + Acks(frames[1..])
  }

  /** A broker whose router accepts answers every delivery in flight. */
  lemma {:induction false} BrokerDrains(c: Config, s: System) returns (actions: seq<Action>)
    requires s.brokerOpen && c.brokerDedup > 0 && forall f :: f in s.toBroker ==> f.kind == Delivery
    ensures Runs(c, s, actions)
    ensures var t := Outcomes(c, s, actions);
      && t.toBroker == [] && t.toCa == s.toCa + Acks(s.toBroker)
      && t.brokerOpen && t.caOpen == s.caOpen && t.ca == s.ca && t.log == s.log && t.caHalted == s.caHalted
      && t.broker.pending == s.broker.pending
    decreases |s.toBroker|
  {
    if s.toBroker == [] {
      actions := [];
      assert s.toCa + [] == s.toCa;
    } else {
      var a := BrokerReceive(true);
      var t := Step(c, s, a);
      assert t.toCa == s.toCa + [AckOf(s.toBroker[0].id)];
      var rest := BrokerDrains(c, t);
      OneStep(c, s, a);
      RunsConcat(c, s, [a], rest);
      actions := [a] + rest;
      assert s.toCa + Acks(s.toBroker) == t.toCa + Acks(s.toBroker[1..]);
    }
  }

  lemma HeadAcknowledged(pending: seq<Frame>)
    requires pending != [] && DistinctIds(pending)
    ensures Acknowledge(pending, pending[0].id) == pending[1..] && DistinctIds(pending[1..])
  {
    var rest := pending[1..];
    forall f | f in rest ensures f.id != pending[0].id {
      var j :| 0 <= j < |rest| && rest[j] == f;
      assert !SameId(pending, 0, j + 1);
    }
    AcknowledgeOther(rest, pending[0].id);
    forall i: nat, j: nat | i < j < |rest| ensures !SameId(rest, i, j) {
      assert !SameId(pending, i + 1, j + 1);
    }
  }

  /** The CA that reads the Acks of all it holds completes the current request. */
  lemma {:induction false} CaDrains(c: Config, s: System, id: MessageId) returns (actions: seq<Action>)
    requires s.caOpen && s.ca.pending != [] && s.ca.current == Some(id) && DistinctIds(s.ca.pending)
    requires s.toCa == Acks(s.ca.pending)
    ensures Runs(c, s, actions)
    ensures var t := Outcomes(c, s, actions);
      && t.toBroker == s.toBroker + [AckOf(id)] && t.broker == s.broker && t.brokerOpen == s.brokerOpen
           && t.log == s.log
    decreases |s.ca.pending|
  {
    hide Runs, Outcomes;
    var a := CaReceive(Rejected);
    var t := Step(c, s, a);
    var rest := s.ca.pending[1..];
    HeadAcknowledged(s.ca.pending);
    hide DistinctIds;
    OneStep(c, s, a);
    if rest == [] {
      actions := [a];
    } else {
      assert s.toBroker + [] == s.toBroker;
      var more := CaDrains(c, t, id);
      RunsConcat(c, s, [a], more);
      actions := [a] + more;
    }
  }

  /** Both ends drop the session and meet in a new one. */
  lemma Reconnects(c: Config, s: System) returns (actions: seq<Action>)
    requires !s.caHalted
    ensures Runs(c, s, actions)
    ensures var t := Outcomes(c, s, actions);
      && t.toCa == s.broker.pending && t.toBroker == s.ca.pending && t.brokerOpen && t.caOpen
      && t.broker == s.broker && t.ca == s.ca && t.log == s.log && !t.caHalted && t.routed == s.routed
  {
    var closing := (if s.brokerOpen then [BrokerClose] else []) + (if s.caOpen then [CaClose] else []);
    var closed := (if s.caOpen then CloseCa(if s.brokerOpen then CloseBroker(s) else s)
                   else if s.brokerOpen then CloseBroker(s) else s);
    assert Runs(c, s, closing) && Outcomes(c, s, closing) == closed by {
      if s.brokerOpen {
        OneStep(c, s, BrokerClose);
        if s.caOpen {
          OneStep(c, CloseBroker(s), CaClose);
          RunsConcat(c, s, [BrokerClose], [CaClose]);
          assert closing == [BrokerClose] + [CaClose];
        } else {
          assert closing == [BrokerClose];
        }
      } else if s.caOpen {
        OneStep(c, s, CaClose);
        assert closing == [CaClose];
      } else {
        assert closing == [];
      }
    }
    var reopened := Step(c, closed, CaOpen);
    OneStep(c, closed, CaOpen);
    OneStep(c, reopened, BrokerJoin);
    RunsConcat(c, closed, [CaOpen], [BrokerJoin]);
    RunsConcat(c, s, closing, [CaOpen] + [BrokerJoin]);
    actions := closing + ([CaOpen] + [BrokerJoin]);
    assert [] + s.broker.pending == s.broker.pending;
  }

  lemma EngineAnswers(c: Config, s: System, outcome: Outcome)
    requires c.Valid() && c.caDedup > 0 && Safe(s) && !s.caHalted && FreshGroup(c, s, GroupOf(outcome))
    requires s.caOpen && s.toCa == s.broker.pending && s.log.processed != s.log.dequeued
    ensures Enabled(c, s, CaReceive(outcome))
    ensures var t := Step(c, s, CaReceive(outcome));
      Safe(t) && !t.caHalted && t.broker == s.broker && t.log.processed == t.log.dequeued == s.log.dequeued
  {
    NewIsUnknown(s);
    EngineSeesNextRequest(c, s, outcome);
    StepIsSafe(c, s, CaReceive(outcome));
  }

  /** A reconnection, the engine's answer if it has not seen the request yet, and a second
      reconnection bring the outstanding request in front of the CA that has processed it. */
  lemma ReachesProcessed(c: Config, s: System, outcome: Outcome) returns (actions: seq<Action>)
    requires c.Valid() && c.caDedup > 0 && Safe(s) && !s.caHalted && FreshGroup(c, s, GroupOf(outcome))
    ensures Runs(c, s, actions)
    ensures var t := Outcomes(c, s, actions);
      && !t.caHalted && t.brokerOpen && t.caOpen && t.log.processed == t.log.dequeued == s.log.dequeued
      && t.broker.pending == s.broker.pending && t.toCa == t.broker.pending && t.toBroker == t.ca.pending
  {
    actions := Reconnects(c, s);
    var t := Outcomes(c, s, actions);
    if t.log.processed != t.log.dequeued {
      RunsAreSafe(c, s, actions);
      EngineAnswers(c, t, outcome);
      var u := Step(c, t, CaReceive(outcome));
      OneStep(c, t, CaReceive(outcome));
      var again := Reconnects(c, u);
      RunsConcat(c, t, [CaReceive(outcome)], again);
      RunsConcat(c, s, actions, [CaReceive(outcome)] + again);
      actions := actions + ([CaReceive(outcome)] + again);
    }
  }

  lemma NewIsUnknown(s: System)
    requires Safe(s) && !s.caHalted && s.log.processed != s.log.dequeued
    ensures s.ca.current == None && s.broker.pending != [] && s.broker.pending[0].id !in s.ca.acquired
  {
    var f := s.broker.pending[0];
    forall id | IsProcessed(s.log, id) ensures id != f.id {
      var k :| 0 <= k < |s.log.processed| && s.log.processed[k].id == id;
      assert !SameId(s.log.dequeued, k, |s.log.dequeued| - 1);
    }
  }

  lemma Completes(c: Config, s: System, outcome: Outcome) returns (actions: seq<Action>)
    requires c.Valid() && c.caDedup > 0 && c.brokerDedup > 0 && Safe(s) && !s.caHalted
    requires FreshGroup(c, s, GroupOf(outcome))
    ensures Runs(c, s, actions)
    ensures Outcomes(c, s, actions).broker.pending == []
    ensures Outcomes(c, s, actions).log.dequeued == s.log.dequeued
  {
    if s.broker.pending == [] {
      actions := [];
      return;
    }
    actions := ReachesProcessed(c, s, outcome);
    var t := Outcomes(c, s, actions);
    RunsAreSafe(c, s, actions);
    forall f | f in t.toBroker ensures f.kind == Delivery {
      assert f in t.log.generated;
    }
    var drain := BrokerDrains(c, t);
    RunsConcat(c, s, actions, drain);
    actions := actions + drain;
    var u := Outcomes(c, t, drain);
    var finish := Finishes(c, u);
    RunsConcat(c, s, actions, finish);
    actions := actions + finish;
  }

  lemma {:induction false} NeverHalts(c: Config, s: System, actions: seq<Action>)
    requires c.caDedup > 0 && !s.caHalted && Runs(c, s, actions)
    ensures !Outcomes(c, s, actions).caHalted
    decreases |actions|
  {
    if actions != [] {
      NeverHalts(c, Step(c, s, actions[0]), actions[1..]);
    }
  }

  /** No run gets stuck: whatever the engine answers to the outstanding request, if it has not seen
      it yet, some continuation leaves an idle broker that has dequeued nothing more, and then
      `IdleBrokerHasEverything` applies. */
  lemma EveryRunCanComplete(c: Config, past: seq<Action>, outcome: Outcome) returns (future: seq<Action>)
    requires c.Valid() && c.caDedup > 0 && c.brokerDedup > 0 && Runs(c, START, past)
    requires FreshGroup(c, Outcomes(c, START, past), GroupOf(outcome))
    ensures Runs(c, START, past + future)
    ensures Outcomes(c, START, past + future).broker.pending == []
    ensures Outcomes(c, START, past + future).log.dequeued == Outcomes(c, START, past).log.dequeued
  {
    var s := Outcomes(c, START, past);
    ReachableIsSafe(c, past);
    NeverHalts(c, START, past);
    future := Completes(c, s, outcome);
    RunsConcat(c, START, past, future);
  }

  lemma ForgetsRequest(c: Config, s: System)
    requires s.brokerOpen && |s.broker.pending| == 1 && s.toBroker == [AckOf(s.broker.pending[0].id)]
    ensures Step(c, s, BrokerReceive(true)).broker.pending == [] && Step(c, s, BrokerReceive(true)).log == s.log
  {
    var pending, id := s.broker.pending, s.broker.pending[0].id;
    assert pending[1..] == [] && Acknowledge([], id) == [] && Acknowledge(pending, id) == Acknowledge(pending[1..], id);
    assert s.toCa + [] == s.toCa;
  }

  lemma Finishes(c: Config, s: System) returns (actions: seq<Action>)
    requires s.log.processed == s.log.dequeued && Logged(s.log) && s.log.dequeued != []
    requires s.broker.pending == [Last(s.log.dequeued)] && s.brokerOpen && s.caOpen
    requires CaMemory(s.ca, s.broker.pending, s.log)
    requires s.toBroker == [] && s.toCa == s.broker.pending + Acks(s.ca.pending)
    ensures Runs(c, s, actions)
    ensures Outcomes(c, s, actions).broker.pending == [] && Outcomes(c, s, actions).log.dequeued == s.log.dequeued
  {
    hide Runs, Outcomes;
    var request := s.broker.pending[0];
    var a := CaReceive(Rejected);
    var t := Step(c, s, a);
    assert s.toCa[1..] == Acks(s.ca.pending);
    assert request in s.log.dequeued;
    assert t.log == s.log;
    OneStep(c, s, a);
    actions := [a];
    if s.ca.pending != [] {
      assert t.toBroker == [];
      var drain := CaDrains(c, t, request.id);
      RunsConcat(c, s, [a], drain);
      actions := [a] + drain;
      t := Outcomes(c, t, drain);
    }
    assert t.toBroker == [AckOf(request.id)] && t.log == s.log && Outcomes(c, s, actions) == t;
    var u := Step(c, t, BrokerReceive(true));
    ForgetsRequest(c, t);
    OneStep(c, t, BrokerReceive(true));
    RunsConcat(c, s, actions, [BrokerReceive(true)]);
    actions := actions + [BrokerReceive(true)];
    assert Outcomes(c, s, actions) == u;
  }

  /** The deliveries with identifiers 1 to `n`. */
  function Group(n: usize): (group: seq<Frame>)
    ensures |group| == n
    ensures forall i :: 0 <= i < n ==> group[i] == Frame(Delivery, i + 1, [])
  {
    if n == 0 then [] else Group(n - 1) + [Frame(Delivery, n, [])]
  }

  lemma RoutesNext(c: Config, s: System)
    requires s.brokerOpen && c.brokerDedup > 0 && s.toBroker != [] && s.toBroker[0].kind == Delivery
    requires RemembersLatest(s.broker.acquired, s.routed, c.brokerDedup) && DistinctIds(s.routed + s.toBroker)
    ensures var t := Step(c, s, BrokerReceive(true));
      && t.routed == s.routed + [s.toBroker[0]] && t.toBroker == s.toBroker[1..] && t.brokerOpen
      && RemembersLatest(t.broker.acquired, t.routed, c.brokerDedup) && t.ca == s.ca && t.caHalted == s.caHalted
  {
    var f := s.toBroker[0];
    if f.id in s.broker.acquired {
      var k :| 0 <= k < |s.broker.acquired| && s.broker.acquired[k] == f.id;
      assert SameId(s.routed + s.toBroker, |s.routed| - |s.broker.acquired| + k, |s.routed|);
      assert false;
    }
    AcquireRemembers(s.broker.acquired, s.routed, f, c.brokerDedup);
  }

  /** A broker whose router accepts new deliveries routes them all, if its window has any depth. */
  lemma {:induction false} BrokerRoutes(c: Config, s: System) returns (actions: seq<Action>)
    requires s.brokerOpen && c.brokerDedup > 0 && forall f :: f in s.toBroker ==> f.kind == Delivery
    requires RemembersLatest(s.broker.acquired, s.routed, c.brokerDedup) && DistinctIds(s.routed + s.toBroker)
    ensures Runs(c, s, actions)
    ensures var t := Outcomes(c, s, actions);
      && t.routed == s.routed + s.toBroker && RemembersLatest(t.broker.acquired, t.routed, c.brokerDedup)
      && t.ca == s.ca && t.caHalted == s.caHalted
    decreases |s.toBroker|
  {
    if s.toBroker == [] {
      actions := [];
      assert s.routed + [] == s.routed;
    } else {
      RoutesNext(c, s);
      var t := Step(c, s, BrokerReceive(true));
      assert t.routed + t.toBroker == s.routed + s.toBroker;
      var rest := BrokerRoutes(c, t);
      OneStep(c, s, BrokerReceive(true));
      RunsConcat(c, s, [BrokerReceive(true)], rest);
      actions := [BrokerReceive(true)] + rest;
    }
  }

  /** A first session with a request on its way to the CA. */
  lemma RequestInFlight(c: Config) returns (actions: seq<Action>, s: System)
    requires c.Valid() && c.brokerPending > 0
    ensures Runs(c, START, actions) && Outcomes(c, START, actions) == s
    ensures s == START.(caOpen := true, brokerOpen := true, broker := s.broker, toCa := [Frame(Request, 0, [])],
                        log := START.log.(dequeued := [Frame(Request, 0, [])]))
    ensures s.broker == START.broker.(pending := [Frame(Request, 0, [])])
  {
    hide Runs, Outcomes;
    var joined := Step(c, Step(c, START, CaOpen), BrokerJoin);
    OneStep(c, START, CaOpen);
    OneStep(c, Step(c, START, CaOpen), BrokerJoin);
    RunsConcat(c, START, [CaOpen], [BrokerJoin]);
    s := Step(c, joined, Dequeue(0, []));
    OneStep(c, joined, Dequeue(0, []));
    RunsConcat(c, START, [CaOpen] + [BrokerJoin], [Dequeue(0, [])]);
    actions := ([CaOpen] + [BrokerJoin]) + [Dequeue(0, [])];
  }

  /** A first session in which one publication makes a group of `n` deliveries. */
  lemma GroupInFlight(c: Config, n: usize) returns (actions: seq<Action>)
    requires c.Valid() && c.brokerPending > 0 && c.caDedup > 0 && 0 < n <= c.maxGroup
    ensures Runs(c, START, actions)
    ensures var s := Outcomes(c, START, actions);
      s.toBroker == s.ca.pending == Group(n) && s.brokerOpen && !s.caHalted && s.routed == [] && s.broker.acquired == []
  {
    hide Runs, Outcomes;
    var past, asked := RequestInFlight(c);
    var outcome := Deliveries(Group(n));
    GroupIsDistinct(n);
    assert FreshGroup(c, asked, Group(n));
    hide DistinctIds;
    assert [] + Group(n) == Group(n);
    OneStep(c, asked, CaReceive(outcome));
    RunsConcat(c, START, past, [CaReceive(outcome)]);
    actions := past + [CaReceive(outcome)];
    assert Outcomes(c, START, actions) == Step(c, asked, CaReceive(outcome));
  }

  lemma GroupIsDistinct(n: usize)
    ensures DistinctIds(Group(n))
  {
  }

  /** The router accepts the whole group once, and the window has already lost its first member. */
  lemma GroupIsRouted(c: Config, s: System) returns (actions: seq<Action>)
    requires c.brokerDedup < U64_MAX && s.brokerOpen && s.toBroker == Group(c.brokerDedup + 1)
    requires s.routed == [] && s.broker.acquired == []
    ensures Runs(c, s, actions)
    ensures var t := Outcomes(c, s, actions);
      t.routed == s.toBroker && t.ca == s.ca && t.caHalted == s.caHalted && s.toBroker[0].id !in t.broker.acquired
  {
    hide Runs, Outcomes;
    var group := s.toBroker;
    assert s.routed + group == group;
    GroupIsDistinct(c.brokerDedup + 1);
    if c.brokerDedup == 0 {
      actions := [BrokerReceive(true)];
      OneStep(c, s, BrokerReceive(true));
      assert group == [group[0]];
    } else {
      actions := BrokerRoutes(c, s);
      assert forall k :: 1 <= k < |group| ==> group[k].id != group[0].id;
    }
  }

  /** With a window one entry too small for a group, a reconnection after the group has been
      routed, and before its Acks are read, routes its first delivery a second time. */
  lemma ShallowWindowRepeats(c: Config) returns (actions: seq<Action>)
    requires c.Valid() && c.brokerPending > 0 && c.caDedup > 0 && c.brokerDedup < c.maxGroup
    ensures Runs(c, START, actions) && !DistinctIds(Outcomes(c, START, actions).routed)
  {
    var n: usize := c.brokerDedup + 1;
    var first := GroupInFlight(c, n);
    var s := Outcomes(c, START, first);
    var second := GroupIsRouted(c, s);
    var t := Outcomes(c, s, second);
    var third := Reconnects(c, t);
    var u := Outcomes(c, t, third);
    OneStep(c, u, BrokerReceive(true));
    RunsConcat(c, t, third, [BrokerReceive(true)]);
    RunsConcat(c, s, second, third + [BrokerReceive(true)]);
    RunsConcat(c, START, first, second + (third + [BrokerReceive(true)]));
    actions := first + (second + (third + [BrokerReceive(true)]));
    assert SameId(Step(c, u, BrokerReceive(true)).routed, 0, n);
  }

  ghost predicate RoutesOnce(c: Config) {
    forall actions :: Runs(c, START, actions) ==> DistinctIds(Outcomes(c, START, actions).routed)
  }

  /** The exact condition: deliveries are routed at most once in every run if and only if the
      deduplication depth of the broker covers the largest group. Nothing in the code checks it. */
  lemma DepthIsExact(c: Config)
    requires c.Valid() && c.brokerPending > 0 && c.caDedup > 0
    ensures RoutesOnce(c) <==> c.maxGroup <= c.brokerDedup
  {
    if c.maxGroup <= c.brokerDedup {
      forall actions | Runs(c, START, actions) ensures DistinctIds(Outcomes(c, START, actions).routed) {
        RoutedOnceAndInOrder(c, actions);
      }
    } else {
      var actions := ShallowWindowRepeats(c);
      assert !RoutesOnce(c);
    }
  }
}
