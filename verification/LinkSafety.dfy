/** Every step of the Broker--CA link keeps `LinkInvariant.Safe`. */
module LinkSafety {
  import opened Bytes
  import opened Types
  import opened LinkProtocol
  import opened LinkInvariant

  lemma SameFrame(frames: seq<Frame>, i: nat, j: nat)
    requires DistinctIds(frames) && i < |frames| && j < |frames| && frames[i].id == frames[j].id
    ensures i == j
  {
    assert SameId(frames, i, j) && SameId(frames, j, i);
  }

  lemma SameMember(frames: seq<Frame>, f: Frame, g: Frame)
    requires DistinctIds(frames) && f in frames && g in frames && f.id == g.id
    ensures f == g
  {
    var i :| 0 <= i < |frames| && frames[i] == f;
    var j :| 0 <= j < |frames| && frames[j] == g;
    SameFrame(frames, i, j);
  }

  lemma DistinctConcat(xs: seq<Frame>, ys: seq<Frame>)
    requires DistinctIds(xs) && DistinctIds(ys) && forall f, g :: f in xs && g in ys ==> f.id != g.id
    ensures DistinctIds(xs + ys)
  {
    forall i: nat, j: nat | i < j < |xs + ys| ensures !SameId(xs + ys, i, j) {
      if j < |xs| {
        assert !SameId(xs, i, j);
      } else if i >= |xs| {
        assert !SameId(ys, i - |xs|, j - |xs|);
      } else {
        assert (xs + ys)[i] in xs && (xs + ys)[j] in ys;
      }
    }
  }

  lemma AppendInOrder(toCa: seq<Frame>, sent: seq<Frame>, log: Log)
    requires RequestsInOrder(toCa, log) && |sent| <= 1
    requires forall f :: f in toCa && IsNew(log, f) ==> forall g :: g in sent && g.kind == Request ==> IsNew(log, g)
    ensures RequestsInOrder(toCa + sent, log)
  {
    var all := toCa + sent;
    forall i: nat, j: nat | i < j < |all| ensures !StaleRequest(all, i, j, log) {
      assert j < |toCa| ==> !StaleRequest(toCa, i, j, log);
      assert j >= |toCa| ==> all[j] in sent;
      assert all[i] in toCa;
    }
  }

  lemma AppendNotLate(toBroker: seq<Frame>, sent: seq<Frame>, log: Log)
    requires AckIsLast(toBroker, log)
    requires (forall f :: f in sent ==> f.kind == Delivery) || |sent| <= 1
    requires (forall f :: f in sent ==> f.kind != Delivery) || (forall f :: f in toBroker ==> !IsFinalAck(log, f))
    ensures AckIsLast(toBroker + sent, log)
  {
    var all := toBroker + sent;
    forall i: nat, j: nat | i < j < |all| ensures !LateDelivery(all, i, j, log) {
      assert j < |toBroker| ==> !LateDelivery(toBroker, i, j, log);
      assert i < |toBroker| ==> all[i] in toBroker;
      assert i >= |toBroker| ==> all[i] in sent;
      assert j >= |toBroker| ==> all[j] in sent;
    }
  }

  lemma {:induction false} AcknowledgeRemoves(pending: seq<Frame>, id: MessageId)
    ensures forall f :: f in Acknowledge(pending, id) <==> f in pending && f.id != id
  {
    if pending != [] {
      AcknowledgeRemoves(pending[1..], id);
      assert pending == [pending[0]] + pending[1..];
    }
  }

  lemma {:induction false} AcknowledgeKeepsDistinct(pending: seq<Frame>, id: MessageId)
    requires DistinctIds(pending)
    ensures DistinctIds(Acknowledge(pending, id))
  {
    if pending != [] {
      var rest := pending[1..];
      forall i: nat, j: nat | i < j < |rest| ensures !SameId(rest, i, j) {
        assert !SameId(pending, i + 1, j + 1);
      }
      AcknowledgeKeepsDistinct(rest, id);
      if pending[0].id != id {
        AcknowledgeRemoves(rest, id);
        forall f | f in rest ensures f.id != pending[0].id {
          var j :| 0 <= j < |rest| && rest[j] == f;
          assert !SameId(pending, 0, j + 1);
        }
        DistinctConcat([pending[0]], Acknowledge(rest, id));
      }
    }
  }

  lemma AcknowledgeOther(pending: seq<Frame>, id: MessageId)
    requires forall f :: f in pending ==> f.id != id
    ensures Acknowledge(pending, id) == pending
  {
  }

  lemma CaSends(s: System)
    requires Safe(s) && !s.caHalted
    ensures ToBroker(s.toBroker + s.ca.pending, s.ca.current, s.broker.pending, s.log, s.routed)
    ensures ToBroker(s.ca.pending, s.ca.current, s.broker.pending, s.log, s.routed)
  {
    forall f | f in s.ca.pending
      ensures f.kind == Delivery && ToBrokerFrame(f, s.ca.current, s.broker.pending, s.log, s.routed)
    {
      assert f in s.log.generated;
    }
    if s.ca.pending != [] {
      forall f | f in s.toBroker ensures !IsFinalAck(s.log, f) {
        assert ToBrokerFrame(f, s.ca.current, s.broker.pending, s.log, s.routed);
      }
    }
    AppendNotLate(s.toBroker, s.ca.pending, s.log);
    AppendNotLate([], s.ca.pending, s.log);
    assert [] + s.ca.pending == s.ca.pending;
  }

  lemma OpenIsSafe(c: Config, s: System)
    requires Safe(s) && Enabled(c, s, CaOpen)
    ensures Safe(Step(c, s, CaOpen))
  {
    CaSends(s);
  }

  lemma CaRetryIsSafe(c: Config, s: System)
    requires Safe(s) && Enabled(c, s, CaRetry)
    ensures Safe(Step(c, s, CaRetry))
  {
    CaSends(s);
  }

  lemma BrokerSends(s: System)
    requires Logged(s.log) && StopAndWait(s.broker.pending, s.log) && ToCa(s.toCa, s.log, s.routed)
    ensures ToCa(s.toCa + s.broker.pending, s.log, s.routed)
  {
    AppendInOrder(s.toCa, s.broker.pending, s.log);
  }

  lemma DequeueIsLogged(log: Log, f: Frame)
    requires Logged(log) && f.kind == Request
    requires (forall g :: g in log.dequeued ==> g.id != f.id) && (forall g :: g in log.generated ==> g.id != f.id)
    ensures Logged(log.(dequeued := log.dequeued + [f]))
  {
    DistinctConcat(log.dequeued, [f]);
  }

  lemma DequeueToCa(toCa: seq<Frame>, log: Log, routed: seq<Frame>, f: Frame)
    requires ToCa(toCa, log, routed) && log.processed == log.dequeued && f.kind == Request
    requires forall g :: g in log.dequeued ==> g.id != f.id
    ensures ToCa(toCa + [f], log.(dequeued := log.dequeued + [f]), routed)
  {
    var next := log.(dequeued := log.dequeued + [f]);
    forall g | g in toCa ensures ToCaFrame(g, next, routed) && !IsNew(next, g) {
      assert ToCaFrame(g, log, routed);
      assert g.kind == Request ==> g in log.dequeued;
    }
    forall i: nat, j: nat | i < j < |toCa| ensures !StaleRequest(toCa, i, j, next) {
      assert toCa[i] in toCa;
    }
    AppendInOrder(toCa, [f], next);
  }

  lemma DequeueToBroker(s: System, log: Log, pending: seq<Frame>)
    requires Logged(s.log) && ToBroker(s.toBroker, s.ca.current, [], s.log, s.routed)
    requires Logged(log) && log == s.log.(dequeued := log.dequeued)
    ensures ToBroker(s.toBroker, s.ca.current, pending, log, s.routed)
  {
    forall f | f in s.toBroker ensures ToBrokerFrame(f, s.ca.current, pending, log, s.routed) {
      assert ToBrokerFrame(f, s.ca.current, [], s.log, s.routed);
      DequeueKeepsCompleted(s.log, log, f.id, s.routed);
    }
    forall i: nat, j: nat | i < j < |s.toBroker| ensures !LateDelivery(s.toBroker, i, j, log) {
      assert !LateDelivery(s.toBroker, i, j, s.log);
    }
  }

  lemma DequeueKeepsCompleted(log: Log, next: Log, id: MessageId, routed: seq<Frame>)
    requires Logged(log) && Logged(next) && next == log.(dequeued := next.dequeued)
    requires Completed(id, log, routed)
    ensures Completed(id, next, routed)
  {
  }

  lemma DequeueIsSafe(c: Config, s: System, id: MessageId, payload: seq<byte>)
    requires Safe(s) && Enabled(c, s, Dequeue(id, payload))
    ensures Safe(Step(c, s, Dequeue(id, payload)))
  {
    var t := Step(c, s, Dequeue(id, payload));
    DequeueIsLogged(s.log, t.broker.pending[0]);
    DequeueToCa(s.toCa, s.log, s.routed, t.broker.pending[0]);
    DequeueToBroker(s, t.log, t.broker.pending);
    forall id | IsProcessed(s.log, id) ensures IsProcessed(t.log, id) {
      var k :| 0 <= k < |s.log.processed| && s.log.processed[k].id == id;
      assert t.log.processed[k].id == id;
    }
  }

  lemma PopToBroker(s: System)
    requires Logged(s.log) && s.toBroker != []
    requires ToBroker(s.toBroker, s.ca.current, s.broker.pending, s.log, s.routed)
    ensures ToBroker(s.toBroker[1..], s.ca.current, s.broker.pending, s.log, s.routed)
  {
    forall i: nat, j: nat | i < j < |s.toBroker| - 1 ensures !LateDelivery(s.toBroker[1..], i, j, s.log) {
      assert !LateDelivery(s.toBroker, i + 1, j + 1, s.log);
    }
  }

  lemma PopToCa(s: System)
    requires s.toCa != [] && ToCa(s.toCa, s.log, s.routed)
    ensures ToCa(s.toCa[1..], s.log, s.routed)
  {
    forall i: nat, j: nat | i < j < |s.toCa| - 1 ensures !StaleRequest(s.toCa[1..], i, j, s.log) {
      assert !StaleRequest(s.toCa, i + 1, j + 1, s.log);
    }
  }

  lemma AckToCa(toCa: seq<Frame>, log: Log, routed: seq<Frame>, id: MessageId)
    requires ToCa(toCa, log, routed) && IsRouted(routed, id)
    ensures ToCa(toCa + [AckOf(id)], log, routed)
  {
    AppendInOrder(toCa, [AckOf(id)], log);
  }

  /** Routing one more generated delivery falsifies nothing. */
  lemma RoutingIsSafe(s: System, f: Frame)
    requires Safe(s) && f in s.log.generated
    ensures Safe(s.(routed := s.routed + [f]))
  {
  }

  /** The Ack of the outstanding request comes after its last delivery. */
  lemma FinalAckIsLast(s: System)
    requires Logged(s.log) && StopAndWait(s.broker.pending, s.log) && s.broker.pending != []
    requires ToBroker(s.toBroker, s.ca.current, s.broker.pending, s.log, s.routed)
    requires s.toBroker != [] && s.toBroker[0].kind == Ack && s.toBroker[0].id == s.broker.pending[0].id
    ensures s.log.processed == s.log.dequeued && s.ca.current != Some(Last(s.log.processed).id)
    ensures IdleIsComplete([], s.log.generated, s.routed)
    ensures ToBroker(s.toBroker[1..], s.ca.current, [], s.log, s.routed)
  {
    var f := s.toBroker[0];
    assert ToBrokerFrame(f, s.ca.current, s.broker.pending, s.log, s.routed);
    var k :| 0 <= k < |s.log.processed| && s.log.processed[k].id == f.id && AllRouted(s.log, k, s.routed);
    SameFrame(s.log.dequeued, k, |s.log.dequeued| - 1);
    assert s.log.processed == s.log.dequeued && IsFinalAck(s.log, f);
    assert s.log.generated[..s.log.ends[k]] == s.log.generated;
    PopToBroker(s);
    forall g | g in s.toBroker[1..] ensures ToBrokerFrame(g, s.ca.current, [], s.log, s.routed) {
      var j :| 0 <= j < |s.toBroker| - 1 && g == s.toBroker[1..][j];
      assert !LateDelivery(s.toBroker, 0, j + 1, s.log);
      assert ToBrokerFrame(g, s.ca.current, s.broker.pending, s.log, s.routed);
    }
  }

  /** An Ack of the outstanding request ends it; any other Ack changes nothing. */
  lemma AcknowledgedIsSafe(s: System, f: Frame)
    requires Safe(s) && s.toBroker != [] && f == s.toBroker[0] && f.kind == Ack
    ensures Safe(s.(toBroker := s.toBroker[1..], broker := s.broker.(pending := Acknowledge(s.broker.pending, f.id))))
  {
    if s.broker.pending != [] && s.broker.pending[0].id == f.id {
      FinalAckIsLast(s);
    } else {
      PopToBroker(s);
      AcknowledgeOther(s.broker.pending, f.id);
    }
  }

  lemma AckAtBrokerIsSafe(c: Config, s: System, accepts: bool)
    requires Safe(s) && Enabled(c, s, BrokerReceive(accepts)) && s.toBroker[0].kind != Delivery
    ensures Safe(Step(c, s, BrokerReceive(accepts)))
  {
    assert ToBrokerFrame(s.toBroker[0], s.ca.current, s.broker.pending, s.log, s.routed);
    AcknowledgedIsSafe(s, s.toBroker[0]);
    assert s.toCa + [] == s.toCa;
  }

  lemma DeliveryIsRouted(c: Config, s: System)
    requires Safe(s) && Enabled(c, s, BrokerReceive(true)) && s.toBroker[0].kind == Delivery
    requires s.toBroker[0].id !in s.broker.acquired
    ensures Safe(Step(c, s, BrokerReceive(true)))
  {
    var f := s.toBroker[0];
    var r := BrokerReact(c, s.broker, f, true);
    var routed := s.routed + [f];
    PopToBroker(s);
    assert ToBrokerFrame(f, s.ca.current, s.broker.pending, s.log, s.routed);
    RoutingIsSafe(s.(toBroker := s.toBroker[1..]), f);
    assert f in routed && IsRouted(routed, f.id);
    if r.goesOn {
      AckToCa(s.toCa, s.log, routed, f.id);
      assert forall id :: id in r.state.acquired ==> id in s.broker.acquired || id == f.id;
    } else {
      assert s.toCa + [] == s.toCa;
    }
  }

  lemma BrokerReceiveIsSafe(c: Config, s: System, accepts: bool)
    requires Safe(s) && Enabled(c, s, BrokerReceive(accepts))
    ensures Safe(Step(c, s, BrokerReceive(accepts)))
  {
    if s.toBroker[0].kind != Delivery {
      AckAtBrokerIsSafe(c, s, accepts);
    } else if s.toBroker[0].id in s.broker.acquired {
      PopToBroker(s);
      AckToCa(s.toCa, s.log, s.routed, s.toBroker[0].id);
    } else if accepts {
      DeliveryIsRouted(c, s);
    } else {
      assert s.toCa + [] == s.toCa;
    }
  }

  /** Dropping an acknowledged delivery loses nothing, because only routed deliveries are acknowledged. */
  lemma AcknowledgeLosesNothing(held: seq<Frame>, log: Log, routed: seq<Frame>, id: MessageId)
    requires Logged(log) && NothingLost(held, log.generated, routed) && IsRouted(routed, id)
    ensures NothingLost(Acknowledge(held, id), log.generated, routed)
  {
    AcknowledgeRemoves(held, id);
    var g :| g in routed && g.id == id;
    forall f | f in log.generated ensures f in routed || f in Acknowledge(held, id) {
      if f.id == id {
        SameMember(log.generated, f, g);
      }
    }
  }

  /** Once nothing is held, every request processed so far is completed. */
  lemma NothingHeld(log: Log, routed: seq<Frame>, k: nat)
    requires Logged(log) && NothingLost([], log.generated, routed) && k < |log.processed|
    ensures Completed(log.processed[k].id, log, routed)
  {
  }

  lemma CompletionToBroker(s: System, id: MessageId)
    requires Logged(s.log) && ToBroker(s.toBroker, s.ca.current, s.broker.pending, s.log, s.routed)
    requires Completed(id, s.log, s.routed)
    ensures ToBroker(s.toBroker + [AckOf(id)], None, s.broker.pending, s.log, s.routed)
  {
    AppendNotLate(s.toBroker, [AckOf(id)], s.log);
    forall g | g in s.toBroker + [AckOf(id)] ensures ToBrokerFrame(g, None, s.broker.pending, s.log, s.routed) {
      assert g in s.toBroker ==> ToBrokerFrame(g, s.ca.current, s.broker.pending, s.log, s.routed);
    }
  }

  lemma AckReceivedIsSafe(c: Config, s: System, outcome: Outcome)
    requires Safe(s) && Enabled(c, s, CaReceive(outcome)) && s.toCa[0].kind == Ack
    ensures Safe(Step(c, s, CaReceive(outcome)))
  {
    var f := s.toCa[0];
    var rest := Acknowledge(s.ca.pending, f.id);
    PopToCa(s);
    assert ToCaFrame(f, s.log, s.routed);
    AcknowledgeLosesNothing(s.ca.pending, s.log, s.routed, f.id);
    AcknowledgeRemoves(s.ca.pending, f.id);
    hide ToCa, ToCaFrame, NothingLost, IdleIsComplete, AcquiredAreRouted, StopAndWait;
    if !s.caHalted {
      AcknowledgeKeepsDistinct(s.ca.pending, f.id);
    }
    if rest == [] && s.ca.current.Some? {
      if !s.caHalted {
        NothingHeld(s.log, s.routed, |s.log.processed| - 1);
        CompletionToBroker(s, Last(s.log.processed).id);
      }
    } else {
      assert s.toBroker + [] == s.toBroker;
    }
  }

  /** The request that reaches the engine is the next one in the order of the broker, and the CA
      holds no other delivery group at that moment. */
  lemma EngineSeesNextRequest(c: Config, s: System, outcome: Outcome)
    requires c.Valid() && Safe(s) && Enabled(c, s, CaReceive(outcome))
    requires CaReact(c, s.ca, s.toCa[0], outcome).processes
    ensures IsNew(s.log, s.toCa[0]) && s.ca.current == None && s.ca.pending == []
    ensures !CaReact(c, s.ca, s.toCa[0], outcome).overflows
  {
    assert ToCaFrame(s.toCa[0], s.log, s.routed);
  }

  lemma ProcessedIsLogged(c: Config, s: System, f: Frame, group: seq<Frame>)
    requires Logged(s.log) && IsNew(s.log, f) && FreshGroup(c, s, group)
    ensures Logged(Processed(s.log, f, group))
    ensures Processed(s.log, f, group).generated[GroupStart(Processed(s.log, f, group))..] == group
  {
    var log := Processed(s.log, f, group);
    assert log.processed == log.dequeued;
    DistinctConcat(s.log.generated, group);
    assert log.generated[|s.log.generated|..] == group;
  }

  lemma ProcessedKeepsCompleted(log: Log, f: Frame, group: seq<Frame>, routed: seq<Frame>, id: MessageId)
    requires Logged(log) && IsNew(log, f) && Logged(Processed(log, f, group)) && Completed(id, log, routed)
    ensures Completed(id, Processed(log, f, group), routed) && id != f.id
  {
    var next := Processed(log, f, group);
    var k :| 0 <= k < |log.processed| && log.processed[k].id == id && AllRouted(log, k, routed);
    assert next.generated[..next.ends[k]] == log.generated[..log.ends[k]];
    assert AllRouted(next, k, routed);
    assert !SameId(log.dequeued, k, |log.dequeued| - 1);
  }

  lemma ProcessingToCa(toCa: seq<Frame>, log: Log, routed: seq<Frame>, group: seq<Frame>)
    requires ToCa(toCa, log, routed) && toCa != [] && IsNew(log, toCa[0]) && log.processed <= log.dequeued
    ensures ToCa(toCa[1..], Processed(log, toCa[0], group), routed)
  {
    var next := Processed(log, toCa[0], group);
    forall f | f in toCa[1..] ensures ToCaFrame(f, next, routed) {
      var j :| 0 <= j < |toCa| - 1 && toCa[1..][j] == f;
      assert f == toCa[j + 1] && ToCaFrame(f, log, routed) && !StaleRequest(toCa, 0, j + 1, log);
    }
  }

  /** Before the engine runs, nothing towards the broker belongs to the request it will see. */
  lemma EarlierAcks(s: System, f: Frame, group: seq<Frame>, current: Option<MessageId>, g: Frame)
    requires Logged(s.log) && IsNew(s.log, f) && Logged(Processed(s.log, f, group))
    requires ToBrokerFrame(g, s.ca.current, s.broker.pending, s.log, s.routed)
    requires current == None || current == Some(f.id)
    ensures ToBrokerFrame(g, current, s.broker.pending, Processed(s.log, f, group), s.routed)
    ensures !IsFinalAck(Processed(s.log, f, group), g)
  {
    ProcessedKeepsCompleted(s.log, f, group, s.routed, g.id);
  }

  lemma ProcessingToBroker(s: System, f: Frame, group: seq<Frame>, current: Option<MessageId>, sent: seq<Frame>)
    requires Logged(s.log) && ToBroker(s.toBroker, s.ca.current, s.broker.pending, s.log, s.routed)
    requires IsNew(s.log, f) && s.broker.pending != [] && NothingLost([], s.log.generated, s.routed)
    requires Logged(Processed(s.log, f, group)) && (forall g :: g in group ==> g.kind == Delivery)
    requires Processed(s.log, f, group).generated[GroupStart(Processed(s.log, f, group))..] == group
    requires current == None || current == Some(f.id)
    requires sent == [] || sent == group || (group == [] && current == None && sent == [AckOf(f.id)])
    ensures ToBroker(s.toBroker + sent, current, s.broker.pending, Processed(s.log, f, group), s.routed)
  {
    var log := Processed(s.log, f, group);
    forall g | g in s.toBroker
      ensures ToBrokerFrame(g, current, s.broker.pending, log, s.routed) && !IsFinalAck(log, g)
    {
      EarlierAcks(s, f, group, current, g);
    }
    forall g | g in sent ensures ToBrokerFrame(g, current, s.broker.pending, log, s.routed) {
      assert log.processed == log.dequeued;
      if group == [] {
        assert log.generated == s.log.generated;
        NothingHeld(log, s.routed, |log.processed| - 1);
      }
    }
    forall i: nat, j: nat | i < j < |s.toBroker| ensures !LateDelivery(s.toBroker, i, j, log) {
      assert s.toBroker[i] in s.toBroker;
    }
    AppendNotLate(s.toBroker, sent, log);
  }

  lemma ProcessingMemory(c: Config, s: System, f: Frame, group: seq<Frame>, window: seq<MessageId>)
    requires Logged(s.log) && CaMemory(s.ca, s.broker.pending, s.log)
    requires IsNew(s.log, f) && s.broker.pending != [] && Acquire(s.ca.acquired, f.id, c.caDedup) == Some(window)
    requires DistinctIds(group) && Logged(Processed(s.log, f, group))
    requires Processed(s.log, f, group).generated[GroupStart(Processed(s.log, f, group))..] == group
    ensures CaMemory(CaState(group, window, if group == [] then None else Some(f.id)), s.broker.pending,
      Processed(s.log, f, group))
  {
    var log := Processed(s.log, f, group);
    forall id | id in window ensures IsProcessed(log, id) {
      if id == f.id {
        assert log.processed[|log.processed| - 1].id == id;
      } else {
        assert id in s.ca.acquired && IsProcessed(s.log, id);
        var k :| 0 <= k < |s.log.processed| && s.log.processed[k].id == id;
        assert log.processed[k].id == id;
      }
    }
  }

  lemma ProcessingIsSafe(c: Config, s: System, outcome: Outcome)
    requires c.Valid() && Safe(s) && Enabled(c, s, CaReceive(outcome))
    requires CaReact(c, s.ca, s.toCa[0], outcome).processes
    ensures Safe(Step(c, s, CaReceive(outcome)))
  {
    var f, group := s.toCa[0], GroupOf(outcome);
    var r := CaReact(c, s.ca, f, outcome);
    EngineSeesNextRequest(c, s, outcome);
    ProcessedIsLogged(c, s, f, group);
    ProcessingToCa(s.toCa, s.log, s.routed, group);
    ProcessingToBroker(s, f, group, r.state.current, r.sent);
    assert s.ca.pending + group == group;
    if r.goesOn {
      ProcessingMemory(c, s, f, group, r.state.acquired);
    }
  }

  lemma RequestReceivedIsSafe(c: Config, s: System, outcome: Outcome)
    requires c.Valid() && Safe(s) && Enabled(c, s, CaReceive(outcome))
    requires s.toCa[0].kind != Ack && !CaReact(c, s.ca, s.toCa[0], outcome).processes
    ensures Safe(Step(c, s, CaReceive(outcome)))
  {
    var f := s.toCa[0];
    var r := CaReact(c, s.ca, f, outcome);
    PopToCa(s);
    assert ToCaFrame(f, s.log, s.routed);
    if r.sent == [] {
      assert s.toBroker + [] == s.toBroker;
    } else {
      var k :| 0 <= k < |s.log.processed| && s.log.processed[k].id == f.id;
      NothingHeld(s.log, s.routed, k);
      CompletionToBroker(s, f.id);
    }
  }

  lemma StepIsSafe(c: Config, s: System, a: Action)
    requires c.Valid() && Safe(s) && Enabled(c, s, a)
    ensures Safe(Step(c, s, a))
  {
    match a
    case CaOpen => OpenIsSafe(c, s);
    case BrokerJoin => BrokerSends(s);
    case Dequeue(id, payload) => DequeueIsSafe(c, s, id, payload);
    case BrokerReceive(accepts) => BrokerReceiveIsSafe(c, s, accepts);
    case BrokerRetry => BrokerSends(s);
    case BrokerClose =>
    case CaReceive(outcome) =>
      if s.toCa[0].kind == Ack {
        AckReceivedIsSafe(c, s, outcome);
      } else if CaReact(c, s.ca, s.toCa[0], outcome).processes {
        ProcessingIsSafe(c, s, outcome);
      } else {
        RequestReceivedIsSafe(c, s, outcome);
      }
    case CaRetry => CaRetryIsSafe(c, s);
    case CaClose =>
  }
}
