/** When the broker's deduplication depth covers a whole delivery group, every step keeps
    `LinkInvariant.Ordered`: the router accepts the generated deliveries in order, each of them once. */
module LinkOrder {
  import opened LinkProtocol
  import opened LinkInvariant
  import opened LinkSafety

  /** Acquiring a new identifier keeps the window equal to the latest routed ones. */
  lemma AcquireRemembers(acquired: seq<MessageId>, routed: seq<Frame>, f: Frame, depth: nat)
    requires RemembersLatest(acquired, routed, depth) && f.id !in acquired
    ensures match Acquire(acquired, f.id, depth)
            case None => depth == 0 && RemembersLatest(acquired, routed + [f], depth)
            case Some(window) => depth > 0 && RemembersLatest(window, routed + [f], depth)
  {
  }

  /** The last `n` routed frames are in the window when `n` fits the depth. */
  lemma WindowCovers(acquired: seq<MessageId>, routed: seq<Frame>, depth: nat, i: nat)
    requires RemembersLatest(acquired, routed, depth)
    requires i < |routed| && |routed| - i <= depth
    ensures routed[i].id in acquired
  {
    assert acquired[i - (|routed| - |acquired|)] == routed[i].id;
  }

  lemma RoutedIsBefore(log: Log, routed: seq<Frame>, f: Frame, i: nat)
    requires Logged(log) && routed <= log.generated && f in routed
    requires i < |log.generated| && f.id == log.generated[i].id
    ensures i < |routed|
  {
    var k :| 0 <= k < |routed| && routed[k] == f;
    SameFrame(log.generated, k, i);
  }

  lemma SendsInOrder(toBroker: seq<Frame>, held: seq<Frame>, log: Log, routed: seq<Frame>)
    requires Logged(log) && routed <= log.generated
    requires HeldTail(held, log.generated, routed) && InOrder(toBroker, log.generated, routed)
    ensures InOrder(toBroker + held, log.generated, routed)
  {
    var generated, sent := log.generated, toBroker + held;
    var settled := |held| - (|generated| - |routed|);
    forall p: nat, i: nat | |routed| < i && IsAt(sent, p, generated, i)
      ensures Earlier(sent, p, generated[i - 1])
    {
      if p < |toBroker| {
        assert IsAt(toBroker, p, generated, i);
        var q :| 0 <= q < p && toBroker[q] == generated[i - 1];
        assert sent[q] == generated[i - 1];
      } else {
        var q := p - |toBroker|;
        if q < settled {
          RoutedIsBefore(log, routed, held[q], i);
        }
        SameFrame(generated, i, |routed| + q - settled);
        assert held[q] == generated[|routed|..][q - settled] == generated[|routed| + q - settled];
        assert sent[p - 1] == held[q - 1] == generated[|routed|..][q - 1 - settled];
      }
    }
  }

  lemma PopKeepsOrder(toBroker: seq<Frame>, generated: seq<Frame>, routed: seq<Frame>, next: seq<Frame>)
    requires toBroker != [] && InOrder(toBroker, generated, routed) && DistinctIds(generated)
    requires routed <= next <= generated
    requires forall i :: |next| <= i < |generated| ==> toBroker[0] != generated[i]
    ensures InOrder(toBroker[1..], generated, next)
  {
    forall p: nat, i: nat | |next| < i && IsAt(toBroker[1..], p, generated, i)
      ensures Earlier(toBroker[1..], p, generated[i - 1])
    {
      assert IsAt(toBroker, p + 1, generated, i);
      var q :| 0 <= q < p + 1 && toBroker[q] == generated[i - 1];
      assert q > 0 && toBroker[1..][q - 1] == generated[i - 1];
    }
  }

  lemma HeadHasNoPredecessor(toBroker: seq<Frame>, generated: seq<Frame>, routed: seq<Frame>, i: nat)
    requires InOrder(toBroker, generated, routed)
    requires i < |generated| && toBroker != [] && toBroker[0] == generated[i]
    ensures i <= |routed|
  {
    assert IsAt(toBroker, 0, generated, i);
  }

  /** The head of the channel is either routed already or the next delivery in order. */
  lemma HeadIsNext(c: Config, s: System)
    requires Logged(s.log) && ToBroker(s.toBroker, s.ca.current, s.broker.pending, s.log, s.routed)
    requires AcquiredAreRouted(s.broker.acquired, s.routed) && Ordered(c, s) && c.maxGroup <= c.brokerDedup
    requires s.toBroker != [] && s.toBroker[0].kind == Delivery
    ensures if s.toBroker[0].id in s.broker.acquired then s.toBroker[0] in s.routed
            else s.routed < s.log.generated && s.toBroker[0] == s.log.generated[|s.routed|]
  {
    var f := s.toBroker[0];
    assert ToBrokerFrame(f, s.ca.current, s.broker.pending, s.log, s.routed);
    var k :| 0 <= k < |s.log.generated| - GroupStart(s.log) && s.log.generated[GroupStart(s.log)..][k] == f;
    var i := GroupStart(s.log) + k;
    assert f == s.log.generated[i];
    if i < |s.routed| {
      WindowCovers(s.broker.acquired, s.routed, c.brokerDedup, i);
    } else {
      HeadHasNoPredecessor(s.toBroker, s.log.generated, s.routed, i);
      if f.id in s.broker.acquired {
        var g :| g in s.routed && g.id == f.id;
        RoutedIsBefore(s.log, s.routed, g, i);
      }
    }
  }

  lemma HeldAfterRouting(held: seq<Frame>, generated: seq<Frame>, routed: seq<Frame>)
    requires routed < generated && HeldTail(held, generated, routed)
    ensures HeldTail(held, generated, routed + [generated[|routed|]])
  {
  }

  lemma {:induction false} AcknowledgeConcat(xs: seq<Frame>, ys: seq<Frame>, id: MessageId)
    ensures Acknowledge(xs + ys, id) == Acknowledge(xs, id) + Acknowledge(ys, id)
  {
    if xs == [] {
      assert xs + ys == ys;
    } else {
      assert (xs + ys)[1..] == xs[1..] + ys;
      AcknowledgeConcat(xs[1..], ys, id);
    }
  }

  lemma HeldAfterAck(held: seq<Frame>, generated: seq<Frame>, routed: seq<Frame>, id: MessageId)
    requires DistinctIds(generated) && routed <= generated && IsRouted(routed, id)
    requires HeldTail(held, generated, routed)
    ensures HeldTail(Acknowledge(held, id), generated, routed)
  {
    var front, tail := held[..|held| - (|generated| - |routed|)], generated[|routed|..];
    var j :| 0 <= j < |routed| && routed[j].id == id;
    forall f | f in tail ensures f.id != id {
      var k :| 0 <= k < |tail| && tail[k] == f;
      assert generated[j].id == id && generated[|routed| + k] == f;
      assert !SameId(generated, j, |routed| + k);
    }
    assert held == front + tail;
    AcknowledgeConcat(front, tail, id);
    AcknowledgeOther(tail, id);
    AcknowledgeRemoves(front, id);
    var rest := Acknowledge(front, id);
    assert Acknowledge(held, id) == rest + tail;
    forall i | 0 <= i < |rest| ensures rest[i] in routed {
      assert rest[i] in front;
    }
  }

  lemma AckKeepsOrder(toBroker: seq<Frame>, sent: seq<Frame>, generated: seq<Frame>, routed: seq<Frame>)
    requires InOrder(toBroker, generated, routed)
    requires forall f :: f in sent ==> f.kind == Ack
    requires forall f :: f in generated ==> f.kind == Delivery
    ensures InOrder(toBroker + sent, generated, routed)
  {
    var all := toBroker + sent;
    forall p: nat, i: nat | |routed| < i && IsAt(all, p, generated, i)
      ensures Earlier(all, p, generated[i - 1])
    {
      assert generated[i].kind == Delivery;
      assert p < |toBroker| && IsAt(toBroker, p, generated, i);
      var q :| 0 <= q < p && toBroker[q] == generated[i - 1];
      assert all[q] == generated[i - 1];
    }
  }

  lemma DuplicateIsOrdered(toBroker: seq<Frame>, log: Log, routed: seq<Frame>)
    requires Logged(log) && routed <= log.generated && InOrder(toBroker, log.generated, routed)
    requires toBroker != [] && toBroker[0] in routed
    ensures InOrder(toBroker[1..], log.generated, routed)
  {
    forall i | |routed| <= i < |log.generated| ensures toBroker[0] != log.generated[i] {
      if toBroker[0] == log.generated[i] {
        RoutedIsBefore(log, routed, toBroker[0], i);
      }
    }
    PopKeepsOrder(toBroker, log.generated, routed, routed);
  }

  /** Routing the next delivery in order. */
  lemma RoutedIsOrdered(toBroker: seq<Frame>, log: Log, routed: seq<Frame>, held: seq<Frame>, maxGroup: nat)
    requires Logged(log) && routed < log.generated && InSequence(log, routed, held, toBroker, maxGroup)
    requires toBroker != [] && toBroker[0] == log.generated[|routed|]
    ensures InSequence(log, routed + [toBroker[0]], held, toBroker[1..], maxGroup)
    ensures InSequence(log, routed + [toBroker[0]], held, [], maxGroup)
  {
    forall i | |routed| < i < |log.generated| ensures toBroker[0] != log.generated[i] {
      assert !SameId(log.generated, |routed|, i);
    }
    PopKeepsOrder(toBroker, log.generated, routed, routed + [toBroker[0]]);
    HeldAfterRouting(held, log.generated, routed);
  }

  lemma DeliveryIsOrdered(c: Config, s: System)
    requires Logged(s.log) && Ordered(c, s) && Enabled(c, s, BrokerReceive(true))
    requires s.toBroker[0].kind == Delivery && s.toBroker[0].id !in s.broker.acquired
    requires s.routed < s.log.generated && s.toBroker[0] == s.log.generated[|s.routed|]
    ensures Ordered(c, Step(c, s, BrokerReceive(true)))
  {
    RoutedIsOrdered(s.toBroker, s.log, s.routed, s.ca.pending, c.maxGroup);
    AcquireRemembers(s.broker.acquired, s.routed, s.toBroker[0], c.brokerDedup);
  }

  lemma RefusalIsOrdered(c: Config, s: System)
    requires Ordered(c, s) && Enabled(c, s, BrokerReceive(false))
    requires s.toBroker[0].kind == Delivery && s.toBroker[0].id !in s.broker.acquired
    ensures Ordered(c, Step(c, s, BrokerReceive(false)))
  {
  }

  lemma OldFrameIsOrdered(c: Config, s: System, accepts: bool)
    requires Logged(s.log) && Ordered(c, s) && Enabled(c, s, BrokerReceive(accepts))
    requires s.toBroker[0].kind == Delivery ==> s.toBroker[0].id in s.broker.acquired && s.toBroker[0] in s.routed
    ensures Ordered(c, Step(c, s, BrokerReceive(accepts)))
  {
    hide GroupBound, RemembersLatest, Acknowledge;
    if s.toBroker[0].kind != Delivery {
      PopKeepsOrder(s.toBroker, s.log.generated, s.routed, s.routed);
    } else {
      DuplicateIsOrdered(s.toBroker, s.log, s.routed);
    }
  }

  /** A new group continues a history that is completely routed. */
  lemma ProcessingIsOrdered(c: Config, s: System, f: Frame, group: seq<Frame>, sent: seq<Frame>)
    requires Logged(s.log) && ToBroker(s.toBroker, s.ca.current, s.broker.pending, s.log, s.routed)
    requires IsNew(s.log, f) && s.routed == s.log.generated && Logged(Processed(s.log, f, group))
    requires |group| <= c.maxGroup && forall g :: g in group ==> g.kind == Delivery
    requires sent == group || sent == [] || sent == [AckOf(f.id)]
    ensures InSequence(Processed(s.log, f, group), s.routed, group, s.toBroker + sent, c.maxGroup)
  {
    var log := Processed(s.log, f, group);
    assert log.generated[|s.routed|..] == group;
    forall p: nat, i: nat ensures !IsAt(s.toBroker, p, log.generated, i) {
      if p < |s.toBroker| && i < |log.generated| {
        assert log.generated[i] in log.generated;
        assert ToBrokerFrame(s.toBroker[p], s.ca.current, s.broker.pending, s.log, s.routed);
      }
    }
    SendsInOrder(s.toBroker, group, log, s.routed);
    if sent != group {
      AckKeepsOrder(s.toBroker, sent, log.generated, s.routed);
    }
  }

  lemma EngineStepIsOrdered(c: Config, s: System, outcome: Outcome)
    requires Logged(s.log) && ToBroker(s.toBroker, s.ca.current, s.broker.pending, s.log, s.routed)
    requires s.routed == s.log.generated && RemembersLatest(s.broker.acquired, s.routed, c.brokerDedup)
    requires s.ca.pending == [] && Enabled(c, s, CaReceive(outcome)) && IsNew(s.log, s.toCa[0])
    requires CaReact(c, s.ca, s.toCa[0], outcome).processes
    requires !CaReact(c, s.ca, s.toCa[0], outcome).overflows
    ensures Ordered(c, Step(c, s, CaReceive(outcome)))
  {
    var f, group := s.toCa[0], GroupOf(outcome);
    EngineStepShape(c, s, outcome);
    ProcessedIsLogged(c, s, f, group);
    ProcessingIsOrdered(c, s, f, group, CaReact(c, s.ca, f, outcome).sent);
  }

  lemma EngineStepShape(c: Config, s: System, outcome: Outcome)
    requires Enabled(c, s, CaReceive(outcome)) && s.ca.pending == []
    requires CaReact(c, s.ca, s.toCa[0], outcome).processes && !CaReact(c, s.ca, s.toCa[0], outcome).overflows
    ensures var t, sent := Step(c, s, CaReceive(outcome)), CaReact(c, s.ca, s.toCa[0], outcome).sent;
      && t.log == Processed(s.log, s.toCa[0], GroupOf(outcome))
      && t.ca.pending == GroupOf(outcome) && t.broker == s.broker && t.routed == s.routed
      && t.toBroker == s.toBroker + sent
      && (sent == GroupOf(outcome) || sent == [] || sent == [AckOf(s.toCa[0].id)])
  {
  }

  lemma OtherCaStepIsOrdered(c: Config, s: System, outcome: Outcome)
    requires Logged(s.log) && Ordered(c, s) && Enabled(c, s, CaReceive(outcome))
    requires !CaReact(c, s.ca, s.toCa[0], outcome).processes
    requires s.toCa[0].kind == Ack ==> IsRouted(s.routed, s.toCa[0].id)
    ensures Ordered(c, Step(c, s, CaReceive(outcome)))
  {
    if s.toCa[0].kind == Ack {
      HeldAfterAck(s.ca.pending, s.log.generated, s.routed, s.toCa[0].id);
    }
    AckKeepsOrder(s.toBroker, CaReact(c, s.ca, s.toCa[0], outcome).sent, s.log.generated, s.routed);
  }

  lemma CaSendIsOrdered(c: Config, s: System)
    requires Logged(s.log) && Ordered(c, s)
    ensures Enabled(c, s, CaRetry) ==> Ordered(c, Step(c, s, CaRetry))
    ensures Enabled(c, s, CaOpen) ==> Ordered(c, Step(c, s, CaOpen))
  {
    SendsInOrder(s.toBroker, s.ca.pending, s.log, s.routed);
    SendsInOrder([], s.ca.pending, s.log, s.routed);
    assert [] + s.ca.pending == s.ca.pending;
  }

  predicate IsLocal(a: Action) {
    a.BrokerJoin? || a.Dequeue? || a.BrokerRetry? || a.BrokerClose? || a.CaClose?
  }

  lemma LocalStepIsOrdered(c: Config, s: System, a: Action)
    requires Ordered(c, s) && Enabled(c, s, a)
    requires IsLocal(a)
    ensures Ordered(c, Step(c, s, a))
  {
  }

  lemma EngineReceiveIsOrdered(c: Config, s: System, outcome: Outcome)
    requires c.Valid() && Safe(s) && Ordered(c, s) && Enabled(c, s, CaReceive(outcome))
    requires CaReact(c, s.ca, s.toCa[0], outcome).processes
    ensures Ordered(c, Step(c, s, CaReceive(outcome)))
  {
    EngineSeesNextRequest(c, s, outcome);
    EngineStepIsOrdered(c, s, outcome);
  }

  lemma OtherCaReceiveIsOrdered(c: Config, s: System, outcome: Outcome)
    requires Safe(s) && Ordered(c, s) && Enabled(c, s, CaReceive(outcome))
    requires !CaReact(c, s.ca, s.toCa[0], outcome).processes
    ensures Ordered(c, Step(c, s, CaReceive(outcome)))
  {
    assert ToCaFrame(s.toCa[0], s.log, s.routed);
    OtherCaStepIsOrdered(c, s, outcome);
  }

  lemma ReceivesInOrder(c: Config, s: System, accepts: bool)
    requires c.maxGroup <= c.brokerDedup
    requires Safe(s) && Ordered(c, s) && Enabled(c, s, BrokerReceive(accepts))
    ensures Ordered(c, Step(c, s, BrokerReceive(accepts)))
  {
    if s.toBroker[0].kind == Delivery {
      HeadIsNext(c, s);
      if s.toBroker[0].id !in s.broker.acquired {
        if accepts {
          DeliveryIsOrdered(c, s);
        } else {
          RefusalIsOrdered(c, s);
        }
      } else {
        OldFrameIsOrdered(c, s, accepts);
      }
    } else {
      OldFrameIsOrdered(c, s, accepts);
    }
  }
}
