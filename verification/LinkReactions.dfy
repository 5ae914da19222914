/** What each daemon does with a frame, said by its effects: when the session goes on, what is
    written, and what is remembered. */
module LinkReactions {
  import opened Types
  import opened LinkProtocol
  import opened LinkInvariant
  import opened LinkSafety
  import opened LinkTheorems

  /** An acknowledgement removes the frame with its identifier, and nothing else. */
  lemma {:induction false} OnlyItIsForgotten(before: seq<Frame>, f: Frame, after: seq<Frame>)
    requires forall g :: g in before || g in after ==> g.id != f.id
    ensures Acknowledge(before + ([f] + after), f.id) == before + after
    decreases |before|
  {
    if before == [] {
      AcknowledgeOther(after, f.id);
      assert [] + ([f] + after) == [f] + after && ([f] + after)[1..] == after && [] + after == after;
    } else {
      var rest := before[1..];
      assert forall g :: g in rest ==> g in before;
      OnlyItIsForgotten(rest, f, after);
      assert (before + ([f] + after))[1..] == rest + ([f] + after) && before + after == [before[0]] + (rest + after);
    }
  }

  /** The latest identifiers, as many as the window holds. */
  function Latest(ids: seq<MessageId>, maximum: nat): seq<MessageId> {
    if |ids| <= maximum then ids else ids[|ids| - maximum..]
  }

  /** The router is asked about a delivery that is not remembered, and only about such. The session
      goes on after an Ack, after a remembered delivery, and after one that the router accepts and that
      can be remembered; exactly these two are acknowledged. */
  lemma BrokerReactionIsExact(c: Config, s: BrokerState, f: Frame, accepts: bool)
    requires |s.acquired| <= c.brokerDedup
    ensures var r, known := BrokerReact(c, s, f, accepts), f.id in s.acquired;
      && (r.goesOn <==> f.kind == Ack || (f.kind == Delivery && (known || (accepts && c.brokerDedup > 0))))
      && r.sent == (if f.kind == Delivery && r.goesOn then [Frame(Ack, f.id, [])] else [])
      && r.routed == (if f.kind == Delivery && !known && accepts then Some(f) else None)
      && r.state.pending == (if f.kind == Ack then Acknowledge(s.pending, f.id) else s.pending)
      && r.state.acquired == if r.routed == None then s.acquired else Latest(s.acquired + [f.id], c.brokerDedup)
  {
    assert c.brokerDedup > 0 && |s.acquired| == c.brokerDedup ==>
      (s.acquired + [f.id])[1..] == s.acquired[1..] + [f.id];
    assert c.brokerDedup == 0 ==> s.acquired == [] && ([] + [f.id])[1..] == [];
  }

  /** Neither the one that is being served nor remembered, and none is being served. */
  predicate Unseen(s: CaState, f: Frame) { f.kind == Request && s.current == None && f.id !in s.acquired }

  /** The deliveries of the answer have room among those not acknowledged. */
  predicate HasRoom(c: Config, s: CaState, outcome: Outcome) {
    outcome.Deliveries? ==> outcome.group == [] || |s.pending| + |outcome.group| <= c.caPending
  }

  /** When the engine is called, and when the session goes on: after an Ack, after a request that is
      being served or is remembered, and after one whose answer has room and that can be remembered. A
      request that cannot be remembered ends the process. The group of an answer is held and written in
      order, and its request is then the one being served. A request without deliveries, a remembered
      one, and one whose last delivery is acknowledged are acknowledged; nothing else is written. */
  lemma CaReactionIsExact(c: Config, s: CaState, f: Frame, outcome: Outcome)
    requires |s.acquired| <= c.caDedup
    ensures var r, served := CaReact(c, s, f, outcome), Unseen(s, f) && HasRoom(c, s, outcome);
      && (r.processes <==> Unseen(s, f))
      && (r.overflows <==> Unseen(s, f) && !HasRoom(c, s, outcome))
      && (r.halts <==> served && c.caDedup == 0)
      && (r.goesOn <==>
            || f.kind == Ack
            || (f.kind == Request && (s.current == Some(f.id) || f.id in s.acquired))
            || (served && c.caDedup > 0))
    ensures var r, served := CaReact(c, s, f, outcome), Unseen(s, f) && HasRoom(c, s, outcome);
      var group, last := GroupOf(outcome), f.kind == Ack && Acknowledge(s.pending, f.id) == [] && s.current.Some?;
      && r.state.pending == (if f.kind == Ack then Acknowledge(s.pending, f.id)
                             else if served then s.pending + group else s.pending)
      && r.state.acquired == (if served && c.caDedup > 0 then Latest(s.acquired + [f.id], c.caDedup) else s.acquired)
      && r.state.current == (if last then None
                             else if served && c.caDedup > 0 && group != [] then Some(f.id) else s.current)
      && r.sent == (if last then [Frame(Ack, s.current.value, [])]
                    else if served && c.caDedup > 0 then (if group == [] then [Frame(Ack, f.id, [])] else group)
                    else if f.kind == Request && s.current != Some(f.id) && f.id in s.acquired
                      then [Frame(Ack, f.id, [])]
                    else [])
  {
    hide Acknowledge;
    assert c.caDedup > 0 && |s.acquired| == c.caDedup ==> (s.acquired + [f.id])[1..] == s.acquired[1..] + [f.id];
    if GroupOf(outcome) == [] {
      assert s.pending + [] == s.pending;
    }
  }

  /** Entering a session, and the retry timer, write what is not acknowledged, in order, behind what is
      unread. */
  lemma PendingIsSentAgain(c: Config, s: System, a: Action)
    requires Enabled(c, s, a)
    ensures a.CaOpen? ==> Step(c, s, a).toBroker == s.ca.pending
    ensures a.CaRetry? ==> Step(c, s, a).toBroker == s.toBroker + s.ca.pending
    ensures a.BrokerJoin? || a.BrokerRetry? ==> Step(c, s, a).toCa == s.toCa + s.broker.pending
  {
  }

  /** In every run, no session ends for want of order between the two daemons: the broker leaves one
      only by closing it, or on a delivery that its router refuses or that it cannot remember, and the
      CA only by closing it, or on a new request that it cannot remember. */
  lemma SessionsGoOn(c: Config, actions: seq<Action>, a: Action)
    requires c.Valid() && Runs(c, START, actions) && Enabled(c, Outcomes(c, START, actions), a)
    ensures var s := Outcomes(c, START, actions);
      s.brokerOpen && !Step(c, s, a).brokerOpen <==>
        || a.BrokerClose?
        || (a.BrokerReceive? && s.toBroker[0].kind == Delivery && s.toBroker[0].id !in s.broker.acquired
            && (!a.accepts || c.brokerDedup == 0))
    ensures var s := Outcomes(c, START, actions);
      s.caOpen && !Step(c, s, a).caOpen <==>
        || a.CaClose?
        || (a.CaReceive? && CaReact(c, s.ca, s.toCa[0], a.outcome).processes && c.caDedup == 0)
  {
    var s := Outcomes(c, START, actions);
    ReachableIsSafe(c, actions);
    GroupsNeverOverflow(c, actions);
    hide Outcomes, Runs;
    if a.BrokerReceive? {
      assert ToBrokerFrame(s.toBroker[0], s.ca.current, s.broker.pending, s.log, s.routed);
    }
    if a.CaReceive? {
      assert ToCaFrame(s.toCa[0], s.log, s.routed);
      assert a == CaReceive(a.outcome);
    }
    hide Safe;
  }
}
