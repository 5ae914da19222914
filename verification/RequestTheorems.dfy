/** What becomes of a request, said of its bytes, its signature, the clock and the state before it:
    when it is refused and with which error, when it is accepted, and what it then does. */
module RequestTheorems {
  import opened Bytes
  import opened Types
  import opened Payload
  import opened Evaluation
  import opened Envelope
  import opened Replay
  import opened EnvironmentPolicy
  import opened Store
  import opened StoreProofs
  import opened Snapshot
  import opened Engine
  import opened EngineTheorems
  import LostClaims

  // ----- before the mark -----

  /** The frame is an envelope from an agent of the directory to the CA, and signed by that agent. */
  predicate SignedRequest(s: State, frame: seq<byte>, crypto: Crypto) {
    && ParseEnvelope(frame).Ok? && crypto.signed
    && var h := ParseEnvelope(frame).value.header;
       h.recipient == CA && h.sender != CA && h.sender in s.keys
  }

  /** Whatever is answered with success, and whatever changes the state, was signed by an agent of the
      directory; an unsigned frame is refused and changes nothing. */
  lemma OnlySignedRequestsCount(s: State, limits: Limits, p: Policy, frame: seq<byte>, crypto: Crypto, now: u64,
                                failing: Failures)
    ensures var r := Process(s, limits, p, frame, crypto, now, failing);
      (r.result.Ok? || r.state != s ==> SignedRequest(s, frame, crypto))
    ensures var r := Process(s, limits, p, frame, crypto, now, failing);
      (!crypto.signed ==> r.result.Err? && r.state == s)
  {
    hide ParseEnvelope, MarkCommitted, Perform;
  }

  /** The refusals before the replay check, in their order; none of them changes anything. */
  lemma RefusalsInOrder(s: State, limits: Limits, p: Policy, frame: seq<byte>, crypto: Crypto, now: u64,
                        failing: Failures)
    ensures var r, e := Process(s, limits, p, frame, crypto, now, failing), ParseEnvelope(frame);
      && (e.Err? ==> r == Response(Err(e.error), s))
      && (e.Ok? ==>
            var h := e.value.header;
            && (h.recipient != CA || h.sender == CA ==> r == Response(Err(WrongRecipient), s))
            && (h.recipient == CA && h.sender != CA ==>
                 && (h.messageType == MessageType.PublicationResponse ==> r == Response(Err(WrongMessageType), s))
                 && (h.messageType != MessageType.PublicationResponse && !(h.sender in s.keys && crypto.signed) ==>
                      r == Response(Err(BadSignature), s))))
  {
    hide ParseEnvelope, MarkCommitted, Perform;
  }

  /** Signed, and of a type that the CA processes. */
  predicate Authentic(s: State, frame: seq<byte>, crypto: Crypto, h: Header) {
    && SignedRequest(s, frame, crypto) && h == ParseEnvelope(frame).value.header
    && h.messageType != MessageType.PublicationResponse
  }

  // ----- the mark -----

  /** The sessions that have not expired. */
  function Unexpired(s: State, now: u64): set<Key> { set k | k in s.replay && s.replay[k] > now }

  /** The state with the session marked, and without the expired ones. */
  function WithMark(s: State, limits: Limits, h: Header, now: u64): State {
    var until: u64 := if now + limits.ttl > 0xFFFF_FFFF_FFFF_FFFF then 0xFFFF_FFFF_FFFF_FFFF else now + limits.ttl;
    s.(replay := (map k | k in Unexpired(s, now) :: s.replay[k])[Key(h.sender, h.session) := until])
  }

  /** The session is new or has expired, there is room for it, and its mark is committed. */
  predicate Markable(s: State, limits: Limits, h: Header, now: u64, failing: Failures) {
    && Key(h.sender, h.session) !in Unexpired(s, now) && |Unexpired(s, now)| < limits.replays
    && Verdict(WithMark(s, limits, h, now), 0 !in failing).Ok?
  }

  lemma MarkIs(s: State, limits: Limits, h: Header, now: u64, failing: Failures)
    ensures MarkCommitted(s, limits, h, now, failing).Ok? <==> Markable(s, limits, h, now, failing)
    ensures Markable(s, limits, h, now, failing) ==>
      MarkCommitted(s, limits, h, now, failing) == Ok(WithMark(s, limits, h, now))
    ensures Key(h.sender, h.session) in Unexpired(s, now) ==>
      MarkCommitted(s, limits, h, now, failing) == Err(Error.Replay)
  {
    hide Verdict;
    var key := Key(h.sender, h.session);
    MarkIsExact(s.replay, key, now, limits.replays, limits.ttl);
    var m := Mark(s.replay, key, now, limits.replays, limits.ttl);
    assert Unexpired(s, now) == set k | k in s.replay && s.replay[k] > now;
    if m.result.Ok? {
      assert m.entries == WithMark(s, limits, h, now).replay;
    }
  }

  /** A request is refused as a replay exactly if its session is marked and has not expired, and
      refused for want of room or of a commit likewise; refused requests change nothing. Otherwise its
      content is served in the marked state. */
  lemma MarkDecides(s: State, limits: Limits, p: Policy, frame: seq<byte>, crypto: Crypto, now: u64,
                    failing: Failures, h: Header)
    requires Authentic(s, frame, crypto, h)
    ensures var r := Process(s, limits, p, frame, crypto, now, failing);
      && (Key(h.sender, h.session) in Unexpired(s, now) ==> r == Response(Err(Error.Replay), s))
      && (!Markable(s, limits, h, now, failing) ==> r.result.Err? && r.state == s)
      && (Markable(s, limits, h, now, failing) && crypto.content.Err? ==>
            r == Response(Err(crypto.content.error), WithMark(s, limits, h, now)))
      && (Markable(s, limits, h, now, failing) && crypto.content.Ok? ==>
            r == Perform(WithMark(s, limits, h, now), limits, p, h, crypto.content.value, failing))
  {
    hide ParseEnvelope, Perform, MarkCommitted, Markable, WithMark;
    MarkIs(s, limits, h, now, failing);
  }

  /** The request is authentic, its session is marked, and its content was opened and parses. */
  predicate Opened(s: State, limits: Limits, frame: seq<byte>, crypto: Crypto, now: u64, failing: Failures,
                   h: Header, op: Operation)
  {
    && Authentic(s, frame, crypto, h) && Markable(s, limits, h, now, failing)
    && crypto.content.Ok? && ParseOperation(crypto.content.value) == Ok(op)
  }

  /** A request that is not opened is refused. */
  lemma UnopenedIsRefused(s: State, limits: Limits, p: Policy, frame: seq<byte>, crypto: Crypto, now: u64,
                          failing: Failures)
    requires Process(s, limits, p, frame, crypto, now, failing).result.Ok?
    ensures ParseEnvelope(frame).Ok? && crypto.content.Ok? && ParseOperation(crypto.content.value).Ok?
    ensures Opened(s, limits, frame, crypto, now, failing, ParseEnvelope(frame).value.header,
              ParseOperation(crypto.content.value).value)
  {
    hide ParseEnvelope, Markable, MarkCommitted, ParseOperation, Validate, PublishAll, Updated, EnvironmentOf;
    OnlySignedRequestsCount(s, limits, p, frame, crypto, now, failing);
    RefusalsInOrder(s, limits, p, frame, crypto, now, failing);
    var h := ParseEnvelope(frame).value.header;
    MarkDecides(s, limits, p, frame, crypto, now, failing, h);
  }

  // ----- environments -----

  predicate HasEnvironment(s: State, agent: AgentId) {
    && agent in s.environments && ParseOperation(s.environments[agent]).Ok?
    && ParseOperation(s.environments[agent]).value.SetEnvironment?
  }

  /** The attributes of the agent's stored environment. */
  function StoredAttributes(s: State, agent: AgentId): seq<Attribute>
    requires HasEnvironment(s, agent)
  {
    ParseOperation(s.environments[agent]).value.attributes
  }

  /** The stored environment of the agent parses, and the policy accepts it. */
  predicate HasValidEnvironment(s: State, p: Policy, agent: AgentId) {
    HasEnvironment(s, agent) && Validate(p, agent, StoredAttributes(s, agent)).Ok?
  }

  lemma ValidEnvironmentIs(s: State, p: Policy, agent: AgentId)
    ensures ValidEnvironment(s, p, agent) <==> HasValidEnvironment(s, p, agent)
  {
    hide Validate, ParseOperation;
  }

  function WithEnvironment(s: State, agent: AgentId, encoded: seq<byte>): State {
    s.(environments := s.environments[agent := encoded])
  }

  /** An environment is accepted exactly if it is sent as one, without a handler, validates, fits the
      limits, and can be committed; it then replaces that of the sender as a whole. Nothing else
      changes; if it is refused, nothing but the mark does. */
  lemma EnvironmentRequest(s: State, limits: Limits, p: Policy, frame: seq<byte>, crypto: Crypto, now: u64,
                           failing: Failures, h: Header, op: Operation)
    requires Opened(s, limits, frame, crypto, now, failing, h, op) && h.messageType == MessageType.SetEnvironment
    ensures var r, marked := Process(s, limits, p, frame, crypto, now, failing), WithMark(s, limits, h, now);
      var next := WithEnvironment(marked, h.sender, crypto.content.value);
      && (r.result.Ok? <==>
            && op.SetEnvironment? && h.handler == NO_HANDLER && Validate(p, h.sender, op.attributes).Ok?
            && (h.sender in s.environments || |s.environments| < limits.environments)
            && Verdict(next, 1 !in failing).Ok?)
      && (r.result.Ok? ==> r == Response(Ok(Accepted), next))
      && (r.result.Err? ==> r.state == marked)
    ensures var r := Process(s, limits, p, frame, crypto, now, failing).result;
      && (!op.SetEnvironment? ==> r == Err(WrongMessageType))
      && (op.SetEnvironment? && h.handler != NO_HANDLER ==> r == Err(WrongHandler))
      && (op.SetEnvironment? && h.handler == NO_HANDLER && Validate(p, h.sender, op.attributes).Err? ==>
            r == Err(UnauthorizedEnvironment))
      && (op.SetEnvironment? && h.handler == NO_HANDLER && Validate(p, h.sender, op.attributes).Ok? ==>
            (h.sender !in s.environments && |s.environments| >= limits.environments ==> r == Err(Capacity)))
  {
    hide ParseEnvelope, Validate, ParseOperation, PublishAll, Markable, Verdict;
    MarkDecides(s, limits, p, frame, crypto, now, failing, h);
  }

  // ----- subscriptions -----

  /** The subscription that the request asks for. */
  function Wanted(h: Header, op: Operation, content: seq<byte>): Subscription
    requires op.Subscribe? || op.SubscribePermanent?
  {
    Subscription(h.sender, op.typeId, h.handler, if op.Subscribe? then OneShot else Permanent, content)
  }

  /** A subscription is accepted exactly if it is sent as one of its kind, with a handler, its sender
      has a valid environment, it takes an old slot or there is room, and it can be committed. It is
      then there, in place of the one of the same subscriber, type and handler, and all others stay. */
  lemma SubscriptionRequest(s: State, limits: Limits, p: Policy, frame: seq<byte>, crypto: Crypto, now: u64,
                            failing: Failures, h: Header, op: Operation) returns (next: State)
    requires Valid(s, limits) && Opened(s, limits, frame, crypto, now, failing, h, op)
    requires h.messageType == MessageType.Subscribe || h.messageType == MessageType.SubscribePermanent
    ensures var r := Process(s, limits, p, frame, crypto, now, failing);
      && (!OfKind(h, op) ==> r.result == Err(WrongMessageType))
      && (OfKind(h, op) && h.handler == NO_HANDLER ==> r.result == Err(WrongHandler))
      && (OfKind(h, op) && h.handler != NO_HANDLER && !HasValidEnvironment(s, p, h.sender) ==>
            r.result == Err(UnauthorizedEnvironment))
      && (r.result.Err? ==> r.state == WithMark(s, limits, h, now))
    ensures OfKind(h, op) && h.handler != NO_HANDLER && HasValidEnvironment(s, p, h.sender) ==>
      var r, x := Process(s, limits, p, frame, crypto, now, failing), Wanted(h, op, crypto.content.value);
      && (!HasRoom(s, limits, x) ==> r.result == Err(Capacity))
      && (HasRoom(s, limits, x) ==>
            && Adds(WithMark(s, limits, h, now), next, x)
            && (r.result.Ok? <==> Verdict(next, 1 !in failing).Ok?)
            && (r.result.Ok? ==> r == Response(Ok(Accepted), next)))
  {
    hide ParseEnvelope, Validate, ParseOperation, PublishAll, PutEnvironment, Markable, Verdict, Valid,
      HasValidEnvironment, WithMark, Count, Perform, Adds, HasRoom;
    MarkDecides(s, limits, p, frame, crypto, now, failing, h);
    var marked, content := WithMark(s, limits, h, now), crypto.content.value;
    next := marked;
    MarkChangesReplay(s, limits, h, now);
    ValidEnvironmentIs(marked, p, h.sender);
    SameEnvironments(s, marked, p, h.sender);
    PerformSubscription(marked, limits, p, h, content, failing, op);
    if OfKind(h, op) {
      var x := Wanted(h, op, content);
      WantedIsStored(h, op, content);
      SlotIsFree(s, marked, limits, x);
      if HasRoom(s, limits, x) {
        next := PutSubscription(marked, limits, x).value;
        PutAdds(s, marked, limits, x);
      }
    }
  }

  /** The operation is a subscription of the kind that the envelope announces. */
  predicate OfKind(h: Header, op: Operation) {
    if h.messageType == MessageType.Subscribe then op.Subscribe? else op.SubscribePermanent?
  }

  /** The subscription takes the slot of another one, or the store is not full. */
  ghost predicate HasRoom(s: State, limits: Limits, x: Subscription) {
    IsTaken(s, x) || Count(s.subscriptions) < limits.subscriptions
  }

  lemma WantedIsStored(h: Header, op: Operation, content: seq<byte>)
    requires ParseOperation(content) == Ok(op) && (op.Subscribe? || op.SubscribePermanent?)
    ensures Stored(Wanted(h, op, content))
  {
    hide ParseOperation;
  }

  lemma MarkChangesReplay(s: State, limits: Limits, h: Header, now: u64)
    ensures WithMark(s, limits, h, now) == s.(replay := WithMark(s, limits, h, now).replay)
  {
  }

  lemma SameEnvironments(s: State, t: State, p: Policy, agent: AgentId)
    requires t == s.(replay := t.replay)
    ensures HasValidEnvironment(s, p, agent) <==> HasValidEnvironment(t, p, agent)
    ensures HasEnvironment(s, agent) <==> HasEnvironment(t, agent)
    ensures HasEnvironment(s, agent) ==> StoredAttributes(s, agent) == StoredAttributes(t, agent)
    ensures HasValidEnvironment(s, p, agent) ==> HasEnvironment(s, agent)
  {
    hide Validate, ParseOperation;
  }

  /** The state with the subscription in its slot, and every other one as it was. */
  ghost predicate Adds(before: State, after: State, x: Subscription) {
    && after == before.(subscriptions := after.subscriptions)
    && forall y :: Claimable(after, y) <==>
         y == x || (Claimable(before, y) && !(y.typeId == x.typeId && SameSlot(y, x)))
  }

  lemma PutAdds(s: State, marked: State, limits: Limits, x: Subscription)
    requires Valid(s, limits) && marked == s.(replay := marked.replay) && PutSubscription(marked, limits, x).Ok?
    ensures Adds(marked, PutSubscription(marked, limits, x).value, x)
  {
    hide Stored, Count, Valid;
    PutIs(s, limits, x);
    assert forall y :: Claimable(marked, y) <==> Claimable(s, y);
  }

  lemma SlotIsFree(s: State, marked: State, limits: Limits, x: Subscription)
    requires Valid(s, limits) && marked == s.(replay := marked.replay) && Stored(x)
    ensures PutSubscription(marked, limits, x).Ok? <==> HasRoom(s, limits, x)
    ensures PutSubscription(marked, limits, x).Err? ==> PutSubscription(marked, limits, x) == Err(Capacity)
  {
    hide Stored, Count, Valid;
    Taken(s, limits, x);
  }

  lemma PerformSubscription(s: State, limits: Limits, p: Policy, h: Header, content: seq<byte>, failing: Failures,
                            op: Operation)
    requires ParseOperation(content) == Ok(op)
    requires h.messageType == MessageType.Subscribe || h.messageType == MessageType.SubscribePermanent
    ensures var r := Perform(s, limits, p, h, content, failing);
      && (!OfKind(h, op) ==> r == Response(Err(WrongMessageType), s))
      && (OfKind(h, op) && h.handler == NO_HANDLER ==> r == Response(Err(WrongHandler), s))
      && (OfKind(h, op) && h.handler != NO_HANDLER && !ValidEnvironment(s, p, h.sender) ==>
            r == Response(Err(UnauthorizedEnvironment), s))
      && (OfKind(h, op) && h.handler != NO_HANDLER && ValidEnvironment(s, p, h.sender) ==>
            r == Updated(s, PutSubscription(s, limits, Wanted(h, op, content)), 1 !in failing))
  {
    hide ParseOperation, ValidEnvironment, PutSubscription, PutEnvironment, PublishAll, Validate;
  }

  // ----- publications -----

  /** The clauses of a stored subscription. */
  function StoredClauses(x: Subscription): seq<Clause>
    requires Stored(x)
  {
    ParseOperation(x.encoded).value.clauses
  }

  /** The subscription is there and of the type; the stored attributes of the sender satisfy its
      clauses, those of its subscriber satisfy the clauses of the audience, and the policy authorises
      the delivery between these two environments. */
  predicate Receives(s: State, p: Policy, sender: AgentId, typeId: TypeId, audience: seq<Clause>, x: Subscription)
    requires HasEnvironment(s, sender)
  {
    && Claimable(s, x) && x.typeId == typeId && Stored(x) && HasEnvironment(s, x.subscriber)
    && Satisfies(StoredAttributes(s, sender), StoredClauses(x))
    && Satisfies(StoredAttributes(s, x.subscriber), audience)
    && AuthorizeDelivery(p, sender, StoredAttributes(s, sender), x.subscriber, StoredAttributes(s, x.subscriber),
         typeId)
  }

  /** The delivery answers the subscription with the published value. */
  predicate Responds(d: Delivery, x: Subscription, sender: AgentId, typeId: TypeId, value: seq<byte>) {
    && d.recipient == x.subscriber && d.handler == x.handler
    && ParseOperation(d.plaintext) == Ok(Operation.PublicationResponse(typeId, sender, value))
  }

  /** By recipient, and by handler for one recipient. */
  predicate InAddressOrder(deliveries: seq<Delivery>) {
    forall i, j :: 0 <= i < j < |deliveries| ==>
      deliveries[i].recipient < deliveries[j].recipient
      || (deliveries[i].recipient == deliveries[j].recipient && deliveries[i].handler < deliveries[j].handler)
  }

  /** What a publication request does, in terms of the request: it is refused if it is of another
      type, has a handler, or its sender has no valid environment. If it succeeds, its deliveries are
      the published value under the name of the sender, one for each subscription that receives it, in
      the order of recipients and handlers; the one-shots among these are gone, and nothing else
      changes but the mark. `received` are the subscriptions in that order. */
  lemma PublicationRequest(s: State, limits: Limits, p: Policy, frame: seq<byte>, crypto: Crypto, now: u64,
                           failing: Failures, h: Header, op: Operation) returns (received: seq<Subscription>)
    requires Valid(s, limits) && Opened(s, limits, frame, crypto, now, failing, h, op)
    requires h.messageType == MessageType.Publish
    ensures var r := Process(s, limits, p, frame, crypto, now, failing);
      && (!op.Publish? ==> r.result == Err(WrongMessageType))
      && (op.Publish? && h.handler != NO_HANDLER ==> r.result == Err(WrongHandler))
      && (op.Publish? && h.handler == NO_HANDLER ==>
            && (!HasEnvironment(s, h.sender) ==> r.result == Err(Malformed))
            && (HasEnvironment(s, h.sender) && !HasValidEnvironment(s, p, h.sender) ==>
                  r.result == Err(UnauthorizedEnvironment)))
    ensures op.Publish? && h.handler == NO_HANDLER && HasValidEnvironment(s, p, h.sender) ==>
      HasEnvironment(s, h.sender) && forall x :: x in received <==> Receives(s, p, h.sender, op.typeId, op.clauses, x)
    ensures var r := Process(s, limits, p, frame, crypto, now, failing);
      r.result.Ok? ==>
        && op.Publish? && h.handler == NO_HANDLER && HasValidEnvironment(s, p, h.sender)
        && r.result.value.Deliveries? && InAddressOrder(r.result.value.deliveries)
        && |r.result.value.deliveries| == |received|
        && (forall i :: 0 <= i < |received| ==>
              Responds(r.result.value.deliveries[i], received[i], h.sender, op.typeId, op.value))
        && (forall x :: Claimable(r.state, x) <==> Claimable(s, x) && !(x.kind == OneShot && x in received))
        && r.state == WithMark(s, limits, h, now).(subscriptions := r.state.subscriptions)
  {
    hide ParseEnvelope, Validate, ParseOperation, PublishAll, Verdict, Valid, HasValidEnvironment, WithMark,
      Perform, Receives, Responds, HasEnvironment;
    MarkDecides(s, limits, p, frame, crypto, now, failing, h);
    var marked, content := WithMark(s, limits, h, now), crypto.content.value;
    received := [];
    MarkChangesReplay(s, limits, h, now);
    PerformPublication(marked, limits, p, h, content, failing, op);
    SameEnvironments(s, marked, p, h.sender);
    if op.Publish? && h.handler == NO_HANDLER && HasValidEnvironment(s, p, h.sender) {
      ParsingIsCanonical(content, op);
      ValidMark(s, limits, h, now);
      received := PublicationAnswers(s, marked, limits, p, h.sender, op, failing);
    }
  }

  lemma ValidMark(s: State, limits: Limits, h: Header, now: u64)
    requires Valid(s, limits) && Key(h.sender, h.session) !in Unexpired(s, now) && |Unexpired(s, now)| < limits.replays
    ensures Valid(WithMark(s, limits, h, now), limits)
  {
    hide GoodKeys, GoodEnvironments, GoodBuckets, Count;
    var next := WithMark(s, limits, h, now);
    assert next.replay.Keys == Unexpired(s, now) + {Key(h.sender, h.session)};
  }

  lemma PerformPublication(s: State, limits: Limits, p: Policy, h: Header, content: seq<byte>, failing: Failures,
                           op: Operation)
    requires ParseOperation(content) == Ok(op) && h.messageType == MessageType.Publish
    ensures var r := Perform(s, limits, p, h, content, failing);
      && (!op.Publish? ==> r == Response(Err(WrongMessageType), s))
      && (op.Publish? && h.handler != NO_HANDLER ==> r == Response(Err(WrongHandler), s))
      && (op.Publish? && h.handler == NO_HANDLER ==>
            && (!HasEnvironment(s, h.sender) ==> r == Response(Err(Malformed), s))
            && (HasEnvironment(s, h.sender) && !HasValidEnvironment(s, p, h.sender) ==>
                  r == Response(Err(UnauthorizedEnvironment), s)))
      && (op.Publish? && h.handler == NO_HANDLER && HasValidEnvironment(s, p, h.sender) ==>
            && HasEnvironment(s, h.sender) && |op.value| <= MAX_VALUE_BYTES
            && r == PublishAll(s, p,
                 Publication(h.sender, StoredAttributes(s, h.sender), op.typeId, op.clauses, op.value), failing))
  {
    hide ParseOperation, PutSubscription, PutEnvironment, PublishAll, Validate;
    ParsingIsCanonical(content, op);
  }

  lemma PublicationAnswers(s: State, marked: State, limits: Limits, p: Policy, sender: AgentId, op: Operation,
                           failing: Failures) returns (received: seq<Subscription>)
    requires Valid(marked, limits) && marked == s.(replay := marked.replay) && HasEnvironment(s, sender)
    requires op.Publish? && ValidOperation(op)
    ensures forall x :: x in received <==> Receives(s, p, sender, op.typeId, op.clauses, x)
    ensures var m := Publication(sender, StoredAttributes(s, sender), op.typeId, op.clauses, op.value);
      var r := PublishAll(marked, p, m, failing);
      r.result.Ok? ==>
        && r.result.value.Deliveries? && InAddressOrder(r.result.value.deliveries)
        && |r.result.value.deliveries| == |received|
        && (forall i :: 0 <= i < |received| ==>
              Responds(r.result.value.deliveries[i], received[i], sender, op.typeId, op.value))
        && (forall x :: Claimable(r.state, x) <==> Claimable(s, x) && !(x.kind == OneShot && x in received))
        && r.state == marked.(subscriptions := r.state.subscriptions)
  {
    hide Valid, PublishAll, Reaches, Receives, Stored, Sorted, Validate, ParseOperation;
    var m := Publication(sender, StoredAttributes(s, sender), op.typeId, op.clauses, op.value);
    PublicationIsExact(marked, limits, p, m, failing);
    received := Reached(marked, p, m, BucketOf(marked.subscriptions, m.typeId));
    forall x ensures Receives(s, p, sender, op.typeId, op.clauses, x) <==>
      Claimable(marked, x) && x.typeId == m.typeId && Reaches(marked, p, m, x)
    {
      ReceivesIs(s, marked, p, m, x);
    }
    var r := PublishAll(marked, p, m, failing);
    if r.result.Ok? {
      forall i | 0 <= i < |received|
        ensures Responds(r.result.value.deliveries[i], received[i], sender, op.typeId, op.value)
      {
        OperationRoundTrip(Operation.PublicationResponse(op.typeId, sender, op.value));
      }
      SortedAddresses(r.result.value.deliveries, received);
    }
  }

  lemma SortedAddresses(deliveries: seq<Delivery>, received: seq<Subscription>)
    requires |deliveries| == |received| && Sorted(received)
    requires forall i :: 0 <= i < |received| ==>
      deliveries[i].recipient == received[i].subscriber && deliveries[i].handler == received[i].handler
    ensures InAddressOrder(deliveries)
  {
    forall i, j | 0 <= i < j < |deliveries|
      ensures deliveries[i].recipient < deliveries[j].recipient
        || (deliveries[i].recipient == deliveries[j].recipient && deliveries[i].handler < deliveries[j].handler)
    {
      assert Before(received[i], received[j]);
    }
  }

  lemma ReceivesIs(s: State, marked: State, p: Policy, m: Publication, x: Subscription)
    requires marked == s.(replay := marked.replay) && HasEnvironment(s, m.sender)
    requires m.attributes == StoredAttributes(s, m.sender)
    ensures Receives(s, p, m.sender, m.typeId, m.clauses, x) <==>
      Claimable(marked, x) && x.typeId == m.typeId && Reaches(marked, p, m, x)
  {
    hide ParseOperation, Satisfies, Validate;
  }

  // ----- when a request is accepted -----

  /** The conditions of acceptance for limits whose snapshots fit. */
  ghost predicate Acceptable(s: State, limits: Limits, p: Policy, h: Header, op: Operation, failing: Failures) {
    match h.messageType
    case SetEnvironment =>
      && op.SetEnvironment? && h.handler == NO_HANDLER && Validate(p, h.sender, op.attributes).Ok?
      && (h.sender in s.environments || |s.environments| < limits.environments) && 1 !in failing
    case Publish =>
      && op.Publish? && h.handler == NO_HANDLER && HasEnvironment(s, h.sender) && HasValidEnvironment(s, p, h.sender)
      && ClaimsAreWritten(s, p, h.sender, op, failing)
    case PublicationResponse => false
    case _ =>
      && OfKind(h, op) && h.handler != NO_HANDLER && HasValidEnvironment(s, p, h.sender)
      && HasRoom(s, limits, Wanted(h, op, [])) && 1 !in failing
  }

  /** The file system takes the commits of all claims that the publication makes. */
  ghost predicate ClaimsAreWritten(s: State, p: Policy, sender: AgentId, op: Operation, failing: Failures)
    requires op.Publish? && HasEnvironment(s, sender)
  {
    var bucket := BucketOf(s.subscriptions, op.typeId);
    forall i :: 0 <= i < |bucket| && bucket[i].kind == OneShot ==>
      Receives(s, p, sender, op.typeId, op.clauses, bucket[i]) ==> 1 + i !in failing
  }

  /** The exact conditions of acceptance, for the default limits and all others whose snapshots fit:
      the frame is an envelope for the CA, signed by its sender, who is in the directory; the session is
      new or has expired, and there is room for it; the content opens and parses; it is of the announced
      type, and meets the conditions of the type; and the file system takes every commit. */
  lemma AcceptanceIsExact(s: State, limits: Limits, p: Policy, frame: seq<byte>, crypto: Crypto, now: u64,
                          failing: Failures)
    requires Valid(s, limits) && Provisioned(s) && LostClaims.Roomy(limits)
    ensures Process(s, limits, p, frame, crypto, now, failing).result.Ok? <==>
      && SignedRequest(s, frame, crypto)
      && crypto.content.Ok? && ParseOperation(crypto.content.value).Ok?
      && var h := ParseEnvelope(frame).value.header;
         && Key(h.sender, h.session) !in Unexpired(s, now) && |Unexpired(s, now)| < limits.replays && 0 !in failing
         && Acceptable(s, limits, p, h, ParseOperation(crypto.content.value).value, failing)
  {
    hide ParseEnvelope, ParseOperation, Acceptable, Process, Valid, Provisioned, Verdict, WithMark, Unexpired;
    var r := Process(s, limits, p, frame, crypto, now, failing);
    if r.result.Ok? {
      UnopenedIsRefused(s, limits, p, frame, crypto, now, failing);
    }
    if SignedRequest(s, frame, crypto) && crypto.content.Ok? && ParseOperation(crypto.content.value).Ok? {
      var h, op := ParseEnvelope(frame).value.header, ParseOperation(crypto.content.value).value;
      if h.messageType == MessageType.PublicationResponse {
        RefusalsInOrder(s, limits, p, frame, crypto, now, failing);
        assert !Acceptable(s, limits, p, h, op, failing) by { NeverAcceptable(s, limits, p, h, op, failing); }
      } else {
        MarkDecides(s, limits, p, frame, crypto, now, failing, h);
        if Key(h.sender, h.session) !in Unexpired(s, now) && |Unexpired(s, now)| < limits.replays {
          ValidMark(s, limits, h, now);
          KnownMark(s, limits, h, now);
          LostClaims.RoomyCommits(WithMark(s, limits, h, now), limits, 0 !in failing);
          if 0 !in failing {
            OpenedIsExact(s, limits, p, frame, crypto, now, failing, h, op);
          }
        }
      }
    }
  }

  lemma NeverAcceptable(s: State, limits: Limits, p: Policy, h: Header, op: Operation, failing: Failures)
    requires h.messageType == MessageType.PublicationResponse
    ensures !Acceptable(s, limits, p, h, op, failing)
  {
  }

  lemma KnownMark(s: State, limits: Limits, h: Header, now: u64)
    requires Provisioned(s) && h.sender in s.keys && h.sender != CA
    ensures Provisioned(WithMark(s, limits, h, now)) && Known(WithMark(s, limits, h, now), h.sender)
  {
  }

  lemma OpenedIsExact(s: State, limits: Limits, p: Policy, frame: seq<byte>, crypto: Crypto, now: u64,
                      failing: Failures, h: Header, op: Operation)
    requires Valid(s, limits) && Provisioned(s) && LostClaims.Roomy(limits)
    requires Opened(s, limits, frame, crypto, now, failing, h, op)
    ensures Process(s, limits, p, frame, crypto, now, failing).result.Ok? <==> Acceptable(s, limits, p, h, op, failing)
  {
    hide ParseEnvelope, ParseOperation, Process, Valid, Provisioned, Verdict, Validate, HasValidEnvironment,
      HasRoom, ClaimsAreWritten, Receives, WithMark, WithEnvironment;
    var marked, content := WithMark(s, limits, h, now), crypto.content.value;
    ValidMark(s, limits, h, now);
    KnownMark(s, limits, h, now);
    MarkChangesReplay(s, limits, h, now);
    if h.messageType == MessageType.SetEnvironment {
      EnvironmentRequest(s, limits, p, frame, crypto, now, failing, h, op);
      if op.SetEnvironment? && (h.sender in s.environments || |s.environments| < limits.environments) {
        EnvironmentCommits(marked, limits, h, content, 1 !in failing);
      }
    } else if h.messageType == MessageType.Publish {
      var received := PublicationRequest(s, limits, p, frame, crypto, now, failing, h, op);
      if op.Publish? && h.handler == NO_HANDLER && HasValidEnvironment(s, p, h.sender) {
        PublicationCommits(s, limits, p, frame, crypto, now, failing, h, op);
      }
    } else {
      var next := SubscriptionRequest(s, limits, p, frame, crypto, now, failing, h, op);
      if OfKind(h, op) && h.handler != NO_HANDLER && HasValidEnvironment(s, p, h.sender) {
        SameSlots(s, limits, Wanted(h, op, content), Wanted(h, op, []));
        if HasRoom(s, limits, Wanted(h, op, content)) {
          SubscriptionCommits(s, limits, p, frame, crypto, now, failing, h, op);
        }
      }
    }
  }

  lemma SameSlots(s: State, limits: Limits, x: Subscription, y: Subscription)
    requires x.typeId == y.typeId && SameSlot(x, y)
    ensures HasRoom(s, limits, x) <==> HasRoom(s, limits, y)
  {
    hide Count, Claimable;
  }

  lemma EnvironmentCommits(s: State, limits: Limits, h: Header, content: seq<byte>, writes: bool)
    requires Valid(s, limits) && Provisioned(s) && Known(s, h.sender) && LostClaims.Roomy(limits)
    requires IsEnvironment(content)
    requires h.sender in s.environments || |s.environments| < limits.environments
    ensures Verdict(WithEnvironment(s, h.sender, content), writes).Ok? <==> writes
  {
    hide Valid, Provisioned, Verdict, IsEnvironment;
    PutEnvironmentKeeps(s, limits, h.sender, content);
    LostClaims.RoomyCommits(WithEnvironment(s, h.sender, content), limits, writes);
  }

  lemma SubscriptionCommits(s: State, limits: Limits, p: Policy, frame: seq<byte>, crypto: Crypto, now: u64,
                            failing: Failures, h: Header, op: Operation)
    requires Valid(s, limits) && Provisioned(s) && LostClaims.Roomy(limits)
    requires Opened(s, limits, frame, crypto, now, failing, h, op)
    requires h.messageType == MessageType.Subscribe || h.messageType == MessageType.SubscribePermanent
    requires OfKind(h, op) && h.handler != NO_HANDLER && HasValidEnvironment(s, p, h.sender)
    requires HasRoom(s, limits, Wanted(h, op, crypto.content.value))
    ensures Process(s, limits, p, frame, crypto, now, failing).result.Ok? <==> 1 !in failing
  {
    hide ParseEnvelope, ParseOperation, Valid, Provisioned, Verdict, HasValidEnvironment, WithMark, Perform,
      PutSubscription, HasRoom, ValidEnvironment;
    var marked, x := WithMark(s, limits, h, now), Wanted(h, op, crypto.content.value);
    MarkDecides(s, limits, p, frame, crypto, now, failing, h);
    ValidMark(s, limits, h, now);
    KnownMark(s, limits, h, now);
    MarkChangesReplay(s, limits, h, now);
    SameEnvironments(s, marked, p, h.sender);
    ValidEnvironmentIs(marked, p, h.sender);
    PerformSubscription(marked, limits, p, h, crypto.content.value, failing, op);
    WantedIsStored(h, op, crypto.content.value);
    SlotIsFree(s, marked, limits, x);
    PutSubscriptionKeeps(marked, limits, x);
    LostClaims.RoomyCommits(PutSubscription(marked, limits, x).value, limits, 1 !in failing);
  }

  lemma PublicationCommits(s: State, limits: Limits, p: Policy, frame: seq<byte>, crypto: Crypto, now: u64,
                           failing: Failures, h: Header, op: Operation)
    requires Valid(s, limits) && Provisioned(s) && LostClaims.Roomy(limits)
    requires Opened(s, limits, frame, crypto, now, failing, h, op) && h.messageType == MessageType.Publish
    requires op.Publish? && h.handler == NO_HANDLER
    requires HasValidEnvironment(s, p, h.sender) && HasEnvironment(s, h.sender)
    ensures Process(s, limits, p, frame, crypto, now, failing).result.Ok? <==>
      ClaimsAreWritten(s, p, h.sender, op, failing)
  {
    hide ParseEnvelope, ParseOperation, Valid, Provisioned, Verdict, HasValidEnvironment, WithMark, Perform,
      PublishAll, HasEnvironment, Receives, Reaches;
    var marked, content := WithMark(s, limits, h, now), crypto.content.value;
    MarkDecides(s, limits, p, frame, crypto, now, failing, h);
    ValidMark(s, limits, h, now);
    KnownMark(s, limits, h, now);
    MarkChangesReplay(s, limits, h, now);
    SameEnvironments(s, marked, p, h.sender);
    PerformPublication(marked, limits, p, h, content, failing, op);
    ParsingIsCanonical(content, op);
    var m := Publication(h.sender, StoredAttributes(marked, h.sender), op.typeId, op.clauses, op.value);
    LostClaims.SuccessIsExact(marked, limits, p, m, failing);
    BucketEntries(s, limits, op.typeId);
    forall x | x in BucketOf(s.subscriptions, op.typeId)
      ensures Receives(s, p, h.sender, op.typeId, op.clauses, x) <==> Reaches(marked, p, m, x)
    {
      ReceivesIs(s, marked, p, m, x);
    }
  }

  // ----- where everything comes from -----

  /** A frame that the CA was given, and what cryptography said of it. */
  datatype Sent = Sent(frame: seq<byte>, crypto: Crypto)

  /** A signed envelope from the agent to the CA, of the type. */
  predicate From(m: Sent, agent: AgentId, messageType: MessageType) {
    && m.crypto.signed && ParseEnvelope(m.frame).Ok?
    && var h := ParseEnvelope(m.frame).value.header;
       h.sender == agent && h.recipient == CA && h.messageType == messageType
  }

  predicate AsksEnvironment(m: Sent, agent: AgentId, encoded: seq<byte>) {
    From(m, agent, MessageType.SetEnvironment) && m.crypto.content == Ok(encoded)
  }

  predicate AsksSubscription(m: Sent, x: Subscription) {
    && From(m, x.subscriber, if x.kind == OneShot then MessageType.Subscribe else MessageType.SubscribePermanent)
    && ParseEnvelope(m.frame).value.header.handler == x.handler && m.crypto.content == Ok(x.encoded)
  }

  predicate AsksUnder(m: Sent, k: Key) {
    && m.crypto.signed && ParseEnvelope(m.frame).Ok?
    && var h := ParseEnvelope(m.frame).value.header; h.recipient == CA && k == Key(h.sender, h.session)
  }

  /** The delivery carries what the request published, under the name of its sender. */
  predicate Published(m: Sent, d: Delivery) {
    && ParseOperation(d.plaintext).Ok? && ParseOperation(d.plaintext).value.PublicationResponse?
    && var response := ParseOperation(d.plaintext).value;
       && From(m, response.publisher, MessageType.Publish)
       && m.crypto.content.Ok? && ParseOperation(m.crypto.content.value).Ok?
       && var op := ParseOperation(m.crypto.content.value).value;
          op.Publish? && op.typeId == response.typeId && op.value == response.value
  }

  /** What is new in the state was asked for by the request. */
  ghost predicate NewIsAsked(before: State, after: State, m: Sent) {
    && (forall a :: a in after.environments ==>
          (a in before.environments && after.environments[a] == before.environments[a])
          || AsksEnvironment(m, a, after.environments[a]))
    && (forall x :: Claimable(after, x) ==> Claimable(before, x) || AsksSubscription(m, x))
    && (forall k :: k in after.replay ==> k in before.replay || AsksUnder(m, k))
  }

  /** A new environment is the content of a signed request of its agent, a new subscription that of a
      signed request of its subscriber, a new mark names sender and session of a signed request, and a
      delivery carries the value that a signed request of the named publisher published. */
  lemma EverythingIsRequested(s: State, limits: Limits, p: Policy, frame: seq<byte>, crypto: Crypto, now: u64,
                              failing: Failures)
    requires Valid(s, limits)
    ensures NewIsAsked(s, Process(s, limits, p, frame, crypto, now, failing).state, Sent(frame, crypto))
    ensures var r := Process(s, limits, p, frame, crypto, now, failing).result;
      r.Ok? && r.value.Deliveries? ==> forall d :: d in r.value.deliveries ==> Published(Sent(frame, crypto), d)
  {
    hide ParseEnvelope, ParseOperation, Valid, Verdict, NewIsAsked, Published, Markable, WithMark, MarkCommitted,
      Validate,
      EnvironmentOf, PublishAll, Updated;
    var r := Process(s, limits, p, frame, crypto, now, failing);
    OnlySignedRequestsCount(s, limits, p, frame, crypto, now, failing);
    RefusalsInOrder(s, limits, p, frame, crypto, now, failing);
    NothingIsNew(s, Sent(frame, crypto));
    if r.result.Ok? || r.state != s {
      var h := ParseEnvelope(frame).value.header;
      MarkDecides(s, limits, p, frame, crypto, now, failing, h);
      MarkIsAsked(s, limits, h, now, Sent(frame, crypto));
      if crypto.content.Ok? && ParseOperation(crypto.content.value).Ok? {
        OpenedIsRequested(s, limits, p, frame, crypto, now, failing, h, ParseOperation(crypto.content.value).value);
      }
    }
  }

  lemma NothingIsNew(s: State, m: Sent)
    ensures NewIsAsked(s, s, m)
  {
  }

  lemma MarkIsAsked(s: State, limits: Limits, h: Header, now: u64, m: Sent)
    requires ParseEnvelope(m.frame).Ok? && h == ParseEnvelope(m.frame).value.header
    requires m.crypto.signed && h.recipient == CA
    ensures NewIsAsked(s, WithMark(s, limits, h, now), m)
  {
    hide ParseEnvelope;
  }

  lemma OpenedIsRequested(s: State, limits: Limits, p: Policy, frame: seq<byte>, crypto: Crypto, now: u64,
                          failing: Failures, h: Header, op: Operation)
    requires Valid(s, limits) && Opened(s, limits, frame, crypto, now, failing, h, op)
    ensures NewIsAsked(s, Process(s, limits, p, frame, crypto, now, failing).state, Sent(frame, crypto))
    ensures var r := Process(s, limits, p, frame, crypto, now, failing).result;
      r.Ok? && r.value.Deliveries? ==> forall d :: d in r.value.deliveries ==> Published(Sent(frame, crypto), d)
  {
    hide ParseEnvelope, ParseOperation, Process, Valid, Validate, Verdict, HasValidEnvironment, Receives, WithMark;
    var r, m := Process(s, limits, p, frame, crypto, now, failing), Sent(frame, crypto);
    var marked := WithMark(s, limits, h, now);
    MarkIsAsked(s, limits, h, now, m);
    if h.messageType == MessageType.SetEnvironment {
      EnvironmentRequest(s, limits, p, frame, crypto, now, failing, h, op);
    } else if h.messageType == MessageType.Publish {
      PublicationIsRequested(s, limits, p, frame, crypto, now, failing, h, op);
    } else {
      SubscriptionIsRequested(s, limits, p, frame, crypto, now, failing, h, op);
    }
  }

  lemma SubscriptionIsRequested(s: State, limits: Limits, p: Policy, frame: seq<byte>, crypto: Crypto, now: u64,
                                failing: Failures, h: Header, op: Operation)
    requires Valid(s, limits) && Opened(s, limits, frame, crypto, now, failing, h, op)
    requires h.messageType == MessageType.Subscribe || h.messageType == MessageType.SubscribePermanent
    ensures NewIsAsked(s, Process(s, limits, p, frame, crypto, now, failing).state, Sent(frame, crypto))
    ensures var r := Process(s, limits, p, frame, crypto, now, failing).result; r.Ok? ==> r.value == Accepted
  {
    hide ParseEnvelope, ParseOperation, Process, Valid, Validate, Verdict, HasValidEnvironment, WithMark, HasRoom,
      Claimable;
    var next := SubscriptionRequest(s, limits, p, frame, crypto, now, failing, h, op);
    var marked := WithMark(s, limits, h, now);
    MarkIsAsked(s, limits, h, now, Sent(frame, crypto));
    if Process(s, limits, p, frame, crypto, now, failing).result.Ok? {
      assert AsksSubscription(Sent(frame, crypto), Wanted(h, op, crypto.content.value));
    }
  }

  lemma PublicationIsRequested(s: State, limits: Limits, p: Policy, frame: seq<byte>, crypto: Crypto, now: u64,
                               failing: Failures, h: Header, op: Operation)
    requires Valid(s, limits) && Opened(s, limits, frame, crypto, now, failing, h, op)
    requires h.messageType == MessageType.Publish
    ensures NewIsAsked(s, Process(s, limits, p, frame, crypto, now, failing).state, Sent(frame, crypto))
    ensures var r := Process(s, limits, p, frame, crypto, now, failing).result;
      r.Ok? ==> r.value.Deliveries? && forall d :: d in r.value.deliveries ==> Published(Sent(frame, crypto), d)
  {
    hide ParseEnvelope, ParseOperation, Process, Valid, Validate, Verdict, HasValidEnvironment, WithMark, Receives;
    var received := PublicationRequest(s, limits, p, frame, crypto, now, failing, h, op);
    var r := Process(s, limits, p, frame, crypto, now, failing);
    MarkIsAsked(s, limits, h, now, Sent(frame, crypto));
    PublicationKeeps(s, limits, p, frame, crypto, now, failing, h, op);
    if r.result.Ok? {
      forall d | d in r.result.value.deliveries ensures Published(Sent(frame, crypto), d) {
        var i :| 0 <= i < |received| && r.result.value.deliveries[i] == d;
        assert Responds(d, received[i], h.sender, op.typeId, op.value);
      }
    }
  }

  /** A publication takes subscriptions away only, whether it succeeds or fails. */
  lemma PublicationKeeps(s: State, limits: Limits, p: Policy, frame: seq<byte>, crypto: Crypto, now: u64,
                         failing: Failures, h: Header, op: Operation)
    requires Valid(s, limits) && Opened(s, limits, frame, crypto, now, failing, h, op)
    requires h.messageType == MessageType.Publish
    ensures var next, marked := Process(s, limits, p, frame, crypto, now, failing).state, WithMark(s, limits, h, now);
      && next == marked.(subscriptions := next.subscriptions)
      && forall x :: Claimable(next, x) ==> Claimable(marked, x)
  {
    hide ParseEnvelope, ParseOperation, Valid, Validate, Verdict, HasValidEnvironment, WithMark, Perform, PublishAll,
      HasEnvironment, Reaches;
    var marked, content := WithMark(s, limits, h, now), crypto.content.value;
    MarkDecides(s, limits, p, frame, crypto, now, failing, h);
    ValidMark(s, limits, h, now);
    PerformPublication(marked, limits, p, h, content, failing, op);
    MarkChangesReplay(s, limits, h, now);
    SameEnvironments(s, marked, p, h.sender);
    if op.Publish? && h.handler == NO_HANDLER && HasValidEnvironment(marked, p, h.sender) {
      var m := Publication(h.sender, StoredAttributes(marked, h.sender), op.typeId, op.clauses, op.value);
      PublicationIsExact(marked, limits, p, m, failing);
      if PublishAll(marked, p, m, failing).result.Err? {
        var at := FailureIsExact(marked, limits, p, m, failing);
      }
    }
  }
}
