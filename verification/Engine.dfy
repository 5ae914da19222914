/** What the CA answers to one request, and what its state is afterwards. */
module Engine {
  import opened Bytes
  import opened Types
  import opened Payload
  import opened Evaluation
  import opened Envelope
  import opened Replay
  import opened EnvironmentPolicy
  import opened Store
  import opened Snapshot

  /** What cryptography says about a frame: whether the sender's key verifies its signature, and
      what opening it yields. */
  datatype Crypto = Crypto(signed: bool, content: Result<seq<byte>, Error>)

  /** The content of one sealed frame. */
  datatype Delivery = Delivery(recipient: AgentId, handler: HandlerId, plaintext: seq<byte>)

  datatype Answer = Accepted | Deliveries(deliveries: seq<Delivery>)

  datatype Response = Response(result: Result<Answer, Error>, state: State)

  /** The commits of one request that the file system refuses: number 0 is that of the mark, number
      1 that of an environment or a subscription, and number `1 + i` that of the claim of entry `i`. */
  type Failures = set<nat>

  /** A publication that passed the checks on its sender. */
  datatype Publication = Publication(sender: AgentId, attributes: seq<Attribute>, typeId: TypeId,
                                     clauses: seq<Clause>, value: seq<byte>)

  // ----- stored bytes, decoded -----

  function AttributesOf(encoded: seq<byte>): seq<Attribute>
    requires IsEnvironment(encoded)
  {
    ParseOperation(encoded).value.attributes
  }

  function EnvironmentOf(s: State, agent: AgentId): Option<seq<Attribute>> {
    if agent in s.environments && IsEnvironment(s.environments[agent]) then Some(AttributesOf(s.environments[agent]))
      else None
  }

  function ClausesOf(x: Subscription): seq<Clause>
    requires Stored(x)
  {
    ParseOperation(x.encoded).value.clauses
  }

  // ----- matching -----

  /** The subscription's predicate holds of the publisher, the audience includes the subscriber, and
      the policy authorises the delivery. */
  predicate Reaches(s: State, p: Policy, m: Publication, x: Subscription) {
    && Stored(x)
    && Satisfies(m.attributes, ClausesOf(x))
    && EnvironmentOf(s, x.subscriber).Some?
    && var subscriber := EnvironmentOf(s, x.subscriber).value;
       && Satisfies(subscriber, m.clauses)
       && AuthorizeDelivery(p, m.sender, m.attributes, x.subscriber, subscriber, m.typeId)
  }

  function DeliveryTo(m: Publication, x: Subscription): Delivery
    requires |m.value| <= MAX_VALUE_BYTES
  {
    Delivery(x.subscriber, x.handler, OperationBytes(Operation.PublicationResponse(m.typeId, m.sender, m.value)))
  }

  /** The subscriptions reached, in bucket order. */
  function Reached(s: State, p: Policy, m: Publication, bucket: seq<Subscription>): seq<Subscription> {
    if bucket == [] then []
    else
      var n := |bucket| - 1;
      Reached(s, p, m, bucket[..n]) + if Reaches(s, p, m, bucket[n]) then [bucket[n]] else []
  }

  /** What is left of a bucket: all but the one-shots reached. */
  function Remaining(s: State, p: Policy, m: Publication, bucket: seq<Subscription>): seq<Subscription> {
    if bucket == [] then []
    else
      var n := |bucket| - 1;
      Remaining(s, p, m, bucket[..n]) + if bucket[n].kind == OneShot && Reaches(s, p, m, bucket[n]) then []
        else [bucket[n]]
  }

  function DeliveriesTo(m: Publication, reached: seq<Subscription>): (deliveries: seq<Delivery>)
    requires |m.value| <= MAX_VALUE_BYTES
    ensures |deliveries| == |reached|
  {
    seq(|reached|, i requires 0 <= i < |reached| => DeliveryTo(m, reached[i]))
  }

  /** The state when the publication has come to entry `i` of its bucket, all claims so far having
      been committed. */
  function Midway(s: State, p: Policy, m: Publication, bucket: seq<Subscription>, i: nat): State
    requires i <= |bucket|
  {
    if m.typeId in s.subscriptions
    then s.(subscriptions := s.subscriptions[m.typeId := Remaining(s, p, m, bucket[..i]) + bucket[i..]])
    else s
  }

  predicate Claims(s: State, p: Policy, m: Publication, x: Subscription) {
    x.kind == OneShot && Reaches(s, p, m, x)
  }

  /** What the commit of the claim of entry `i` returns. */
  function ClaimVerdict(s: State, p: Policy, m: Publication, failing: Failures, bucket: seq<Subscription>,
                        i: nat): Result<(), Error>
    requires i < |bucket|
  {
    Verdict(Midway(s, p, m, bucket, i + 1), 1 + i !in failing)
  }

  predicate ClaimFails(s: State, p: Policy, m: Publication, failing: Failures, bucket: seq<Subscription>, i: nat)
    requires i < |bucket|
  {
    Claims(s, p, m, bucket[i]) && ClaimVerdict(s, p, m, failing, bucket, i).Err?
  }

  /** The first entry from `i` on whose claim cannot be committed, or the length of the bucket. */
  function Stop(s: State, p: Policy, m: Publication, failing: Failures, bucket: seq<Subscription>, i: nat): (at: nat)
    requires i <= |bucket|
    ensures i <= at <= |bucket|
    decreases |bucket| - i
  {
    if i == |bucket| || ClaimFails(s, p, m, failing, bucket, i) then i else Stop(s, p, m, failing, bucket, i + 1)
  }

  lemma StopIs(s: State, p: Policy, m: Publication, failing: Failures, bucket: seq<Subscription>, i: nat)
    requires i <= |bucket|
    ensures var at := Stop(s, p, m, failing, bucket, i);
      && (at < |bucket| ==> ClaimFails(s, p, m, failing, bucket, at))
      && forall k :: i <= k < at ==> !ClaimFails(s, p, m, failing, bucket, k)
    decreases |bucket| - i
  {
    hide ClaimFails;
    if i < |bucket| && !ClaimFails(s, p, m, failing, bucket, i) {
      StopIs(s, p, m, failing, bucket, i + 1);
    }
  }

  function PublishAll(s: State, p: Policy, m: Publication, failing: Failures): Response
    requires |m.value| <= MAX_VALUE_BYTES
  {
    var bucket := BucketOf(s.subscriptions, m.typeId);
    var at := Stop(s, p, m, failing, bucket, 0);
    StopIs(s, p, m, failing, bucket, 0);
    if at < |bucket| then Response(Err(ClaimVerdict(s, p, m, failing, bucket, at).error), Midway(s, p, m, bucket, at))
    else Response(Ok(Deliveries(DeliveriesTo(m, Reached(s, p, m, bucket)))), Midway(s, p, m, bucket, |bucket|))
  }

  // ----- one request -----

  predicate ValidEnvironment(s: State, p: Policy, agent: AgentId) {
    EnvironmentOf(s, agent).Some? && Validate(p, agent, EnvironmentOf(s, agent).value).Ok?
  }

  /** The update if it can be committed. */
  function Committed(update: Update, writes: bool): Update {
    if update.Err? then update
    else if Verdict(update.value, writes).Err? then Err(Verdict(update.value, writes).error)
    else update
  }

  function Updated(s: State, update: Update, writes: bool): Response {
    var committed := Committed(update, writes);
    if committed.Ok? then Response(Ok(Accepted), committed.value) else Response(Err(committed.error), s)
  }

  /** A request whose session is marked and whose content is open. */
  ghost function Perform(s: State, limits: Limits, p: Policy, h: Header, plaintext: seq<byte>,
                         failing: Failures): Response
  {
    var op := ParseOperation(plaintext);
    if op.Err? then Response(Err(op.error), s)
    else
      ParsingIsCanonical(plaintext, op.value);
      match (h.messageType, op.value)
      case (SetEnvironment, SetEnvironment(attributes)) =>
        if h.handler != NO_HANDLER then Response(Err(WrongHandler), s)
        else if Validate(p, h.sender, attributes).Err? then Response(Err(UnauthorizedEnvironment), s)
        else Updated(s, PutEnvironment(s, limits, h.sender, plaintext), 1 !in failing)
      case (Subscribe, Subscribe(typeId, _)) =>
        if h.handler == NO_HANDLER then Response(Err(WrongHandler), s)
        else if !ValidEnvironment(s, p, h.sender) then Response(Err(UnauthorizedEnvironment), s)
        else Updated(s, PutSubscription(s, limits, Subscription(h.sender, typeId, h.handler, OneShot, plaintext)),
          1 !in failing)
      case (SubscribePermanent, SubscribePermanent(typeId, _)) =>
        if h.handler == NO_HANDLER then Response(Err(WrongHandler), s)
        else if !ValidEnvironment(s, p, h.sender) then Response(Err(UnauthorizedEnvironment), s)
        else Updated(s, PutSubscription(s, limits, Subscription(h.sender, typeId, h.handler, Permanent, plaintext)),
          1 !in failing)
      case (Publish, Publish(typeId, clauses, value)) =>
        if h.handler != NO_HANDLER then Response(Err(WrongHandler), s)
        else if EnvironmentOf(s, h.sender).None? then Response(Err(Malformed), s)
        else if !ValidEnvironment(s, p, h.sender) then Response(Err(UnauthorizedEnvironment), s)
        else PublishAll(s, p, Publication(h.sender, EnvironmentOf(s, h.sender).value, typeId, clauses, value), failing)
      case _ => Response(Err(WrongMessageType), s)
  }

  /** The checks before the session is marked. */
  function Authenticate(s: State, frame: seq<byte>, crypto: Crypto): Result<Header, Error> {
    var envelope :- ParseEnvelope(frame);
    var h := envelope.header;
    if h.recipient != CA || h.sender == CA then Err(WrongRecipient)
    else if h.messageType == MessageType.PublicationResponse then Err(WrongMessageType)
    else if h.sender !in s.keys || !crypto.signed then Err(BadSignature)
    else Ok(h)
  }

  ghost function Process(s: State, limits: Limits, p: Policy, frame: seq<byte>, crypto: Crypto, now: u64,
                         failing: Failures): Response
  {
    var header := Authenticate(s, frame, crypto);
    if header.Err? then Response(Err(header.error), s)
    else
      var marked := MarkCommitted(s, limits, header.value, now, failing);
      if marked.Err? then Response(Err(marked.error), s)
      else if crypto.content.Err? then Response(Err(crypto.content.error), marked.value)
      else Perform(marked.value, limits, p, header.value, crypto.content.value, failing)
  }

  /** The session of a request is marked, and the mark committed. */
  function MarkCommitted(s: State, limits: Limits, h: Header, now: u64, failing: Failures): Update {
    Committed(MarkSession(s, limits, Key(h.sender, h.session), now), 0 !in failing)
  }
}
