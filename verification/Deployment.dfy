/** The engine behind the link: its answers are groups that the link protocol admits. */
module Deployment {
  import opened Bytes
  import opened Types
  import opened Payload
  import opened Envelope
  import opened EnvironmentPolicy
  import opened Replay
  import opened Store
  import opened Snapshot
  import opened Engine
  import opened EngineTheorems
  import opened RequestTheorems
  import LinkProtocol
  import LinkTheorems

  /** The link identifiers of a group, and the sealed frames of its deliveries. */
  predicate Seals(group: seq<LinkProtocol.Frame>, deliveries: seq<Delivery>) {
    && |group| == |deliveries|
    && forall i :: 0 <= i < |group| ==>
         group[i].kind == LinkProtocol.FrameKind.Delivery && |group[i].payload| == Total(|deliveries[i].plaintext|)
  }

  /** Deliveries are answered to a signed publication only, in the state with its session marked: that
      of its sender with its stored attributes, and of the type, the audience and the value requested. */
  lemma AnswerIsPublication(s: State, limits: Limits, p: Policy, frame: seq<byte>, crypto: Crypto, now: u64,
                            failing: Failures)
    returns (marked: State, m: Publication)
    requires Store.Valid(s, limits)
    requires var r := Process(s, limits, p, frame, crypto, now, failing).result; r.Ok? && r.value.Deliveries?
    ensures Store.Valid(marked, limits) && marked == s.(replay := marked.replay) && |m.value| <= MAX_VALUE_BYTES
    ensures SignedRequest(s, frame, crypto) && crypto.content.Ok? && ParseOperation(crypto.content.value).Ok?
    ensures var h, op := ParseEnvelope(frame).value.header, ParseOperation(crypto.content.value).value;
      && h.messageType == MessageType.Publish && op.Publish? && HasEnvironment(s, h.sender)
      && m.sender == h.sender && m.attributes == StoredAttributes(s, h.sender)
      && m.typeId == op.typeId && m.clauses == op.clauses && m.value == op.value
    ensures Process(s, limits, p, frame, crypto, now, failing) == PublishAll(marked, p, m, failing)
  {
    hide Store.Valid, ParseEnvelope, Validate, PublishAll, ParseOperation, Verdict, Process, HasValidEnvironment,
      WithMark, Perform, HasEnvironment;
    UnopenedIsRefused(s, limits, p, frame, crypto, now, failing);
    var h, op := ParseEnvelope(frame).value.header, ParseOperation(crypto.content.value).value;
    marked := WithMark(s, limits, h, now);
    MarkDecides(s, limits, p, frame, crypto, now, failing, h);
    ValidMark(s, limits, h, now);
    MarkChangesReplay(s, limits, h, now);
    OnlyPublicationsDeliver(s, limits, p, frame, crypto, now, failing, h, op);
    SameEnvironments(s, marked, p, h.sender);
    PerformPublication(marked, limits, p, h, crypto.content.value, failing, op);
    ParsingIsCanonical(crypto.content.value, op);
    m := Publication(h.sender, StoredAttributes(s, h.sender), op.typeId, op.clauses, op.value);
  }

  lemma OnlyPublicationsDeliver(s: State, limits: Limits, p: Policy, frame: seq<byte>, crypto: Crypto, now: u64,
                                failing: Failures, h: Header, op: Operation)
    requires Store.Valid(s, limits) && Opened(s, limits, frame, crypto, now, failing, h, op)
    requires var r := Process(s, limits, p, frame, crypto, now, failing).result; r.Ok? && r.value.Deliveries?
    ensures h.messageType == MessageType.Publish && op.Publish? && h.handler == NO_HANDLER
    ensures HasValidEnvironment(s, p, h.sender)
  {
    hide Store.Valid, ParseEnvelope, Validate, ParseOperation, Verdict, Process, HasValidEnvironment, WithMark,
      Receives;
    if h.messageType == MessageType.SetEnvironment {
      EnvironmentRequest(s, limits, p, frame, crypto, now, failing, h, op);
    } else if h.messageType == MessageType.Publish {
      var received := PublicationRequest(s, limits, p, frame, crypto, now, failing, h, op);
    } else {
      var next := SubscriptionRequest(s, limits, p, frame, crypto, now, failing, h, op);
    }
  }

  lemma DeliveriesFitFrames(m: Publication, reached: seq<Subscription>, i: nat)
    requires |m.value| <= MAX_VALUE_BYTES && i < |reached|
    ensures Total(|DeliveriesTo(m, reached)[i].plaintext|) <= MAX_FRAME_LEN
  {
  }

  /** When the link is configured with the subscription limit of the store, no answer of the engine
      is larger than the groups that the link protocol allows for, and every delivery fits a frame. */
  lemma AnswersFitTheLink(s: State, limits: Limits, p: Policy, frame: seq<byte>, crypto: Crypto, now: u64,
                          failing: Failures,
                          c: LinkProtocol.Config, group: seq<LinkProtocol.Frame>)
    requires Store.Valid(s, limits) && c.maxGroup == limits.subscriptions
    requires var r := Process(s, limits, p, frame, crypto, now, failing).result;
      r.Ok? && r.value.Deliveries? && Seals(group, r.value.deliveries)
    ensures |group| <= c.maxGroup && forall f :: f in group ==> |f.payload| <= MAX_FRAME_LEN
  {
    hide Process, PublishAll, Store.Valid, DeliveriesTo, Reached;
    var marked, m := AnswerIsPublication(s, limits, p, frame, crypto, now, failing);
    var reached := Reached(marked, p, m, BucketOf(marked.subscriptions, m.typeId));
    PublicationIsExact(marked, limits, p, m, failing);
    forall f | f in group ensures |f.payload| <= MAX_FRAME_LEN {
      var i :| 0 <= i < |group| && group[i] == f;
      DeliveriesFitFrames(m, reached, i);
    }
  }

  /** The default configuration of the two daemons. */
  const DEFAULT_CONFIG: LinkProtocol.Config := LinkProtocol.Config(256, 512, 4096, 8192, 4096)

  /** The daemons start with it, its groups are bounded by the default limit of subscriptions, and it
      admits runs in which a delivery is routed twice. `LostClaims.GroupsCanBeFull` shows that the
      engine reaches the bound. */
  lemma DefaultsRouteTwice()
    ensures DEFAULT_CONFIG.Valid() && DEFAULT_CONFIG.maxGroup == DEFAULT_LIMITS.subscriptions
    ensures !LinkTheorems.RoutesOnce(DEFAULT_CONFIG)
  {
    LinkTheorems.DepthIsExact(DEFAULT_CONFIG);
  }
}
