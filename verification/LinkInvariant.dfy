/** What every step of the Broker--CA link keeps: `Safe` whatever the broker's deduplication depth,
    and `Ordered` when that depth covers a whole delivery group. */
module LinkInvariant {
  import opened Types
  import opened LinkProtocol

  function Last<T>(xs: seq<T>): T
    requires xs != []
  {
    xs[|xs| - 1]
  }

  /** Where the deliveries of the last processed request start. */
  function GroupStart(log: Log): nat {
    if |log.ends| < 2 then 0 else log.ends[|log.ends| - 2]
  }

  predicate Logged(log: Log) {
    && (forall f :: f in log.dequeued ==> f.kind == Request)
    && (forall f :: f in log.generated ==> f.kind == Delivery)
    && log.processed <= log.dequeued
    && DistinctIds(log.dequeued) && DistinctIds(log.generated)
    && (forall f, g :: f in log.dequeued && g in log.generated ==> f.id != g.id)
    && |log.ends| == |log.processed|
    && (forall k :: 0 <= k < |log.ends| ==> log.ends[k] <= |log.generated|)
    && (log.ends == [] ==> log.generated == [])
    && (log.ends != [] ==> Last(log.ends) == |log.generated|)
  }

  /** Stop and wait: at most one request is outstanding, and it is the last one. */
  predicate StopAndWait(pending: seq<Frame>, log: Log) {
    if pending == [] then log.processed == log.dequeued
    else log.dequeued != [] && pending == [Last(log.dequeued)] && |log.processed| >= |log.dequeued| - 1
  }

  predicate IsProcessed(log: Log, id: MessageId) {
    exists k :: 0 <= k < |log.processed| && log.processed[k].id == id
  }

  /** `current` is set exactly while a delivery of the last processed request is unacknowledged,
      and the window remembers at least that request. */
  predicate CaMemory(ca: CaState, pending: seq<Frame>, log: Log)
    requires Logged(log)
  {
    && (ca.current.Some? <==> ca.pending != [])
    && (ca.current.Some? ==>
          && log.processed != [] && ca.current == Some(Last(log.processed).id)
          && pending != [] && log.processed == log.dequeued)
    && (log.processed != [] ==> Last(log.processed).id in ca.acquired)
    && (forall id :: id in ca.acquired ==> IsProcessed(log, id))
    && (forall f :: f in ca.pending ==> f in log.generated[GroupStart(log)..])
    && DistinctIds(ca.pending)
  }

  predicate IsRouted(routed: seq<Frame>, id: MessageId) {
    exists f :: f in routed && f.id == id
  }

  /** Every generated delivery was accepted by the router or is still held by the CA. */
  predicate NothingLost(held: seq<Frame>, generated: seq<Frame>, routed: seq<Frame>) {
    && (forall f :: f in routed ==> f in generated)
    && (forall f :: f in generated ==> f in routed || f in held)
  }

  /** Once the broker has forgotten its last request, the router has accepted every delivery. */
  predicate IdleIsComplete(pending: seq<Frame>, generated: seq<Frame>, routed: seq<Frame>) {
    pending == [] ==> forall f :: f in generated ==> f in routed
  }

  predicate AcquiredAreRouted(acquired: seq<MessageId>, routed: seq<Frame>) {
    forall id :: id in acquired ==> IsRouted(routed, id)
  }

  predicate IsNew(log: Log, f: Frame) {
    |log.dequeued| == |log.processed| + 1 && f == Last(log.dequeued)
  }

  /** Towards the CA travel the last processed request, the one not processed yet, and Acks of
      routed deliveries. */
  predicate ToCaFrame(f: Frame, log: Log, routed: seq<Frame>) {
    match f.kind
    case Request => (log.processed != [] && f == Last(log.processed)) || IsNew(log, f)
    case Ack => IsRouted(routed, f.id)
    case _ => false
  }

  /** An old request at `j` behind the new one at `i`. */
  predicate StaleRequest(toCa: seq<Frame>, i: nat, j: nat, log: Log) {
    i < j < |toCa| && IsNew(log, toCa[i]) && toCa[j].kind == Request && !IsNew(log, toCa[j])
  }

  /** No copy of the last processed request follows the new one. */
  predicate RequestsInOrder(toCa: seq<Frame>, log: Log) {
    forall i: nat, j: nat :: i < j < |toCa| ==> !StaleRequest(toCa, i, j, log)
  }

  predicate ToCa(toCa: seq<Frame>, log: Log, routed: seq<Frame>) {
    (forall f :: f in toCa ==> ToCaFrame(f, log, routed)) && RequestsInOrder(toCa, log)
  }

  /** All deliveries generated up to and including request `k` have been accepted by the router. */
  predicate AllRouted(log: Log, k: nat, routed: seq<Frame>)
    requires Logged(log) && k < |log.ends|
  {
    forall f :: f in log.generated[..log.ends[k]] ==> f in routed
  }

  predicate Completed(id: MessageId, log: Log, routed: seq<Frame>)
    requires Logged(log)
  {
    exists k :: 0 <= k < |log.processed| && log.processed[k].id == id && AllRouted(log, k, routed)
  }

  /** Towards the broker travel deliveries of the last group, while its request is outstanding,
      and Acks of requests all of whose deliveries have been routed. */
  predicate ToBrokerFrame(f: Frame, current: Option<MessageId>, pending: seq<Frame>, log: Log, routed: seq<Frame>)
    requires Logged(log)
  {
    match f.kind
    case Delivery => f in log.generated[GroupStart(log)..] && log.processed == log.dequeued && pending != []
    case Ack => f.payload == [] && current != Some(f.id) && Completed(f.id, log, routed)
    case _ => false
  }

  predicate IsFinalAck(log: Log, f: Frame) {
    log.processed != [] && f == AckOf(Last(log.processed).id)
  }

  /** A delivery at `j` behind the Ack at `i` that ends its request. */
  predicate LateDelivery(toBroker: seq<Frame>, i: nat, j: nat, log: Log) {
    i < j < |toBroker| && IsFinalAck(log, toBroker[i]) && toBroker[j].kind == Delivery
  }

  /** No delivery follows the Ack that ends its request. */
  predicate AckIsLast(toBroker: seq<Frame>, log: Log) {
    forall i: nat, j: nat :: i < j < |toBroker| ==> !LateDelivery(toBroker, i, j, log)
  }

  predicate ToBroker(toBroker: seq<Frame>, current: Option<MessageId>, pending: seq<Frame>, log: Log,
                     routed: seq<Frame>)
    requires Logged(log)
  {
    (forall f :: f in toBroker ==> ToBrokerFrame(f, current, pending, log, routed)) && AckIsLast(toBroker, log)
  }

  predicate Safe(s: System) {
    && Logged(s.log)
    && StopAndWait(s.broker.pending, s.log)
    && (!s.caHalted ==> CaMemory(s.ca, s.broker.pending, s.log))
    && (s.caHalted ==> !s.caOpen)
    && NothingLost(s.ca.pending, s.log.generated, s.routed)
    && IdleIsComplete(s.broker.pending, s.log.generated, s.routed)
    && AcquiredAreRouted(s.broker.acquired, s.routed)
    && ToCa(s.toCa, s.log, s.routed)
    && ToBroker(s.toBroker, s.ca.current, s.broker.pending, s.log, s.routed)
    && !s.overflowed
  }

  /** The window holds the identifiers of the `depth` frames routed last, oldest first. */
  predicate RemembersLatest(acquired: seq<MessageId>, routed: seq<Frame>, depth: nat) {
    && |acquired| == (if |routed| < depth then |routed| else depth)
    && forall k :: 0 <= k < |acquired| ==> acquired[k] == routed[|routed| - |acquired| + k].id
  }

  /** What the CA holds ends with exactly the deliveries not routed yet, in order. */
  predicate HeldTail(held: seq<Frame>, generated: seq<Frame>, routed: seq<Frame>)
    requires routed <= generated
  {
    var u := |generated| - |routed|;
    && u <= |held|
    && held[|held| - u..] == generated[|routed|..]
    && forall i :: 0 <= i < |held| - u ==> held[i] in routed
  }

  /** In front of a delivery that is not routed travels its predecessor, unless that one is routed. */
  ghost predicate InOrder(toBroker: seq<Frame>, generated: seq<Frame>, routed: seq<Frame>) {
    forall p: nat, i: nat :: |routed| < i && IsAt(toBroker, p, generated, i) ==> Earlier(toBroker, p, generated[i - 1])
  }

  predicate IsAt(toBroker: seq<Frame>, p: nat, generated: seq<Frame>, i: nat) {
    p < |toBroker| && i < |generated| && toBroker[p] == generated[i]
  }

  predicate Earlier(frames: seq<Frame>, p: nat, f: Frame) {
    exists q :: 0 <= q < p && q < |frames| && frames[q] == f
  }

  /** Every earlier group is routed, and the last one fits the bound on groups. */
  predicate GroupBound(log: Log, routed: seq<Frame>, maxGroup: nat) {
    GroupStart(log) <= |routed| && |log.generated| - GroupStart(log) <= maxGroup
  }

  ghost predicate InSequence(log: Log, routed: seq<Frame>, held: seq<Frame>, toBroker: seq<Frame>, maxGroup: nat) {
    && routed <= log.generated
    && GroupBound(log, routed, maxGroup)
    && HeldTail(held, log.generated, routed)
    && InOrder(toBroker, log.generated, routed)
  }

  ghost predicate Ordered(c: Config, s: System) {
    && InSequence(s.log, s.routed, s.ca.pending, s.toBroker, c.maxGroup)
    && RemembersLatest(s.broker.acquired, s.routed, c.brokerDedup)
  }
}
