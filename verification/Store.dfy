/** The durable state of the CA: the effect of each store operation, and the invariant they keep. */
module Store {
  import opened Bytes
  import opened Types
  import opened Payload
  import opened SortedMaps
  import opened Replay

  datatype PublicKeys = PublicKeys(ed25519: seq<byte>, x25519: seq<byte>)

  datatype Kind = OneShot | Permanent

  datatype Subscription = Subscription(subscriber: AgentId, typeId: TypeId, handler: HandlerId, kind: Kind,
                                       encoded: seq<byte>)

  datatype Limits = Limits(agents: usize, environments: usize, subscriptions: usize, replays: usize, ttl: u64)

  type Buckets = map<TypeId, seq<Subscription>>

  datatype State = State(
    keys: map<AgentId, PublicKeys>,
    environments: map<AgentId, seq<byte>>,
    subscriptions: Buckets,
    replay: Entries)

  const EMPTY: State := State(map[], map[], map[], map[])
  const DEFAULT_LIMITS: Limits := Limits(1024, 1024, 4096, 16384, 600)

  // ----- buckets -----

  predicate SameSlot(a: Subscription, b: Subscription) { a.subscriber == b.subscriber && a.handler == b.handler }

  predicate Before(a: Subscription, b: Subscription) {
    a.subscriber < b.subscriber || (a.subscriber == b.subscriber && a.handler < b.handler)
  }

  predicate Sorted(bucket: seq<Subscription>) {
    forall i, j :: 0 <= i < j < |bucket| ==> Before(bucket[i], bucket[j])
  }

  /** Replaces the entry of the same slot, or inserts in order. */
  function Upsert(bucket: seq<Subscription>, x: Subscription): seq<Subscription> {
    if bucket == [] then [x]
    else if SameSlot(bucket[0], x) then [x] + bucket[1..]
    else if Before(x, bucket[0]) then [x] + bucket
    else [bucket[0]] + Upsert(bucket[1..], x)
  }

  predicate HasSlot(bucket: seq<Subscription>, x: Subscription) {
    exists e :: e in bucket && SameSlot(e, x)
  }

  /** Removes the first equal entry. */
  function Without(bucket: seq<Subscription>, x: Subscription): seq<Subscription> {
    if bucket == [] then []
    else if bucket[0] == x then bucket[1..]
    else [bucket[0]] + Without(bucket[1..], x)
  }

  function BucketOf(subscriptions: Buckets, typeId: TypeId): seq<Subscription> {
    if typeId in subscriptions then subscriptions[typeId] else []
  }

  /** The number of subscriptions in the buckets of the given types. */
  ghost function CountIn(types: set<TypeId>, subscriptions: Buckets): nat {
    if types == {} then 0
    else
      var t :| t in types;
      |BucketOf(subscriptions, t)| + CountIn(types - {t}, subscriptions)
  }

  ghost function Count(subscriptions: Buckets): nat { CountIn(subscriptions.Keys, subscriptions) }

  // ----- operations -----

  type Update = Result<State, Error>

  predicate IsEnvironment(encoded: seq<byte>) {
    ParseOperation(encoded).Ok? && ParseOperation(encoded).value.SetEnvironment?
  }

  /** The kind and the type that an encoded subscription has. */
  function KindOf(encoded: seq<byte>): Option<(Kind, TypeId)> {
    match ParseOperation(encoded)
    case Ok(Subscribe(typeId, _)) => Some((OneShot, typeId))
    case Ok(SubscribePermanent(typeId, _)) => Some((Permanent, typeId))
    case _ => None
  }

  predicate Stored(x: Subscription) { KindOf(x.encoded) == Some((x.kind, x.typeId)) }

  function Provision(s: State, limits: Limits, agent: AgentId, keys: PublicKeys): Update {
    if agent == CA then Err(Malformed)
    else if agent !in s.keys && |s.keys| >= limits.agents then Err(Capacity)
    else Ok(s.(keys := s.keys[agent := keys]))
  }

  function PutEnvironment(s: State, limits: Limits, agent: AgentId, encoded: seq<byte>): Update {
    if !IsEnvironment(encoded) then Err(Malformed)
    else if agent !in s.environments && |s.environments| >= limits.environments then Err(Capacity)
    else Ok(s.(environments := s.environments[agent := encoded]))
  }

  ghost function PutSubscription(s: State, limits: Limits, x: Subscription): Update {
    var bucket := BucketOf(s.subscriptions, x.typeId);
    if !Stored(x) then Err(Malformed)
    else if !HasSlot(bucket, x) && Count(s.subscriptions) >= limits.subscriptions then Err(Capacity)
    else Ok(s.(subscriptions := s.subscriptions[x.typeId := Upsert(bucket, x)]))
  }

  predicate Claimable(s: State, x: Subscription) { x in BucketOf(s.subscriptions, x.typeId) }

  /** The state after a claim: a claimed one-shot is gone. */
  function Claimed(s: State, x: Subscription): State {
    if Claimable(s, x) && x.kind == OneShot
    then s.(subscriptions := s.subscriptions[x.typeId := Without(s.subscriptions[x.typeId], x)])
    else s
  }

  function MarkSession(s: State, limits: Limits, key: Key, now: u64): Update {
    var marked := Mark(s.replay, key, now, limits.replays, limits.ttl);
    if marked.result.Ok? then Ok(s.(replay := marked.entries)) else Err(marked.result.error)
  }

  /** The agent had these keys before and keeps them. */
  predicate Unchanged(s: State, keys: map<AgentId, PublicKeys>, agent: AgentId) {
    agent in s.keys && agent in keys && s.keys[agent] == keys[agent]
  }

  function Retained(bucket: seq<Subscription>, s: State, keys: map<AgentId, PublicKeys>): seq<Subscription> {
    if bucket == [] then []
    else (if Unchanged(s, keys, bucket[0].subscriber) then [bucket[0]] else []) + Retained(bucket[1..], s, keys)
  }

  /** What is left of the state when the directory becomes `keys`. */
  function Restricted(s: State, keys: map<AgentId, PublicKeys>): State {
    State(
      keys,
      map a | a in s.environments && Unchanged(s, keys, a) :: s.environments[a],
      map t | t in s.subscriptions && Retained(s.subscriptions[t], s, keys) != [] ::
        Retained(s.subscriptions[t], s, keys),
      map k | k in s.replay && Unchanged(s, keys, k.sender) :: s.replay[k])
  }

  predicate Configurable(configured: seq<Entry<AgentId, PublicKeys>>) {
    DistinctKeys(configured) && forall e :: e in configured ==> e.key != CA
  }

  function Reconcile(s: State, limits: Limits, configured: seq<Entry<AgentId, PublicKeys>>): Update {
    if |configured| > limits.agents then Err(Capacity)
    else if !Configurable(configured) then Err(Malformed)
    else Ok(Restricted(s, MapOf(configured)))
  }

  // ----- the invariant -----

  predicate FullKeys(k: PublicKeys) { |k.ed25519| == 32 && |k.x25519| == 32 }

  ghost predicate GoodKeys(keys: map<AgentId, PublicKeys>, limits: Limits) {
    |keys| <= limits.agents && CA !in keys && forall a :: a in keys ==> FullKeys(keys[a])
  }

  ghost predicate GoodEnvironments(environments: map<AgentId, seq<byte>>, limits: Limits) {
    |environments| <= limits.environments && forall a :: a in environments ==> IsEnvironment(environments[a])
  }

  predicate GoodEntry(typeId: TypeId, x: Subscription) { x.typeId == typeId && x.handler != NO_HANDLER && Stored(x) }

  predicate GoodBucket(typeId: TypeId, bucket: seq<Subscription>) {
    Sorted(bucket) && forall x :: x in bucket ==> GoodEntry(typeId, x)
  }

  ghost predicate GoodBuckets(subscriptions: Buckets) {
    forall t :: t in subscriptions ==> GoodBucket(t, subscriptions[t])
  }

  ghost predicate Valid(s: State, limits: Limits) {
    && GoodKeys(s.keys, limits) && GoodEnvironments(s.environments, limits)
    && GoodBuckets(s.subscriptions) && Count(s.subscriptions) <= limits.subscriptions
    && |s.replay| <= limits.replays
  }

  predicate Known(s: State, agent: AgentId) { agent in s.keys && agent != CA }

  /** Everything stored belongs to an agent of the directory. */
  ghost predicate Provisioned(s: State) {
    && (forall a :: a in s.environments ==> Known(s, a))
    && (forall t, x :: t in s.subscriptions && x in s.subscriptions[t] ==> Known(s, x.subscriber))
    && (forall k :: k in s.replay ==> Known(s, k.sender))
  }
}
