/** Every store operation keeps the invariant. */
module StoreProofs {
  import opened Bytes
  import opened Types
  import opened Payload
  import opened SortedMaps
  import opened Replay
  import opened Store

  // ----- buckets -----

  lemma {:induction false} UpsertIs(bucket: seq<Subscription>, x: Subscription)
    requires Sorted(bucket)
    ensures Sorted(Upsert(bucket, x))
    ensures forall e :: e in Upsert(bucket, x) <==> e == x || (e in bucket && !SameSlot(e, x))
    ensures |Upsert(bucket, x)| == |bucket| + if HasSlot(bucket, x) then 0 else 1
  {
    if bucket != [] {
      var first, others := bucket[0], bucket[1..];
      UpsertIs(others, x);
      assert bucket == [first] + others;
      forall e | e in others ensures Before(first, e) && e in bucket {
        var i :| 0 <= i < |others| && others[i] == e;
        assert bucket[i + 1] == e;
      }
      HasSlotSplits(first, others, x);
    }
  }

  lemma HasSlotSplits(first: Subscription, others: seq<Subscription>, x: Subscription)
    ensures HasSlot([first] + others, x) <==> SameSlot(first, x) || HasSlot(others, x)
  {
  }

  lemma {:induction false} WithoutIs(bucket: seq<Subscription>, x: Subscription)
    requires Sorted(bucket)
    ensures Sorted(Without(bucket, x))
    ensures forall e :: e in Without(bucket, x) <==> e in bucket && e != x
    ensures |Without(bucket, x)| == |bucket| - if x in bucket then 1 else 0
  {
    if bucket != [] {
      var first, others := bucket[0], bucket[1..];
      WithoutIs(others, x);
      assert bucket == [first] + others;
      forall e | e in others ensures Before(first, e) {
        var i :| 0 <= i < |others| && others[i] == e;
        assert bucket[i + 1] == e;
      }
    }
  }

  lemma {:induction false} RetainedIs(bucket: seq<Subscription>, s: State, keys: map<AgentId, PublicKeys>)
    requires Sorted(bucket)
    ensures Sorted(Retained(bucket, s, keys)) && |Retained(bucket, s, keys)| <= |bucket|
    ensures forall e :: e in Retained(bucket, s, keys) <==> e in bucket && Unchanged(s, keys, e.subscriber)
  {
    if bucket != [] {
      var first, others := bucket[0], bucket[1..];
      RetainedIs(others, s, keys);
      assert bucket == [first] + others;
      forall e | e in others ensures Before(first, e) {
        var i :| 0 <= i < |others| && others[i] == e;
        assert bucket[i + 1] == e;
      }
    }
  }

  /** A sorted bucket is determined by its entries. */
  lemma {:induction false} SortedUnique(a: seq<Subscription>, b: seq<Subscription>)
    requires Sorted(a) && Sorted(b) && forall e :: e in a <==> e in b
    ensures a == b
  {
    EmptyTogether(a, b);
    if a != [] {
      assert a[0] in b && b[0] in a;
      SameFirst(a, b);
      Tails(a, b);
      SortedUnique(a[1..], b[1..]);
      assert a == [a[0]] + a[1..] && b == [b[0]] + b[1..];
    }
  }

  lemma EmptyTogether(a: seq<Subscription>, b: seq<Subscription>)
    requires forall e :: e in a <==> e in b
    ensures a == [] <==> b == []
  {
    if a != [] {
      assert a[0] in a;
    }
    if b != [] {
      assert b[0] in b;
    }
  }

  lemma SameFirst(a: seq<Subscription>, b: seq<Subscription>)
    requires Sorted(a) && Sorted(b) && a != [] && b != [] && a[0] in b && b[0] in a
    ensures a[0] == b[0]
  {
  }

  lemma Tails(a: seq<Subscription>, b: seq<Subscription>)
    requires Sorted(a) && Sorted(b) && a != [] && b != [] && a[0] == b[0] && forall e :: e in a <==> e in b
    ensures Sorted(a[1..]) && Sorted(b[1..]) && forall e :: e in a[1..] <==> e in b[1..]
  {
    forall e ensures e in a[1..] <==> e in b[1..] {
      assert e in a[1..] <==> e in a && e != a[0];
      assert e in b[1..] <==> e in b && e != b[0];
    }
  }

  // ----- counting -----

  lemma {:induction false} CountSplits(types: set<TypeId>, subscriptions: Buckets, t: TypeId)
    requires t in types
    ensures CountIn(types, subscriptions) == |BucketOf(subscriptions, t)| + CountIn(types - {t}, subscriptions)
    decreases types
  {
    var u :| u in types
      && CountIn(types, subscriptions) == |BucketOf(subscriptions, u)| + CountIn(types - {u}, subscriptions);
    if u != t {
      CountSplits(types - {u}, subscriptions, t);
      CountSplits(types - {t}, subscriptions, u);
      assert types - {u} - {t} == types - {t} - {u};
    }
  }

  lemma {:induction false} CountAtMost(types: set<TypeId>, a: Buckets, b: Buckets)
    requires forall t :: t in types ==> |BucketOf(a, t)| <= |BucketOf(b, t)|
    ensures CountIn(types, a) <= CountIn(types, b)
    ensures (forall t :: t in types ==> |BucketOf(a, t)| == |BucketOf(b, t)|) ==> CountIn(types, a) == CountIn(types, b)
    decreases types
  {
    if types != {} {
      var t :| t in types;
      CountSplits(types, a, t);
      CountSplits(types, b, t);
      CountAtMost(types - {t}, a, b);
    }
  }

  /** Types without a bucket do not count. */
  lemma {:induction false} CountMore(types: set<TypeId>, more: set<TypeId>, subscriptions: Buckets)
    requires types <= more && forall t :: t in more - types ==> BucketOf(subscriptions, t) == []
    ensures CountIn(types, subscriptions) == CountIn(more, subscriptions)
    decreases more
  {
    if t :| t in more - types {
      CountSplits(more, subscriptions, t);
      CountMore(types, more - {t}, subscriptions);
    } else {
      forall t | t in more ensures t in types {
        assert t in more - types || t in types;
      }
      assert types == more;
    }
  }

  lemma CountUpdated(subscriptions: Buckets, t: TypeId, bucket: seq<Subscription>)
    ensures Count(subscriptions[t := bucket]) == Count(subscriptions) - |BucketOf(subscriptions, t)| + |bucket|
  {
    var after := subscriptions[t := bucket];
    var all := subscriptions.Keys + {t};
    CountMore(subscriptions.Keys, all, subscriptions);
    assert after.Keys == all;
    CountSplits(all, subscriptions, t);
    CountSplits(all, after, t);
    CountAtMost(all - {t}, after, subscriptions);
  }

  lemma BucketWithinCount(subscriptions: Buckets, t: TypeId)
    ensures |BucketOf(subscriptions, t)| <= Count(subscriptions)
  {
    if t in subscriptions {
      CountSplits(subscriptions.Keys, subscriptions, t);
    }
  }

  // ----- the operations keep the invariant -----

  lemma GrowsByAtMostOne<K, V>(m: map<K, V>, k: K, v: V)
    ensures |m[k := v]| == |m| + if k in m then 0 else 1
  {
  }

  lemma BucketEntries(s: State, limits: Limits, t: TypeId)
    requires Valid(s, limits)
    ensures Sorted(BucketOf(s.subscriptions, t)) && |BucketOf(s.subscriptions, t)| <= limits.subscriptions
    ensures forall x :: x in BucketOf(s.subscriptions, t) ==> GoodEntry(t, x)
  {
    hide Stored;
    BucketWithinCount(s.subscriptions, t);
  }

  /** There is a subscription of the same subscriber, type and handler. */
  ghost predicate IsTaken(s: State, x: Subscription) {
    exists y :: Claimable(s, y) && y.typeId == x.typeId && SameSlot(y, x)
  }

  lemma Taken(s: State, limits: Limits, x: Subscription)
    requires Valid(s, limits)
    ensures IsTaken(s, x) <==> HasSlot(BucketOf(s.subscriptions, x.typeId), x)
  {
    hide Stored;
    BucketEntries(s, limits, x.typeId);
    var bucket := BucketOf(s.subscriptions, x.typeId);
    if HasSlot(bucket, x) {
      var y :| y in bucket && SameSlot(y, x);
      assert Claimable(s, y) && y.typeId == x.typeId;
    }
  }

  /** The entries of the updated bucket are those of its type. */
  lemma PutIs(s: State, limits: Limits, x: Subscription)
    requires Valid(s, limits)
    ensures var bucket := Upsert(BucketOf(s.subscriptions, x.typeId), x);
      var after := s.(subscriptions := s.subscriptions[x.typeId := bucket]);
      forall y :: Claimable(after, y) <==> y == x || (Claimable(s, y) && !(y.typeId == x.typeId && SameSlot(y, x)))
  {
    hide Stored, Count;
    BucketEntries(s, limits, x.typeId);
    UpsertIs(BucketOf(s.subscriptions, x.typeId), x);
  }

  lemma ProvisionKeeps(s: State, limits: Limits, agent: AgentId, keys: PublicKeys)
    requires Valid(s, limits) && FullKeys(keys) && Provision(s, limits, agent, keys).Ok?
    ensures var next := Provision(s, limits, agent, keys).value;
      Valid(next, limits) && (Provisioned(s) ==> Provisioned(next))
  {
    GrowsByAtMostOne(s.keys, agent, keys);
    assert forall a :: Known(s, a) ==> Known(Provision(s, limits, agent, keys).value, a);
  }

  lemma PutEnvironmentKeeps(s: State, limits: Limits, agent: AgentId, encoded: seq<byte>)
    requires Valid(s, limits) && PutEnvironment(s, limits, agent, encoded).Ok?
    ensures var next := PutEnvironment(s, limits, agent, encoded).value;
      Valid(next, limits) && (Provisioned(s) && Known(s, agent) ==> Provisioned(next))
  {
    hide ParseOperation;
    GrowsByAtMostOne(s.environments, agent, encoded);
    assert forall a :: Known(s, a) ==> Known(PutEnvironment(s, limits, agent, encoded).value, a);
  }

  lemma BucketReplaced(s: State, limits: Limits, t: TypeId, bucket: seq<Subscription>)
    requires Valid(s, limits) && GoodBucket(t, bucket)
    requires Count(s.subscriptions) - |BucketOf(s.subscriptions, t)| + |bucket| <= limits.subscriptions
    ensures Valid(s.(subscriptions := s.subscriptions[t := bucket]), limits)
  {
    hide GoodBucket;
    CountUpdated(s.subscriptions, t, bucket);
  }

  lemma BucketReplacedKnown(s: State, t: TypeId, bucket: seq<Subscription>)
    requires Provisioned(s) && forall x :: x in bucket ==> Known(s, x.subscriber)
    ensures Provisioned(s.(subscriptions := s.subscriptions[t := bucket]))
  {
  }

  lemma PutSubscriptionKeeps(s: State, limits: Limits, x: Subscription)
    requires Valid(s, limits) && x.handler != NO_HANDLER && PutSubscription(s, limits, x).Ok?
    ensures Valid(PutSubscription(s, limits, x).value, limits)
    ensures Provisioned(s) && Known(s, x.subscriber) ==> Provisioned(PutSubscription(s, limits, x).value)
  {
    hide Stored;
    var bucket := BucketOf(s.subscriptions, x.typeId);
    assert GoodBucket(x.typeId, bucket);
    UpsertIs(bucket, x);
    BucketReplaced(s, limits, x.typeId, Upsert(bucket, x));
    if Provisioned(s) && Known(s, x.subscriber) {
      BucketReplacedKnown(s, x.typeId, Upsert(bucket, x));
    }
  }

  lemma ClaimedKeeps(s: State, limits: Limits, x: Subscription)
    requires Valid(s, limits)
    ensures Valid(Claimed(s, x), limits) && (Provisioned(s) ==> Provisioned(Claimed(s, x)))
  {
    hide Stored;
    if Claimable(s, x) && x.kind == OneShot {
      var bucket := s.subscriptions[x.typeId];
      assert GoodBucket(x.typeId, bucket);
      WithoutIs(bucket, x);
      BucketReplaced(s, limits, x.typeId, Without(bucket, x));
      if Provisioned(s) {
        BucketReplacedKnown(s, x.typeId, Without(bucket, x));
      }
    }
  }

  lemma {:induction false} SubsetIsSmaller<T>(a: set<T>, b: set<T>)
    requires a <= b
    ensures |a| <= |b|
  {
    if a != {} {
      var x :| x in a;
      SubsetIsSmaller(a - {x}, b - {x});
    }
  }

  lemma MarkSessionKeeps(s: State, limits: Limits, key: Key, now: u64)
    requires Valid(s, limits) && MarkSession(s, limits, key, now).Ok?
    ensures var next := MarkSession(s, limits, key, now).value;
      Valid(next, limits) && (Provisioned(s) && Known(s, key.sender) ==> Provisioned(next))
  {
  }

  /** The directory becomes the configured one, and of the state exactly that of the agents is kept
      whose keys stay as they are; so afterwards everything belongs to an agent of the directory. */
  lemma ReconcileIsExact(s: State, limits: Limits, configured: seq<Entry<AgentId, PublicKeys>>)
    requires Valid(s, limits) && Reconcile(s, limits, configured).Ok?
    requires forall e :: e in configured ==> FullKeys(e.value)
    ensures var next := Reconcile(s, limits, configured).value;
      && Lists(configured, next.keys) && Provisioned(next) && Valid(next, limits)
    ensures forall a :: var next := Reconcile(s, limits, configured).value;
      if Unchanged(s, next.keys, a) then SameOf(s, next, a) else NothingOf(next, a)
  {
    hide Stored, IsEnvironment;
    var keys := MapOf(configured);
    ConfiguredMap(configured);
    RestrictedKeeps(s, limits, keys);
  }

  ghost predicate NothingOf(s: State, agent: AgentId) {
    && agent !in s.environments
    && (forall x: Subscription :: x.subscriber == agent ==> !Claimable(s, x))
    && (forall k: Key :: k.sender == agent ==> k !in s.replay)
  }

  /** The two states hold the same about the agent. */
  ghost predicate SameOf(s: State, next: State, agent: AgentId) {
    && (agent in s.environments <==> agent in next.environments)
    && (agent in s.environments ==> s.environments[agent] == next.environments[agent])
    && (forall x: Subscription :: x.subscriber == agent ==> (Claimable(s, x) <==> Claimable(next, x)))
    && (forall k: Key :: k.sender == agent ==> (k in s.replay <==> k in next.replay))
    && (forall k: Key :: k.sender == agent && k in s.replay && k in next.replay ==> s.replay[k] == next.replay[k])
  }

  lemma {:induction false} ConfiguredMap(configured: seq<Entry<AgentId, PublicKeys>>)
    requires DistinctKeys(configured)
    ensures Lists(configured, MapOf(configured)) && |MapOf(configured)| == |configured|
  {
    if configured != [] {
      var n := |configured| - 1;
      ConfiguredMap(configured[..n]);
      LastIsNew(configured, MapOf(configured[..n]));
      GrowsByAtMostOne(MapOf(configured[..n]), configured[n].key, configured[n].value);
    }
  }

  lemma LastIsNew(entries: seq<Entry<AgentId, PublicKeys>>, m: map<AgentId, PublicKeys>)
    requires DistinctKeys(entries) && entries != [] && Lists(entries[..|entries| - 1], m)
    ensures var last := entries[|entries| - 1]; last.key !in m && Lists(entries, m[last.key := last.value])
  {
  }

  lemma RestrictedKeeps(s: State, limits: Limits, keys: map<AgentId, PublicKeys>)
    requires Valid(s, limits) && GoodKeys(keys, limits)
    ensures Valid(Restricted(s, keys), limits) && Provisioned(Restricted(s, keys))
    ensures forall a ::
      if Unchanged(s, keys, a) then SameOf(s, Restricted(s, keys), a) else NothingOf(Restricted(s, keys), a)
  {
    hide GoodEnvironments, GoodBuckets, Provisioned, SameOf, NothingOf, Restricted;
    RestrictedBuckets(s, keys);
    RestrictedSizes(s, limits, keys);
    RestrictedCount(s, keys);
    RestrictedIsKnown(s, keys);
    forall a
      ensures if Unchanged(s, keys, a) then SameOf(s, Restricted(s, keys), a) else NothingOf(Restricted(s, keys), a)
    {
      RestrictedIsSame(s, keys, a);
    }
  }

  lemma RestrictedBuckets(s: State, keys: map<AgentId, PublicKeys>)
    requires GoodBuckets(s.subscriptions)
    ensures GoodBuckets(Restricted(s, keys).subscriptions)
    ensures forall t :: t in s.subscriptions ==> |Retained(s.subscriptions[t], s, keys)| <= |s.subscriptions[t]|
    ensures forall t, e :: t in s.subscriptions && e in Retained(s.subscriptions[t], s, keys) <==>
      t in s.subscriptions && e in s.subscriptions[t] && Unchanged(s, keys, e.subscriber)
  {
    hide Stored;
    forall t | t in s.subscriptions
      ensures GoodBucket(t, Retained(s.subscriptions[t], s, keys))
      ensures |Retained(s.subscriptions[t], s, keys)| <= |s.subscriptions[t]|
      ensures forall e :: e in Retained(s.subscriptions[t], s, keys) <==>
        e in s.subscriptions[t] && Unchanged(s, keys, e.subscriber)
    {
      RetainedIs(s.subscriptions[t], s, keys);
    }
  }

  lemma RestrictedSizes(s: State, limits: Limits, keys: map<AgentId, PublicKeys>)
    requires GoodEnvironments(s.environments, limits) && |s.replay| <= limits.replays
    ensures var next := Restricted(s, keys);
      next.keys == keys && GoodEnvironments(next.environments, limits) && |next.replay| <= limits.replays
  {
    hide IsEnvironment;
    var next := Restricted(s, keys);
    SubsetIsSmaller(next.environments.Keys, s.environments.Keys);
    SubsetIsSmaller(next.replay.Keys, s.replay.Keys);
  }

  lemma RestrictedCount(s: State, keys: map<AgentId, PublicKeys>)
    requires forall t :: t in s.subscriptions ==> |Retained(s.subscriptions[t], s, keys)| <= |s.subscriptions[t]|
    ensures Count(Restricted(s, keys).subscriptions) <= Count(s.subscriptions)
  {
    var after := Restricted(s, keys).subscriptions;
    CountMore(after.Keys, s.subscriptions.Keys, after);
    CountAtMost(s.subscriptions.Keys, after, s.subscriptions);
  }

  lemma RestrictedIsKnown(s: State, keys: map<AgentId, PublicKeys>)
    requires CA !in keys && GoodBuckets(s.subscriptions)
    ensures Provisioned(Restricted(s, keys))
  {
    RestrictedBuckets(s, keys);
    assert forall a :: Unchanged(s, keys, a) ==> Known(Restricted(s, keys), a);
  }

  lemma RestrictedIsSame(s: State, keys: map<AgentId, PublicKeys>, agent: AgentId)
    requires GoodBuckets(s.subscriptions)
    ensures if Unchanged(s, keys, agent) then SameOf(s, Restricted(s, keys), agent)
      else NothingOf(Restricted(s, keys), agent)
  {
    hide GoodBuckets;
    RestrictedBuckets(s, keys);
    forall x: Subscription | x.subscriber == agent
      ensures Claimable(Restricted(s, keys), x) <==> Claimable(s, x) && Unchanged(s, keys, agent)
    {
    }
  }
}
