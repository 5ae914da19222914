/** Every valid state reloads from its snapshot, and snapshots stay within the limit. */
module SnapshotTheorems {
  import opened Bytes
  import opened Types
  import opened Parsing
  import opened SortedMaps
  import opened Store
  import opened StoreProofs
  import opened Snapshot

  function NonEmpty(subscriptions: Buckets): Buckets {
    map t | t in subscriptions && subscriptions[t] != [] :: subscriptions[t]
  }

  /** The state without the buckets that claims have emptied. */
  function WithoutEmpty(s: State): State { s.(subscriptions := NonEmpty(s.subscriptions)) }

  // ----- buckets are regrouped -----

  function OfType(items: seq<Subscription>, t: TypeId): seq<Subscription> {
    if items == [] then []
    else OfType(items[..|items| - 1], t) + if items[|items| - 1].typeId == t then [items[|items| - 1]] else []
  }

  lemma {:induction false} GroupedIs(items: seq<Subscription>, t: TypeId)
    ensures BucketOf(Grouped(items), t) == OfType(items, t)
    ensures t in Grouped(items) <==> OfType(items, t) != []
  {
    if items != [] {
      GroupedIs(items[..|items| - 1], t);
    }
  }

  lemma {:induction false} OfTypeAppends(a: seq<Subscription>, b: seq<Subscription>, t: TypeId)
    ensures OfType(a + b, t) == OfType(a, t) + OfType(b, t)
  {
    if b == [] {
      assert a + b == a;
    } else {
      var n := |b| - 1;
      OfTypeAppends(a, b[..n], t);
      assert (a + b)[..|a + b| - 1] == a + b[..n];
    }
  }

  lemma {:induction false} OfTypeOfBucket(bucket: seq<Subscription>, u: TypeId, t: TypeId)
    requires forall x :: x in bucket ==> x.typeId == u
    ensures OfType(bucket, t) == if t == u then bucket else []
  {
    if bucket != [] {
      var n := |bucket| - 1;
      OfTypeOfBucket(bucket[..n], u, t);
      assert bucket[n] in bucket && bucket == bucket[..n] + [bucket[n]];
    }
  }

  lemma {:induction false} FlattenedOfType(subscriptions: Buckets, t: TypeId)
    requires forall u, x :: u in subscriptions && x in subscriptions[u] ==> x.typeId == u
    ensures OfType(Flattened(subscriptions), t) == BucketOf(subscriptions, t)
    decreases |subscriptions|
  {
    if subscriptions != map[] {
      var u := Least(subscriptions.Keys, TypeRank);
      Fewer(subscriptions, u);
      FlattenedOfType(subscriptions - {u}, t);
      OfTypeOfBucket(subscriptions[u], u, t);
      OfTypeAppends(subscriptions[u], Flattened(subscriptions - {u}), t);
    }
  }

  lemma SameBuckets(a: Buckets, s: State)
    requires forall t :: BucketOf(a, t) == BucketOf(s.subscriptions, t) && (t in a <==> BucketOf(a, t) != [])
    ensures a == WithoutEmpty(s).subscriptions
  {
  }

  lemma FlattenedRegroups(s: State)
    requires GoodBuckets(s.subscriptions)
    ensures Grouped(Flattened(s.subscriptions)) == WithoutEmpty(s).subscriptions
  {
    hide WithoutEmpty, Grouped, Flattened;
    BucketTypes(s.subscriptions);
    var items := Flattened(s.subscriptions);
    forall t
      ensures BucketOf(Grouped(items), t) == BucketOf(s.subscriptions, t)
      ensures (t in Grouped(items) <==> BucketOf(Grouped(items), t) != [])
    {
      GroupedIs(items, t);
      FlattenedOfType(s.subscriptions, t);
    }
    SameBuckets(Grouped(items), s);
  }

  lemma BucketTypes(subscriptions: Buckets)
    requires GoodBuckets(subscriptions)
    ensures forall u, x :: u in subscriptions && x in subscriptions[u] ==> x.typeId == u
  {
  }

  lemma {:induction false} FlattenedCount(subscriptions: Buckets)
    ensures |Flattened(subscriptions)| == Count(subscriptions)
    decreases |subscriptions|
  {
    if subscriptions == map[] {
    } else {
      var t := Least(subscriptions.Keys, TypeRank);
      var others := subscriptions - {t};
      Fewer(subscriptions, t);
      FlattenedCount(others);
      CountSplits(subscriptions.Keys, subscriptions, t);
      CountAtMost(others.Keys, others, subscriptions);
      assert others.Keys == subscriptions.Keys - {t};
    }
  }

  lemma {:induction false} FlattenedHolds(subscriptions: Buckets, x: Subscription)
    ensures x in Flattened(subscriptions) <==> exists t :: t in subscriptions && x in subscriptions[t]
    decreases |subscriptions|
  {
    if subscriptions == map[] {
    } else {
      var t := Least(subscriptions.Keys, TypeRank);
      var others := subscriptions - {t};
      Fewer(subscriptions, t);
      FlattenedHolds(others, x);
      assert forall u :: u in others ==> others[u] == subscriptions[u];
    }
  }

  lemma FlattenedIs(subscriptions: Buckets)
    requires GoodBuckets(subscriptions)
    ensures |Flattened(subscriptions)| == Count(subscriptions)
    ensures forall x :: x in Flattened(subscriptions) ==> GoodEntry(x.typeId, x)
  {
    hide Flattened, Stored;
    FlattenedCount(subscriptions);
    forall x | x in Flattened(subscriptions) ensures GoodEntry(x.typeId, x) {
      FlattenedHolds(subscriptions, x);
      var t :| t in subscriptions && x in subscriptions[t];
      assert GoodBucket(t, subscriptions[t]);
    }
  }

  // ----- the round trip -----

  lemma ListingIsGood<K(!new), V(!new)>(m: map<K, V>, rank: K -> nat, good: (Entry<K, V>, seq<Entry<K, V>>) -> bool)
    requires Injective(rank)
    requires forall k, d :: k in m && k !in KeysOf(d) ==> good(Entry(k, m[k]), d)
    ensures AllGood(good, Listing(m, rank), []) && |Listing(m, rank)| == |m| && MapOf(Listing(m, rank)) == m
  {
    ListingIs(m, rank);
    ListingRebuilds(m, rank);
    assert [] + Listing(m, rank) == Listing(m, rank);
    forall e, d | e in Listing(m, rank) && e.key !in KeysOf(d) ensures good(e, d) {
      assert e == Entry(e.key, m[e.key]);
    }
    EntriesAreGood(good, Listing(m, rank), []);
  }

  lemma KeysAreGood(s: State, limits: Limits)
    requires GoodKeys(s.keys, limits)
    ensures var listing := Listing(s.keys, AgentRank);
      AllGood(GoodAgent, listing, []) && |listing| == |s.keys| && MapOf(listing) == s.keys
  {
    RanksAreInjective();
    forall k, d | k in s.keys && k !in KeysOf(d) ensures GoodAgent(Entry(k, s.keys[k]), d) {
    }
    ListingIsGood(s.keys, AgentRank, GoodAgent);
  }

  lemma EnvironmentsAreGood(s: State, limits: Limits)
    requires GoodEnvironments(s.environments, limits)
    ensures var listing := Listing(s.environments, AgentRank);
      AllGood(GoodEnvironmentOf, listing, []) && |listing| == |s.environments| && MapOf(listing) == s.environments
  {
    hide IsEnvironment;
    RanksAreInjective();
    forall k, d | k in s.environments && k !in KeysOf(d) ensures GoodEnvironmentOf(Entry(k, s.environments[k]), d) {
    }
    ListingIsGood(s.environments, AgentRank, GoodEnvironmentOf);
  }

  lemma MarksAreGood(s: State)
    ensures var listing := Listing(s.replay, KeyRank);
      AllGood(GoodMark, listing, []) && |listing| == |s.replay| && MapOf(listing) == s.replay
  {
    RanksAreInjective();
    forall k, d | k in s.replay && k !in KeysOf(d) ensures GoodMark(Entry(k, s.replay[k]), d) {
    }
    ListingIsGood(s.replay, KeyRank, GoodMark);
  }

  /** The snapshot of a valid state is read to its end, and gives the state back without its empty
      buckets. */
  lemma SnapshotReloads(s: State, limits: Limits)
    requires Valid(s, limits) && Countable(s)
    ensures Decode(Encode(s), limits) == Ok(WithoutEmpty(s))
  {
    hide Listing, Flattened, MapOf, Grouped, ParseCounted, PutCounted, Stored, IsEnvironment,
      ParseAgent, ParseEnvironmentOf, ParseStored, ParseMark, PutAgent, PutEnvironmentOf, PutStored, PutMark,
      ReadsBack, AllGood;
    var marks := PutCounted(PutMark, Listing(s.replay, KeyRank), []);
    var items := PutCounted(PutStored, Flattened(s.subscriptions), marks);
    var environments := PutCounted(PutEnvironmentOf, Listing(s.environments, AgentRank), items);
    var agents := PutCounted(PutAgent, Listing(s.keys, AgentRank), environments);
    CodecsReadBack();
    KeysAreGood(s, limits);
    EnvironmentsAreGood(s, limits);
    FlattenedIs(s.subscriptions);
    StoredAreGood(Flattened(s.subscriptions), []);
    MarksAreGood(s);
    FlattenedRegroups(s);
    TakeRoundTrip(STATE_MAGIC, agents);
    CountedReadsBack(PutAgent, ParseAgent, GoodAgent, Listing(s.keys, AgentRank), limits.agents, environments);
    CountedReadsBack(PutEnvironmentOf, ParseEnvironmentOf, GoodEnvironmentOf, Listing(s.environments, AgentRank),
      limits.environments, items);
    CountedReadsBack(PutStored, ParseStored, GoodStored, Flattened(s.subscriptions), limits.subscriptions, marks);
    CountedReadsBack(PutMark, ParseMark, GoodMark, Listing(s.replay, KeyRank), limits.replays, []);
  }

  // ----- the empty handler -----

  /** A section of stored subscriptions is read exactly if all of them name their handler. */
  lemma {:induction false} SectionIsRead(items: seq<Subscription>, done: seq<Subscription>, rest: seq<byte>)
    requires forall x :: x in items ==> Stored(x)
    ensures ParseMany(ParseStored, PutMany(PutStored, items, rest), |items|, done)
         == if forall x :: x in items ==>
           x.handler != NO_HANDLER then Ok(Parsed(done + items, rest)) else Err(Malformed)
    decreases |items|
  {
    hide ParseStored, PutStored, Stored;
    if items == [] {
      assert done + items == done;
    } else {
      Uncons(items);
      Regroup(done, items[0], items[1..]);
      StoredIsRead(items[0], done, PutMany(PutStored, items[1..], rest));
      SectionIsRead(items[1..], done + [items[0]], rest);
    }
  }

  lemma NamelessSection(all: seq<Subscription>, maximum: nat, marks: seq<byte>)
    requires |all| < 0x1_0000_0000 && |all| <= maximum && forall x :: x in all ==> Stored(x)
    requires exists x :: x in all && x.handler == NO_HANDLER
    ensures ParseCounted(ParseStored, PutCounted(PutStored, all, marks), maximum) == Err(Malformed)
  {
    hide Stored, ParseMany, PutMany, ParseStored, PutStored;
    Widths();
    NumberRoundTrip(|all|, 4, PutMany(PutStored, all, marks));
    SectionIsRead(all, [], marks);
  }

  /** The snapshot with an entry that names no handler is not read, whatever else it holds. */
  lemma NamelessIsMalformed(s: State, limits: Limits, x: Subscription)
    requires GoodKeys(s.keys, limits) && GoodEnvironments(s.environments, limits) && Countable(s)
    requires forall y :: y in Flattened(s.subscriptions) ==> Stored(y)
    requires Count(s.subscriptions) <= limits.subscriptions
    requires x in Flattened(s.subscriptions) && x.handler == NO_HANDLER
    ensures Decode(Encode(s), limits) == Err(Malformed)
  {
    hide Listing, Flattened, MapOf, Grouped, Stored, IsEnvironment, ParseCounted, PutCounted,
      ParseAgent, ParseEnvironmentOf, ParseStored, ParseMark, PutAgent, PutEnvironmentOf, PutStored, PutMark,
      ReadsBack, AllGood;
    var marks := PutCounted(PutMark, Listing(s.replay, KeyRank), []);
    var all := Flattened(s.subscriptions);
    var items := PutCounted(PutStored, all, marks);
    var environments := PutCounted(PutEnvironmentOf, Listing(s.environments, AgentRank), items);
    var agents := PutCounted(PutAgent, Listing(s.keys, AgentRank), environments);
    CodecsReadBack();
    KeysAreGood(s, limits);
    EnvironmentsAreGood(s, limits);
    FlattenedCount(s.subscriptions);
    TakeRoundTrip(STATE_MAGIC, agents);
    CountedReadsBack(PutAgent, ParseAgent, GoodAgent, Listing(s.keys, AgentRank), limits.agents, environments);
    CountedReadsBack(PutEnvironmentOf, ParseEnvironmentOf, GoodEnvironmentOf, Listing(s.environments, AgentRank),
      limits.environments, items);
    NamelessSection(all, limits.subscriptions, marks);
  }

  /** What the store accepts and commits can be read again exactly if it names a handler. */
  lemma CommittedIsReadable(s: State, limits: Limits, x: Subscription)
    requires Valid(s, limits) && PutSubscription(s, limits, x).Ok?
    requires Countable(PutSubscription(s, limits, x).value)
    ensures var next := PutSubscription(s, limits, x).value;
      Decode(Encode(next), limits) == if x.handler != NO_HANDLER then Ok(WithoutEmpty(next)) else Err(Malformed)
  {
    hide Decode, Encode, Stored, WithoutEmpty;
    var next := PutSubscription(s, limits, x).value;
    if x.handler != NO_HANDLER {
      PutSubscriptionKeeps(s, limits, x);
      SnapshotReloads(next, limits);
    } else {
      PutCount(s, limits, x);
      PutMembers(s, limits, x);
      NamelessIsMalformed(next, limits, x);
    }
  }

  lemma PutCount(s: State, limits: Limits, x: Subscription)
    requires Valid(s, limits) && PutSubscription(s, limits, x).Ok?
    ensures Count(PutSubscription(s, limits, x).value.subscriptions) <= limits.subscriptions
  {
    hide Stored;
    var bucket := BucketOf(s.subscriptions, x.typeId);
    assert GoodBucket(x.typeId, bucket);
    UpsertIs(bucket, x);
    CountUpdated(s.subscriptions, x.typeId, Upsert(bucket, x));
  }

  lemma PutMembers(s: State, limits: Limits, x: Subscription)
    requires Valid(s, limits) && PutSubscription(s, limits, x).Ok?
    ensures var all := Flattened(PutSubscription(s, limits, x).value.subscriptions);
      x in all && forall y :: y in all ==> Stored(y)
  {
    hide Stored, Flattened, Count;
    var bucket := BucketOf(s.subscriptions, x.typeId);
    assert GoodBucket(x.typeId, bucket);
    UpsertIs(bucket, x);
    var after := PutSubscription(s, limits, x).value.subscriptions;
    FlattenedHolds(after, x);
    assert x in after[x.typeId];
    forall y | y in Flattened(after) ensures Stored(y) {
      FlattenedHolds(after, y);
      var t :| t in after && y in after[t];
      assert t != x.typeId ==> GoodBucket(t, s.subscriptions[t]);
    }
  }

  lemma ReloadedClaims(s: State)
    ensures forall x: Subscription :: Claimable(WithoutEmpty(s), x) <==> Claimable(s, x)
  {
  }

  /** What reloads is valid, and reloading again changes nothing more. */
  lemma ReloadedIsValid(s: State, limits: Limits)
    requires Valid(s, limits)
    ensures Valid(WithoutEmpty(s), limits) && WithoutEmpty(WithoutEmpty(s)) == WithoutEmpty(s)
    ensures forall x: Subscription :: Claimable(WithoutEmpty(s), x) <==> Claimable(s, x)
  {
    ReloadedClaims(s);
    ReloadedCount(s.subscriptions);
    hide GoodBucket, Claimable, Count;
    assert forall t :: t in WithoutEmpty(s).subscriptions ==> GoodBucket(t, s.subscriptions[t]);
  }

  lemma ReloadedCount(buckets: Buckets)
    ensures Count(NonEmpty(buckets)) <= Count(buckets)
  {
    var kept := NonEmpty(buckets);
    CountMore(kept.Keys, buckets.Keys, kept);
    CountAtMost(buckets.Keys, kept, buckets);
  }

  // ----- the size -----

  /** Printing the item adds at most so many bytes. */
  ghost predicate Adds<T>(put: (T, seq<byte>) -> seq<byte>, x: T, longest: nat) {
    forall t :: |put(x, t)| <= |t| + longest
  }

  lemma {:induction false} ManyLength<T(!new)>(put: (T, seq<byte>) -> seq<byte>, items: seq<T>, rest: seq<byte>,
                                               longest: nat)
    requires forall x :: x in items ==> Adds(put, x, longest)
    ensures |PutMany(put, items, rest)| <= |rest| + longest * |items|
  {
    if items != [] {
      ManyLength(put, items[1..], rest, longest);
      assert Adds(put, items[0], longest);
    }
  }

  lemma CountedLength<T(!new)>(put: (T, seq<byte>) -> seq<byte>, items: seq<T>, rest: seq<byte>, longest: nat)
    requires forall x :: x in items ==> Adds(put, x, longest)
    ensures |PutCounted(put, items, rest)| <= |rest| + 4 + longest * |items|
  {
    ManyLength(put, items, rest, longest);
  }

  lemma ListedEntry<K(!new), V>(m: map<K, V>, rank: K -> nat, e: Entry<K, V>)
    requires Injective(rank) && e in Listing(m, rank)
    ensures e.key in m && e.value == m[e.key]
  {
  }

  lemma AgentsLength(s: State, limits: Limits, rest: seq<byte>)
    requires GoodKeys(s.keys, limits)
    ensures |PutCounted(PutAgent, Listing(s.keys, AgentRank), rest)| <= |rest| + 4 + 80 * |s.keys|
  {
    RanksAreInjective();
    ListingIs(s.keys, AgentRank);
    forall e | e in Listing(s.keys, AgentRank) ensures Adds(PutAgent, e, 80) {
      ListedEntry(s.keys, AgentRank, e);
    }
    CountedLength(PutAgent, Listing(s.keys, AgentRank), rest, 80);
  }

  lemma EnvironmentsLength(s: State, limits: Limits, rest: seq<byte>)
    requires GoodEnvironments(s.environments, limits)
    ensures |PutCounted(PutEnvironmentOf, Listing(s.environments, AgentRank), rest)|
         <= |rest| + 4 + 1126 * |s.environments|
  {
    hide IsEnvironment;
    RanksAreInjective();
    ListingIs(s.environments, AgentRank);
    forall e | e in Listing(s.environments, AgentRank) ensures Adds(PutEnvironmentOf, e, 1126) {
      ListedEntry(s.environments, AgentRank, e);
      EnvironmentIsShort(e.value);
    }
    CountedLength(PutEnvironmentOf, Listing(s.environments, AgentRank), rest, 1126);
  }

  lemma SubscriptionsLength(s: State, rest: seq<byte>)
    requires GoodBuckets(s.subscriptions)
    ensures |PutCounted(PutStored, Flattened(s.subscriptions), rest)| <= |rest| + 4 + 606 * Count(s.subscriptions)
  {
    hide Stored;
    FlattenedIs(s.subscriptions);
    forall x | x in Flattened(s.subscriptions) ensures Adds(PutStored, x, 606) {
      StoredIsShort(x);
    }
    CountedLength(PutStored, Flattened(s.subscriptions), rest, 606);
  }

  lemma MarksLength(s: State)
    ensures |PutCounted(PutMark, Listing(s.replay, KeyRank), [])| <= 4 + 40 * |s.replay|
  {
    RanksAreInjective();
    ListingIs(s.replay, KeyRank);
    forall e | e in Listing(s.replay, KeyRank) ensures Adds(PutMark, e, 40) {
    }
    CountedLength(PutMark, Listing(s.replay, KeyRank), [], 40);
  }

  /** The snapshot of a valid state is bounded by the limits; the default ones stay far below the
      size that a commit refuses. */
  lemma SnapshotLength(s: State, limits: Limits)
    requires Valid(s, limits)
    ensures limits == DEFAULT_LIMITS ==> Countable(s)
    ensures |Encode(s)|
         <= 24 + 80 * limits.agents + 1126 * limits.environments + 606 * limits.subscriptions + 40 * limits.replays
    ensures limits == DEFAULT_LIMITS ==> |Encode(s)| <= 4_372_504 < MAX_SNAPSHOT
  {
    hide Listing, Flattened, PutCounted, PutAgent, PutEnvironmentOf, PutStored, PutMark, Stored, IsEnvironment;
    var marks := PutCounted(PutMark, Listing(s.replay, KeyRank), []);
    var items := PutCounted(PutStored, Flattened(s.subscriptions), marks);
    var environments := PutCounted(PutEnvironmentOf, Listing(s.environments, AgentRank), items);
    FlattenedIs(s.subscriptions);
    MarksLength(s);
    SubscriptionsLength(s, marks);
    EnvironmentsLength(s, limits, items);
    AgentsLength(s, limits, environments);
  }
}
