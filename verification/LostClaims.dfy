/** When a publication can fail after it has claimed one-shots, and how many deliveries it can have. */
module LostClaims {
  import opened Bytes
  import opened Types
  import opened Payload
  import opened PayloadSizes
  import opened EnvironmentPolicy
  import opened Store
  import opened StoreProofs
  import opened Snapshot
  import opened SnapshotTheorems
  import opened Engine
  import opened EngineTheorems

  /** The snapshot of every valid state can be committed. */
  predicate Roomy(limits: Limits) {
    24 + 80 * limits.agents + 1126 * limits.environments + 606 * limits.subscriptions + 40 * limits.replays
      <= MAX_SNAPSHOT
  }

  lemma DefaultIsRoomy()
    ensures Roomy(DEFAULT_LIMITS)
  {
  }

  lemma RoomyCommits(s: State, limits: Limits, writes: bool)
    requires Store.Valid(s, limits) && Roomy(limits)
    ensures Verdict(s, writes) == if writes then Ok(()) else Err(Capacity)
  {
    hide Encode, GoodBuckets;
    SnapshotLength(s, limits);
    FlattenedIs(s.subscriptions);
  }

  /** For limits whose snapshots fit, a claim fails exactly if the file system refuses its commit. */
  lemma ClaimFailsByWrite(s: State, limits: Limits, p: Policy, m: Publication, failing: Failures, i: nat)
    requires Store.Valid(s, limits) && Provisioned(s) && Roomy(limits) && i < |BucketOf(s.subscriptions, m.typeId)|
    ensures var bucket := BucketOf(s.subscriptions, m.typeId);
      ClaimFails(s, p, m, failing, bucket, i) <==> Claims(s, p, m, bucket[i]) && 1 + i in failing
  {
    hide Store.Valid, Provisioned, Verdict, Midway, Claims;
    var bucket := BucketOf(s.subscriptions, m.typeId);
    MidwayKeeps(s, limits, p, m, bucket, i + 1);
    RoomyCommits(Midway(s, p, m, bucket, i + 1), limits, 1 + i !in failing);
  }

  /** The publication ends in an error, and something that could be claimed before is gone. */
  ghost predicate Loses(s: State, p: Policy, m: Publication, failing: Failures)
    requires |m.value| <= MAX_VALUE_BYTES
  {
    var r := PublishAll(s, p, m, failing);
    r.result.Err? && exists x :: Claimable(s, x) && !Claimable(r.state, x)
  }

  ghost predicate ClaimsTwo(s: State, p: Policy, m: Publication) {
    var bucket := BucketOf(s.subscriptions, m.typeId);
    exists i: nat, j: nat :: i < j < |bucket| && Claims(s, p, m, bucket[i]) && Claims(s, p, m, bucket[j])
  }

  lemma LossNeedsTwo(s: State, limits: Limits, p: Policy, m: Publication, failing: Failures)
    requires Store.Valid(s, limits) && |m.value| <= MAX_VALUE_BYTES && Loses(s, p, m, failing)
    ensures ClaimsTwo(s, p, m)
  {
    hide PublishAll, Claims, Verdict, Claimable, Store.Valid;
    var bucket, r := BucketOf(s.subscriptions, m.typeId), PublishAll(s, p, m, failing);
    var at := FailureIsExact(s, limits, p, m, failing);
    var x :| Claimable(s, x) && !Claimable(r.state, x);
    assert x in bucket[..at] && Claims(s, p, m, x);
    var i :| 0 <= i < at && bucket[..at][i] == x;
    assert Claims(s, p, m, bucket[i]) && Claims(s, p, m, bucket[at]);
  }

  lemma SecondClaimLoses(s: State, limits: Limits, p: Policy, m: Publication, i: nat, j: nat)
    requires Store.Valid(s, limits) && Provisioned(s) && Roomy(limits) && |m.value| <= MAX_VALUE_BYTES
    requires i < j < |BucketOf(s.subscriptions, m.typeId)|
    requires Claims(s, p, m, BucketOf(s.subscriptions, m.typeId)[i])
    requires Claims(s, p, m, BucketOf(s.subscriptions, m.typeId)[j])
    ensures Loses(s, p, m, {1 + j})
  {
    hide PublishAll, Claims, Store.Valid, Provisioned, ClaimFails, Verdict, Claimed, Claimable;
    var bucket, failing := BucketOf(s.subscriptions, m.typeId), {1 + j};
    ClaimFailsByWrite(s, limits, p, m, failing, j);
    PublicationIsExact(s, limits, p, m, failing);
    var at := FailureIsExact(s, limits, p, m, failing);
    ClaimFailsByWrite(s, limits, p, m, failing, at);
    assert bucket[..at][i] == bucket[i];
    EntryIsClaimable(s, limits, m.typeId, i);
    assert !Claimable(PublishAll(s, p, m, failing).state, bucket[i]);
  }

  lemma EntryIsClaimable(s: State, limits: Limits, t: TypeId, i: nat)
    requires Store.Valid(s, limits) && i < |BucketOf(s.subscriptions, t)|
    ensures Claimable(s, BucketOf(s.subscriptions, t)[i])
  {
    hide Store.Valid, Stored;
    BucketEntries(s, limits, t);
    assert BucketOf(s.subscriptions, t)[i] in BucketOf(s.subscriptions, t);
  }

  /** For limits whose snapshots fit, such as the default ones: some failing commits make a publication
      end in an error after it has consumed a one-shot, whose delivery is lost, if and only if it
      reaches at least two one-shots. */
  lemma LossIsExact(s: State, limits: Limits, p: Policy, m: Publication)
    requires Store.Valid(s, limits) && Provisioned(s) && Roomy(limits) && |m.value| <= MAX_VALUE_BYTES
    ensures (exists failing :: Loses(s, p, m, failing)) <==> ClaimsTwo(s, p, m)
  {
    hide Loses, Claims, Store.Valid, Provisioned;
    if failing :| Loses(s, p, m, failing) {
      LossNeedsTwo(s, limits, p, m, failing);
    }
    if ClaimsTwo(s, p, m) {
      var bucket := BucketOf(s.subscriptions, m.typeId);
      var i: nat, j: nat :| i < j < |bucket| && Claims(s, p, m, bucket[i]) && Claims(s, p, m, bucket[j]);
      SecondClaimLoses(s, limits, p, m, i, j);
    }
  }

  /** The publication succeeds exactly if no claim of a one-shot it reaches is refused by the file system. */
  lemma SuccessIsExact(s: State, limits: Limits, p: Policy, m: Publication, failing: Failures)
    requires Store.Valid(s, limits) && Provisioned(s) && Roomy(limits) && |m.value| <= MAX_VALUE_BYTES
    ensures var bucket := BucketOf(s.subscriptions, m.typeId);
      PublishAll(s, p, m, failing).result.Ok? <==>
        forall i :: 0 <= i < |bucket| && Claims(s, p, m, bucket[i]) ==> 1 + i !in failing
  {
    hide PublishAll, Claims, Store.Valid, Provisioned, ClaimFails, Verdict;
    var bucket := BucketOf(s.subscriptions, m.typeId);
    PublicationIsExact(s, limits, p, m, failing);
    forall i: nat | i < |bucket|
      ensures ClaimFails(s, p, m, failing, bucket, i) <==> Claims(s, p, m, bucket[i]) && 1 + i in failing
    {
      ClaimFailsByWrite(s, limits, p, m, failing, i);
    }
  }

  // ----- a crowded bucket -----

  const SUBSCRIBER: AgentId := 1
  const TYPE: TypeId := 0
  const PUBLICATION: Publication := Publication(SUBSCRIBER, [], TYPE, [], [])

  function EmptyEnvironment(): seq<byte> { OperationBytes(Operation.SetEnvironment([])) }

  function EmptySubscription(): seq<byte> { OperationBytes(Operation.Subscribe(TYPE, [])) }

  /** One-shots of one subscriber under the handlers 1 to `n`. */
  function Bucket(n: usize): (bucket: seq<Subscription>)
    ensures |bucket| == n
    ensures forall i :: 0 <= i < n ==> bucket[i] == Subscription(SUBSCRIBER, TYPE, i + 1, OneShot, EmptySubscription())
  {
    seq(n, i requires 0 <= i < n => Subscription(SUBSCRIBER, TYPE, i + 1, OneShot, EmptySubscription()))
  }

  function Crowded(n: usize): State {
    State(map[SUBSCRIBER := PublicKeys(Filled(32), Filled(32))], map[SUBSCRIBER := EmptyEnvironment()],
      map[TYPE := Bucket(n)], map[])
  }

  lemma EmptyOperationsParse()
    ensures ParseOperation(EmptyEnvironment()) == Ok(Operation.SetEnvironment([]))
    ensures ParseOperation(EmptySubscription()) == Ok(Operation.Subscribe(TYPE, []))
  {
    OperationRoundTrip(Operation.SetEnvironment([]));
    OperationRoundTrip(Operation.Subscribe(TYPE, []));
  }

  lemma BucketIsGood(n: usize)
    ensures GoodBucket(TYPE, Bucket(n))
  {
    hide ParseOperation, EmptySubscription;
    EmptyOperationsParse();
  }

  lemma CrowdedIsValid(n: usize, limits: Limits)
    requires n <= limits.subscriptions && limits.agents >= 1 && limits.environments >= 1
    ensures Store.Valid(Crowded(n), limits) && Provisioned(Crowded(n))
  {
    hide ParseOperation, EmptyEnvironment, GoodBucket;
    EmptyOperationsParse();
    BucketIsGood(n);
    var none: Buckets := map[];
    CountUpdated(none, TYPE, Bucket(n));
    assert none[TYPE := Bucket(n)] == map[TYPE := Bucket(n)];
    assert Count(none) == 0;
  }

  lemma CrowdedIsReached(n: usize, i: nat)
    requires i < n
    ensures Claims(Crowded(n), EnvironmentPolicy.EMPTY, PUBLICATION, Bucket(n)[i])
  {
    hide ParseOperation, EmptyEnvironment, EmptySubscription;
    EmptyOperationsParse();
  }

  /** There are valid states, under the default limits, in which a failing commit loses a delivery. */
  lemma LossHappens()
    ensures Store.Valid(Crowded(2), DEFAULT_LIMITS) && Provisioned(Crowded(2))
    ensures Loses(Crowded(2), EnvironmentPolicy.EMPTY, PUBLICATION, {2})
  {
    hide Loses, Claims, Store.Valid, Provisioned;
    DefaultIsRoomy();
    CrowdedIsValid(2, DEFAULT_LIMITS);
    CrowdedIsReached(2, 0);
    CrowdedIsReached(2, 1);
    SecondClaimLoses(Crowded(2), DEFAULT_LIMITS, EnvironmentPolicy.EMPTY, PUBLICATION, 0, 1);
  }

  /** The bound on the number of deliveries is reached: some valid state answers with as many as the
      limits admit subscriptions. */
  lemma GroupsCanBeFull(limits: Limits)
    requires Roomy(limits) && limits.agents >= 1 && limits.environments >= 1
    ensures var s, r := Crowded(limits.subscriptions),
      PublishAll(Crowded(limits.subscriptions), EnvironmentPolicy.EMPTY, PUBLICATION, {});
      && Store.Valid(s, limits) && Provisioned(s)
      && r.result.Ok? && r.result.value.Deliveries? && |r.result.value.deliveries| == limits.subscriptions
  {
    hide PublishAll, Claims, Reaches, Store.Valid, Provisioned, Reached, ClaimFails;
    var n := limits.subscriptions;
    var s, bucket := Crowded(n), Bucket(n);
    CrowdedIsValid(n, limits);
    SuccessIsExact(s, limits, EnvironmentPolicy.EMPTY, PUBLICATION, {});
    PublicationIsExact(s, limits, EnvironmentPolicy.EMPTY, PUBLICATION, {});
    forall i | 0 <= i < n ensures Reaches(s, EnvironmentPolicy.EMPTY, PUBLICATION, bucket[i]) {
      CrowdedIsReached(n, i);
      ClaimReaches(s, EnvironmentPolicy.EMPTY, PUBLICATION, bucket[i]);
    }
    AllReached(s, EnvironmentPolicy.EMPTY, PUBLICATION, bucket);
  }

  lemma ClaimReaches(s: State, p: Policy, m: Publication, x: Subscription)
    requires Claims(s, p, m, x)
    ensures Reaches(s, p, m, x)
  {
  }

  lemma {:induction false} AllReached(s: State, p: Policy, m: Publication, bucket: seq<Subscription>)
    requires forall i :: 0 <= i < |bucket| ==> Reaches(s, p, m, bucket[i])
    ensures Reached(s, p, m, bucket) == bucket
  {
    hide Reaches;
    if bucket != [] {
      AllReached(s, p, m, bucket[..|bucket| - 1]);
      assert bucket == bucket[..|bucket| - 1] + [bucket[|bucket| - 1]];
    }
  }
}
