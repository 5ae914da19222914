/** The file-backed store: every operation builds the next state, commits its snapshot, and only
    then shows it. */
module PersistentStore {
  import opened Bytes
  import opened Types
  import opened SortedMaps
  import opened Replay
  import opened Store
  import opened StoreProofs
  import opened Snapshot
  import opened SnapshotCodec
  import opened SnapshotTheorems

  /** State and file after an operation: both of the next state, or both as before. */
  ghost predicate Transacted(step: Update, writes: bool, r: Result<(), Error>,
                             before: State, fileBefore: Option<seq<byte>>, after: State, fileAfter: Option<seq<byte>>)
  {
    && r == (if step.Ok? then Verdict(step.value, writes) else Err(step.error))
    && (r.Ok? ==> step.Ok? && after == step.value && fileAfter == Some(Encode(step.value)))
    && (r.Err? ==> after == before && fileAfter == fileBefore)
  }

  class PersistentStore {
    var state: State
    var file: Option<seq<byte>>
    const limits: Limits

    /** The state is valid, and the file holds what reloads to it. */
    ghost predicate Valid()
      reads this
    {
      Store.Valid(state, limits) && Durable(state, file, limits)
    }

    /** The file is the snapshot of the state itself. */
    ghost predicate InSync()
      reads this
    {
      file == Some(Encode(state))
    }

    constructor (state: State, file: Option<seq<byte>>, limits: Limits)
      ensures this.state == state && this.file == file && this.limits == limits
    {
      this.state, this.file, this.limits := state, file, limits;
    }

    /** Opens an existing snapshot or starts empty. */
    static method Open(file: Option<seq<byte>>, limits: Limits) returns (r: Result<PersistentStore, Error>)
      ensures r.Ok? ==> fresh(r.value) && r.value.limits == limits && r.value.file == file
      ensures file.None? ==> r.Ok? && r.value.Valid() && r.value.state == Store.EMPTY
      ensures file.Some? && |file.value| > MAX_SNAPSHOT ==> r == Err(Oversized)
      ensures file.Some? && |file.value| <= MAX_SNAPSHOT ==>
        (r.Ok? <==> Decode(file.value, limits).Ok?) && (r.Ok? ==> r.value.state == Decode(file.value, limits).value)
        && (r.Err? ==> r.error == Decode(file.value, limits).error)
    {
      var state := Store.EMPTY;
      if file.Some? {
        if |file.value| > MAX_SNAPSHOT {
          return Err(Oversized);
        }
        state :- DecodeState(file.value, limits);
      }
      var store := new PersistentStore(state, file, limits);
      return Ok(store);
    }

    /** A store that is closed and opened again holds the same agents, environments, subscriptions
        and replay entries. */
    method Reopen() returns (r: Result<PersistentStore, Error>)
      requires Valid()
      ensures r.Ok? && fresh(r.value) && r.value.Valid() && r.value.state == WithoutEmpty(state)
    {
      ReloadedIsValid(state, limits);
      r := Open(file, limits);
    }

    method Commit(next: State, writes: bool) returns (r: Result<(), Error>)
      modifies this
      ensures Transacted(Ok(next), writes, r, old(state), old(file), state, file)
    {
      var encoded :- EncodeState(next);
      if |encoded| > MAX_SNAPSHOT {
        return Err(Oversized);
      }
      if !writes {
        return Err(Capacity);
      }
      file := Some(encoded);
      state := next;
      return Ok(());
    }

    method Keys(agent: AgentId) returns (r: Result<PublicKeys, Error>)
      ensures r == if agent in state.keys then Ok(state.keys[agent]) else Err(BadSignature)
    {
      if agent !in state.keys {
        return Err(BadSignature);
      }
      return Ok(state.keys[agent]);
    }

    method Provision(agent: AgentId, keys: PublicKeys, writes: bool) returns (r: Result<(), Error>)
      requires Valid() && FullKeys(keys)
      modifies this
      ensures Valid()
      ensures Transacted(Store.Provision(old(state), limits, agent, keys), writes, r, old(state), old(file), state,
        file)
      ensures agent == 0 ==> r == Err(Malformed)
      ensures agent != 0 && agent !in old(state).keys && |old(state).keys| >= limits.agents ==> r == Err(Capacity)
      ensures agent != 0 && (agent in old(state).keys || |old(state).keys| < limits.agents) ==>
        var next := old(state).(keys := old(state).keys[agent := keys]);
        r == Verdict(next, writes) && (r.Ok? ==> state == next)
    {
      hide Durable, Verdict, Store.Valid, Encode;
      if agent == CA {
        return Err(Malformed);
      }
      var next := state;
      if agent !in next.keys && |next.keys| >= limits.agents {
        return Err(Capacity);
      }
      next := next.(keys := next.keys[agent := keys]);
      ProvisionKeeps(state, limits, agent, keys);
      CommittedIsDurable(next, limits, writes);
      r := Commit(next, writes);
    }

    method SetEnvironment(agent: AgentId, encoded: seq<byte>, writes: bool) returns (r: Result<(), Error>)
      requires Valid()
      modifies this
      ensures Valid()
      ensures Transacted(PutEnvironment(old(state), limits, agent, encoded), writes, r, old(state), old(file), state,
        file)
      ensures !IsEnvironment(encoded) ==> r == Err(Malformed)
      ensures IsEnvironment(encoded) && !HasPlace(old(state), limits, agent) ==> r == Err(Capacity)
      ensures IsEnvironment(encoded) && HasPlace(old(state), limits, agent) ==>
        var next := old(state).(environments := old(state).environments[agent := encoded]);
        r == Verdict(next, writes) && (r.Ok? ==> state == next)
    {
      hide Durable, Verdict, Store.Valid, Encode, IsEnvironment;
      if !IsEnvironment(encoded) {
        return Err(Malformed);
      }
      var next := state;
      if agent !in next.environments && |next.environments| >= limits.environments {
        return Err(Capacity);
      }
      next := next.(environments := next.environments[agent := encoded]);
      PutEnvironmentKeeps(state, limits, agent, encoded);
      CommittedIsDurable(next, limits, writes);
      r := Commit(next, writes);
    }

    /** Only the engine refuses the empty handler, so only without it the store stays valid. */
    method PutSubscription(x: Subscription, writes: bool) returns (r: Result<(), Error>)
      requires Valid()
      modifies this
      ensures x.handler != NO_HANDLER ==> Valid()
      ensures Transacted(Store.PutSubscription(old(state), limits, x), writes, r, old(state), old(file), state, file)
      ensures !Stored(x) ==> r == Err(Malformed)
      ensures Stored(x) && !IsTaken(old(state), x) && Count(old(state).subscriptions) >= limits.subscriptions ==>
        r == Err(Capacity)
      ensures r.Ok? ==>
        && Stored(x) && (IsTaken(old(state), x) || Count(old(state).subscriptions) < limits.subscriptions)
        && state == old(state).(subscriptions := state.subscriptions)
        && forall y :: Claimable(state, y) <==>
             y == x || (Claimable(old(state), y) && !(y.typeId == x.typeId && SameSlot(y, x)))
    {
      hide Durable, Verdict, Encode, Stored;
      if !Stored(x) {
        return Err(Malformed);
      }
      var next := state;
      var count := CountSubscriptions(next.subscriptions);
      var bucket := BucketOf(next.subscriptions, x.typeId);
      BucketEntries(state, limits, x.typeId);
      Taken(state, limits, x);
      PutIs(state, limits, x);
      var updated := PutInBucket(bucket, x, count >= limits.subscriptions);
      if updated.None? {
        return Err(Capacity);
      }
      next := next.(subscriptions := next.subscriptions[x.typeId := updated.value]);
      if x.handler != NO_HANDLER {
        PutSubscriptionKeeps(state, limits, x);
        CommittedIsDurable(next, limits, writes);
      }
      r := Commit(next, writes);
    }

    method SubscriptionsFor(typeId: TypeId) returns (snapshot: seq<Subscription>)
      ensures snapshot == BucketOf(state.subscriptions, typeId)
    {
      snapshot := if typeId in state.subscriptions then state.subscriptions[typeId] else [];
    }

    /** Whether the subscription was there; a one-shot is then gone, if the commit succeeds. */
    method Claim(x: Subscription, writes: bool) returns (r: Result<bool, Error>)
      requires Valid()
      modifies this
      ensures Valid()
      ensures x.kind == Permanent || !Claimable(old(state), x) ==>
        r == Ok(Claimable(old(state), x)) && state == old(state) && file == old(file)
      ensures x.kind == OneShot && Claimable(old(state), x) ==>
        && r == (if Verdict(Claimed(old(state), x), writes).Ok? then Ok(true)
             else Err(Verdict(Claimed(old(state), x), writes).error))
        && (r.Ok? ==> state == Claimed(old(state), x) && file == Some(Encode(state)))
        && (r.Err? ==> state == old(state) && file == old(file))
      ensures r == Ok(true) && x.kind == OneShot ==>
        && state == old(state).(subscriptions := state.subscriptions)
        && forall y :: Claimable(state, y) <==> Claimable(old(state), y) && y != x
    {
      hide Durable, Verdict, Store.Valid, Encode;
      if x.typeId !in state.subscriptions {
        return Ok(false);
      }
      var bucket := state.subscriptions[x.typeId];
      if x.kind == Permanent {
        return Ok(x in bucket);
      }
      var index := Position(bucket, x);
      if index == |bucket| {
        return Ok(false);
      }
      RemovedAt(bucket, x, index);
      var next := state.(subscriptions := state.subscriptions[x.typeId := bucket[..index] + bucket[index + 1..]]);
      ClaimedKeeps(state, limits, x);
      ClaimIs(state, limits, x);
      CommittedIsDurable(next, limits, writes);
      var committed := Commit(next, writes);
      if committed.Err? {
        return Err(committed.error);
      }
      return Ok(true);
    }

    /** A rejected session leaves everything as it was, expired entries included. */
    method CheckAndMark(key: Key, now: u64, writes: bool) returns (r: Result<(), Error>)
      requires Valid()
      modifies this
      ensures Valid()
      ensures Transacted(MarkSession(old(state), limits, key, now), writes, r, old(state), old(file), state, file)
    {
      hide Durable, Verdict, Store.Valid, Encode;
      var marked := Mark(state.replay, key, now, limits.replays, limits.ttl);
      if marked.result.Err? {
        return Err(marked.result.error);
      }
      var next := state.(replay := marked.entries);
      MarkSessionKeeps(state, limits, key, now);
      CommittedIsDurable(next, limits, writes);
      r := Commit(next, writes);
    }

    method ReconcileAgents(configured: seq<Entry<AgentId, PublicKeys>>, writes: bool) returns (r: Result<(), Error>)
      requires Valid() && forall e :: e in configured ==> FullKeys(e.value)
      modifies this
      ensures Valid()
      ensures Transacted(Reconcile(old(state), limits, configured), writes, r, old(state), old(file), state, file)
      ensures |configured| > limits.agents ==> r == Err(Capacity)
      ensures |configured| <= limits.agents && !(DistinctKeys(configured) && forall e :: e in configured ==> e.key != 0)
        ==> r == Err(Malformed)
      ensures r.Ok? ==> |configured| <= limits.agents && Lists(configured, state.keys) && Provisioned(state)
      ensures r.Ok? ==> forall a :: if Unchanged(old(state), state.keys, a) then SameOf(old(state), state, a)
                                    else NothingOf(state, a)
    {
      hide Durable, Verdict, Store.Valid, Encode, Restricted, Provisioned;
      if |configured| > limits.agents {
        return Err(Capacity);
      }
      var keys := Directory(configured);
      if keys.None? {
        return Err(Malformed);
      }
      var next := Restricted(state, keys.value);
      ReconcileIsExact(state, limits, configured);
      CommittedIsDurable(next, limits, writes);
      r := Commit(next, writes);
    }
  }

  /** The environment of the agent takes the place of another, or there is room. */
  predicate HasPlace(s: State, limits: Limits, agent: AgentId) {
    agent in s.environments || |s.environments| < limits.environments
  }

  lemma ClaimIs(s: State, limits: Limits, x: Subscription)
    requires Store.Valid(s, limits) && Claimable(s, x) && x.kind == OneShot
    ensures forall y :: Claimable(Claimed(s, x), y) <==> Claimable(s, y) && y != x
  {
    BucketEntries(s, limits, x.typeId);
    WithoutIs(s.subscriptions[x.typeId], x);
  }

  ghost predicate Durable(s: State, file: Option<seq<byte>>, limits: Limits) {
    match file
    case None => s == Store.EMPTY
    case Some(bytes) => |bytes| <= MAX_SNAPSHOT && Decode(bytes, limits) == Ok(WithoutEmpty(s))
                        && Decode(bytes, limits) == Ok(WithoutEmpty(WithoutEmpty(s)))
  }

  lemma CommittedIsDurable(next: State, limits: Limits, writes: bool)
    requires Store.Valid(next, limits)
    ensures Verdict(next, writes).Ok? ==> Durable(next, Some(Encode(next)), limits)
  {
    if Verdict(next, writes).Ok? {
      SnapshotReloads(next, limits);
      ReloadedIsValid(next, limits);
    }
  }

  method CountSubscriptions(subscriptions: Buckets) returns (count: nat)
    ensures count == Count(subscriptions)
  {
    count := 0;
    var rest := subscriptions.Keys;
    while rest != {}
      invariant rest <= subscriptions.Keys && count + CountIn(rest, subscriptions) == Count(subscriptions)
      decreases rest
    {
      var t :| t in rest;
      CountSplits(rest, subscriptions, t);
      count := count + |subscriptions[t]|;
      rest := rest - {t};
    }
  }

  /** Replaces the entry of the slot, or pushes and sorts; `None` if there is no room for another. */
  method PutInBucket(bucket: seq<Subscription>, x: Subscription, full: bool)
    returns (updated: Option<seq<Subscription>>)
    requires Sorted(bucket)
    ensures updated == if full && !HasSlot(bucket, x) then None else Some(Upsert(bucket, x))
  {
    UpsertIs(bucket, x);
    var index := 0;
    while index < |bucket| && !SameSlot(bucket[index], x)
      invariant index <= |bucket| && forall k :: 0 <= k < index ==> !SameSlot(bucket[k], x)
    {
      index := index + 1;
    }
    if index < |bucket| {
      assert HasSlot(bucket, x);
      ReplacedAt(bucket, x, index);
      return Some(bucket[index := x]);
    }
    if full {
      return None;
    }
    var sorted := SortBucket(bucket + [x]);
    SortedUnique(sorted, Upsert(bucket, x));
    return Some(sorted);
  }

  predicate DistinctSlots(items: seq<Subscription>) {
    forall i, j :: 0 <= i < j < |items| ==> !SameSlot(items[i], items[j])
  }

  /** Sorting by slot, the slots being distinct. */
  method SortBucket(items: seq<Subscription>) returns (sorted: seq<Subscription>)
    requires DistinctSlots(items)
    ensures Sorted(sorted) && forall e :: e in sorted <==> e in items
  {
    sorted := [];
    for i := 0 to |items|
      invariant Sorted(sorted) && forall e :: e in sorted <==> e in items[..i]
    {
      UpsertIs(sorted, items[i]);
      assert forall e :: e in items[..i] ==> !SameSlot(e, items[i]);
      assert items[..i + 1] == items[..i] + [items[i]];
      sorted := Upsert(sorted, items[i]);
    }
    assert items[..|items|] == items;
  }

  lemma ReplacedAt(bucket: seq<Subscription>, x: Subscription, index: nat)
    requires Sorted(bucket) && index < |bucket| && SameSlot(bucket[index], x)
    ensures bucket[index := x] == Upsert(bucket, x)
  {
    UpsertIs(bucket, x);
    var replaced := bucket[index := x];
    forall e ensures e in replaced <==> e in Upsert(bucket, x) {
      if e in replaced {
        var k :| 0 <= k < |replaced| && replaced[k] == e;
        assert k != index ==> bucket[k] == e && !SameSlot(e, bucket[index]);
      }
      if e in bucket && !SameSlot(e, x) {
        var k :| 0 <= k < |bucket| && bucket[k] == e;
        assert replaced[k] == e;
      }
      assert replaced[index] == x;
    }
    SortedUnique(replaced, Upsert(bucket, x));
  }

  method Position(bucket: seq<Subscription>, x: Subscription) returns (index: nat)
    ensures index <= |bucket| && x !in bucket[..index]
    ensures index < |bucket| ==> bucket[index] == x
  {
    index := 0;
    while index < |bucket| && bucket[index] != x
      invariant index <= |bucket| && x !in bucket[..index]
    {
      index := index + 1;
    }
  }

  lemma {:induction false} RemovedAt(bucket: seq<Subscription>, x: Subscription, index: nat)
    requires index < |bucket| && bucket[index] == x && x !in bucket[..index]
    ensures bucket[..index] + bucket[index + 1..] == Without(bucket, x)
  {
    if index > 0 {
      var others := bucket[1..];
      assert bucket[0] == bucket[..index][0];
      assert others[..index - 1] == bucket[..index][1..];
      RemovedAt(others, x, index - 1);
      assert bucket[..index] + bucket[index + 1..] == [bucket[0]] + (others[..index - 1] + others[index..]);
    }
  }

  /** The configured agents as a map, unless one is the CA or occurs twice. */
  method Directory(configured: seq<Entry<AgentId, PublicKeys>>) returns (keys: Option<map<AgentId, PublicKeys>>)
    ensures keys == if Configurable(configured) then Some(MapOf(configured)) else None
  {
    var directory: map<AgentId, PublicKeys> := map[];
    for i := 0 to |configured|
      invariant Configurable(configured[..i]) && directory == MapOf(configured[..i])
    {
      var e := configured[i];
      ConfiguredMap(configured[..i]);
      NextAgent(configured, i, directory);
      if e.key == CA || e.key in directory {
        return None;
      }
      directory := directory[e.key := e.value];
      assert configured[..i + 1][..i] == configured[..i];
    }
    assert configured[..|configured|] == configured;
    return Some(directory);
  }

  lemma NextAgent(configured: seq<Entry<AgentId, PublicKeys>>, i: nat, directory: map<AgentId, PublicKeys>)
    requires i < |configured| && Configurable(configured[..i]) && Lists(configured[..i], directory)
    ensures Configurable(configured[..i + 1]) <==> configured[i].key != CA && configured[i].key !in directory
    ensures !Configurable(configured[..i + 1]) ==> !Configurable(configured)
  {
  }
}
