/** The CA over whole runs: it starts on whatever the last run left in its file, reconciles its
    directory, serves requests, reloads its configuration, and stops or crashes at any time. */
module CaRuns {
  import opened Bytes
  import opened Types
  import opened Payload
  import opened SortedMaps
  import opened Replay
  import opened Envelope
  import opened EnvironmentPolicy
  import opened Store
  import opened StoreProofs
  import opened Snapshot
  import opened SnapshotTheorems
  import opened Engine
  import opened EngineTheorems

  type Directory = seq<Entry<AgentId, PublicKeys>>

  datatype Service = Service(state: State, policy: Policy)

  /** The file, if there is one yet, and the CA, if it runs. */
  datatype World = World(file: Option<seq<byte>>, service: Option<Service>)

  /** Stopping between two requests; to crash amid the commits of a request is to have the later ones
      of them fail, and to stop. */
  datatype Action =
    | Start(configured: Directory, policy: Policy, writes: bool)
    | Reload(configured: Directory, policy: Policy, writes: bool)
    | Serve(frame: seq<byte>, crypto: Crypto, now: u64, failing: Failures)
    | Halt

  const FRESH: World := World(None, None)

  predicate Enabled(w: World, a: Action) {
    match a
    case Start(configured, _, _) => w.service.None? && FullDirectory(configured)
    case Reload(configured, _, _) => w.service.Some? && FullDirectory(configured)
    case _ => w.service.Some?
  }

  /** Keys have their full length, which the types of the source demand. */
  predicate FullDirectory(configured: Directory) { forall e :: e in configured ==> FullKeys(e.value) }

  function Opened(file: Option<seq<byte>>, limits: Limits): Result<State, Error> {
    if file.None? then Ok(Store.EMPTY)
    else if |file.value| > MAX_SNAPSHOT then Err(Oversized)
    else Decode(file.value, limits)
  }

  /** A directory that cannot be committed leaves everything as it was. */
  function Reconciled(w: World, limits: Limits, s: State, configured: Directory, policy: Policy, writes: bool): World {
    var next := Committed(Reconcile(s, limits, configured), writes);
    if next.Err? then w else World(Some(Encode(next.value)), Some(Service(next.value, policy)))
  }

  ghost function Step(w: World, limits: Limits, a: Action): World
    requires Enabled(w, a)
  {
    match a
    case Start(configured, policy, writes) =>
      var s := Opened(w.file, limits);
      if s.Err? then w else Reconciled(w, limits, s.value, configured, policy, writes)
    case Reload(configured, policy, writes) =>
      Reconciled(w, limits, w.service.value.state, configured, policy, writes)
    case Serve(frame, crypto, now, failing) =>
      var before := w.service.value;
      var after := Process(before.state, limits, before.policy, frame, crypto, now, failing).state;
      if after == before.state then w else World(Some(Encode(after)), Some(before.(state := after)))
    case Halt => w.(service := None)
  }

  ghost predicate Runs(w: World, limits: Limits, actions: seq<Action>)
    decreases |actions|
  {
    actions != [] ==> Enabled(w, actions[0]) && Runs(Step(w, limits, actions[0]), limits, actions[1..])
  }

  ghost function Outcome(w: World, limits: Limits, actions: seq<Action>): World
    requires Runs(w, limits, actions)
    decreases |actions|
  {
    if actions == [] then w else Outcome(Step(w, limits, actions[0]), limits, actions[1..])
  }

  // ----- what every run keeps -----

  /** Committed under the limits. */
  ghost predicate Kept(s: State, limits: Limits) {
    Valid(s, limits) && Provisioned(s) && Verdict(s, true).Ok?
  }

  /** The file is the snapshot of a state that was committed, of the present one while the CA runs. */
  ghost predicate Sound(w: World, limits: Limits) {
    && (w.service.Some? ==> w.file == Some(Encode(w.service.value.state)) && Kept(w.service.value.state, limits))
    && (w.file.Some? ==> exists s :: Kept(s, limits) && w.file == Some(Encode(s)))
  }

  lemma ReconciledIsSound(w: World, limits: Limits, s: State, configured: Directory, policy: Policy, writes: bool)
    requires Sound(w, limits) && Valid(s, limits) && FullDirectory(configured)
    ensures Sound(Reconciled(w, limits, s, configured, policy, writes), limits)
  {
    hide Valid, Provisioned, Reconcile, Encode;
    if Committed(Reconcile(s, limits, configured), writes).Ok? {
      ReconcileIsExact(s, limits, configured);
      assert Kept(Reconcile(s, limits, configured).value, limits);
    }
  }

  /** Whatever a run has left in the file, the next one can open, and it is valid. */
  lemma OpensAgain(w: World, limits: Limits)
    requires Sound(w, limits)
    ensures Opened(w.file, limits).Ok? && Valid(Opened(w.file, limits).value, limits)
    ensures w.service.Some? ==> Opened(w.file, limits) == Ok(WithoutEmpty(w.service.value.state))
  {
    hide Valid, Provisioned, Encode, Decode, WithoutEmpty;
    if w.file.Some? {
      var s :| Kept(s, limits) && w.file == Some(Encode(s));
      SnapshotReloads(s, limits);
      ReloadedIsValid(s, limits);
      if w.service.Some? {
        SnapshotReloads(w.service.value.state, limits);
      }
    } else {
      EmptyIsValid(limits);
    }
  }

  lemma EmptyIsValid(limits: Limits)
    ensures Valid(Store.EMPTY, limits)
  {
  }

  // ----- what changes has been committed -----

  ghost predicate Settled(before: State, after: State) { after == before || Verdict(after, true).Ok? }

  lemma {:induction false} MidwayIsSettled(s: State, limits: Limits, p: Policy, m: Publication, failing: Failures,
                                           i: nat)
    requires Valid(s, limits) && i <= |BucketOf(s.subscriptions, m.typeId)|
    requires var bucket := BucketOf(s.subscriptions, m.typeId);
      forall k :: 0 <= k < i ==> !ClaimFails(s, p, m, failing, bucket, k)
    ensures Settled(s, Midway(s, p, m, BucketOf(s.subscriptions, m.typeId), i))
  {
    hide Valid, Midway, Reaches, Encode, Countable;
    var bucket := BucketOf(s.subscriptions, m.typeId);
    if i == 0 {
      MidwayStarts(s, p, m, bucket);
    } else {
      MidwayIsSettled(s, limits, p, m, failing, i - 1);
      BucketEntries(s, limits, m.typeId);
      assert bucket[i - 1] in bucket;
      MidwayStep(s, p, m, bucket, i - 1);
      assert !ClaimFails(s, p, m, failing, bucket, i - 1);
    }
  }

  lemma PublishSettles(s: State, limits: Limits, p: Policy, m: Publication, failing: Failures)
    requires Valid(s, limits) && |m.value| <= MAX_VALUE_BYTES
    ensures Settled(s, PublishAll(s, p, m, failing).state)
  {
    hide Valid, Settled, Midway, ClaimFails;
    var bucket := BucketOf(s.subscriptions, m.typeId);
    StopIs(s, p, m, failing, bucket, 0);
    MidwayIsSettled(s, limits, p, m, failing, Stop(s, p, m, failing, bucket, 0));
  }

  lemma PerformSettles(s: State, limits: Limits, p: Policy, h: Header, plaintext: seq<byte>, failing: Failures)
    requires Valid(s, limits)
    ensures Settled(s, Perform(s, limits, p, h, plaintext, failing).state)
  {
    hide Valid, ParseOperation, EnvironmentOf, Validate, PublishAll, PutEnvironment, PutSubscription, Encode, Countable;
    var op := ParseOperation(plaintext);
    if op.Ok? && op.value.Publish? {
      ParsingIsCanonical(plaintext, op.value);
      if EnvironmentOf(s, h.sender).Some? {
        var m := Publication(h.sender, EnvironmentOf(s, h.sender).value, op.value.typeId, op.value.clauses,
          op.value.value);
        PublishSettles(s, limits, p, m, failing);
      }
    }
  }

  /** What a request changes has been committed. */
  lemma ChangeIsCommitted(s: State, limits: Limits, p: Policy, frame: seq<byte>, crypto: Crypto, now: u64,
                          failing: Failures)
    requires Valid(s, limits) && Provisioned(s)
    ensures Settled(s, Process(s, limits, p, frame, crypto, now, failing).state)
  {
    hide Valid, Provisioned, Perform, ParseEnvelope, Encode, Countable;
    var header := Authenticate(s, frame, crypto);
    if header.Ok? && MarkCommitted(s, limits, header.value, now, failing).Ok? && crypto.content.Ok? {
      MarkSessionKeeps(s, limits, Key(header.value.sender, header.value.session), now);
      PerformSettles(MarkCommitted(s, limits, header.value, now, failing).value, limits, p, header.value,
        crypto.content.value, failing);
    }
  }

  lemma ServedIsSound(w: World, limits: Limits, a: Action)
    requires Sound(w, limits) && a.Serve? && Enabled(w, a)
    ensures Sound(Step(w, limits, a), limits)
  {
    hide Valid, Provisioned, Encode, Process;
    var s := w.service.value;
    ProcessKeeps(s.state, limits, s.policy, a.frame, a.crypto, a.now, a.failing);
    ChangeIsCommitted(s.state, limits, s.policy, a.frame, a.crypto, a.now, a.failing);
    var after := Process(s.state, limits, s.policy, a.frame, a.crypto, a.now, a.failing).state;
    if after != s.state {
      assert Kept(after, limits);
    }
  }

  lemma StepIsSound(w: World, limits: Limits, a: Action)
    requires Sound(w, limits) && Enabled(w, a)
    ensures Sound(Step(w, limits, a), limits)
  {
    hide Valid, Kept, Reconciled, Opened;
    match a {
      case Start(configured, policy, writes) =>
        OpensAgain(w, limits);
        ReconciledIsSound(w, limits, Opened(w.file, limits).value, configured, policy, writes);
      case Reload(configured, policy, writes) =>
        assert Valid(w.service.value.state, limits) by { OfKept(w.service.value.state, limits); }
        ReconciledIsSound(w, limits, w.service.value.state, configured, policy, writes);
      case Serve(_, _, _, _) => ServedIsSound(w, limits, a);
      case Halt =>
    }
  }

  lemma OfKept(s: State, limits: Limits)
    requires Kept(s, limits)
    ensures Valid(s, limits) && Provisioned(s)
  {
  }

  /** From the first start on, the state of a CA that runs is valid, belongs to agents of its
      directory, and is what its file holds; and a CA that is down finds a file that it can open. */
  lemma {:induction false} RunsAreSound(w: World, limits: Limits, actions: seq<Action>)
    requires Sound(w, limits) && Runs(w, limits, actions)
    ensures Sound(Outcome(w, limits, actions), limits)
    decreases |actions|
  {
    if actions == [] {
    } else {
      StepIsSound(w, limits, actions[0]);
      RunsAreSound(Step(w, limits, actions[0]), limits, actions[1..]);
    }
  }

  // ----- a restart loses nothing -----

  lemma NonEmptyWithout(subscriptions: Buckets, t: TypeId)
    requires t in subscriptions
    ensures NonEmpty(subscriptions - {t}) == if subscriptions[t] == [] then NonEmpty(subscriptions)
      else NonEmpty(subscriptions) - {t}
  {
    var others, kept := NonEmpty(subscriptions - {t}), NonEmpty(subscriptions);
    if subscriptions[t] == [] {
      assert others == kept;
    } else {
      assert others == kept - {t};
    }
  }

  lemma LeastOfFewer(fewer: set<TypeId>, keys: set<TypeId>)
    requires fewer <= keys && Injective(TypeRank) && keys != {} && Least(keys, TypeRank) in fewer
    ensures Least(fewer, TypeRank) == Least(keys, TypeRank)
  {
  }

  lemma {:induction false} FlattenedSkipsEmpty(subscriptions: Buckets)
    ensures Flattened(NonEmpty(subscriptions)) == Flattened(subscriptions)
    decreases |subscriptions|
  {
    RanksAreInjective();
    var kept := NonEmpty(subscriptions);
    if subscriptions == map[] {
      assert kept == map[];
    } else {
      var t := Least(subscriptions.Keys, TypeRank);
      var others := subscriptions - {t};
      Fewer(subscriptions, t);
      FlattenedSkipsEmpty(others);
      assert Flattened(subscriptions) == subscriptions[t] + Flattened(others);
      NonEmptyWithout(subscriptions, t);
      if subscriptions[t] != [] {
        LeastOfFewer(kept.Keys, subscriptions.Keys);
        assert Flattened(kept) == kept[t] + Flattened(kept - {t});
      }
    }
  }

  lemma SnapshotSkipsEmpty(s: State)
    ensures Encode(WithoutEmpty(s)) == Encode(s) && Verdict(WithoutEmpty(s), true) == Verdict(s, true)
  {
    hide Flattened, Listing, PutCounted;
    FlattenedSkipsEmpty(s.subscriptions);
  }

  lemma {:induction false} AllRetained(bucket: seq<Subscription>, s: State, keys: map<AgentId, PublicKeys>)
    requires forall x :: x in bucket ==> Unchanged(s, keys, x.subscriber)
    ensures Retained(bucket, s, keys) == bucket
  {
    if bucket == [] {
    } else {
      AllRetained(bucket[1..], s, keys);
      assert bucket == [bucket[0]] + bucket[1..];
    }
  }

  /** The directory that a state already has takes nothing from it but its empty buckets. */
  lemma SameDirectory(s: State)
    requires Provisioned(s)
    ensures Restricted(WithoutEmpty(s), s.keys) == WithoutEmpty(s)
  {
    var e := WithoutEmpty(s);
    forall t | t in e.subscriptions ensures Retained(e.subscriptions[t], e, s.keys) == e.subscriptions[t] {
      AllRetained(e.subscriptions[t], e, s.keys);
    }
    assert Restricted(e, s.keys).environments == e.environments;
    assert Restricted(e, s.keys).subscriptions == e.subscriptions;
    assert Restricted(e, s.keys).replay == e.replay;
  }

  lemma ReconciledSame(w: World, limits: Limits, s: State, configured: Directory, policy: Policy)
    requires Kept(s, limits) && Configurable(configured) && MapOf(configured) == s.keys && |configured| <= limits.agents
    ensures Reconciled(w, limits, WithoutEmpty(s), configured, policy, true)
         == World(Some(Encode(s)), Some(Service(WithoutEmpty(s), policy)))
  {
    hide Valid, WithoutEmpty, Encode, Configurable, Restricted, Countable;
    SameDirectory(s);
    SnapshotSkipsEmpty(s);
  }

  /** Stopping and starting again. */
  ghost function Restarted(w: World, limits: Limits, configured: Directory, policy: Policy): World
    requires w.service.Some? && FullDirectory(configured)
  {
    Step(Step(w, limits, Halt), limits, Start(configured, policy, true))
  }

  /** A CA that stops and starts with the directory it had goes on with every environment,
      subscription and replay entry it had, and with the same file. */
  lemma RestartLosesNothing(w: World, limits: Limits, configured: Directory, policy: Policy)
    requires Sound(w, limits) && w.service.Some? && FullDirectory(configured)
    requires Configurable(configured) && MapOf(configured) == w.service.value.state.keys
    requires |configured| <= limits.agents
    ensures Restarted(w, limits, configured, policy)
         == World(w.file, Some(Service(WithoutEmpty(w.service.value.state), policy)))
    ensures forall x: Subscription :: Claimable(WithoutEmpty(w.service.value.state), x) <==>
      Claimable(w.service.value.state, x)
  {
    hide Kept, WithoutEmpty, Encode, Opened, Configurable, Claimable, Reconciled, FullDirectory, MapOf, Valid;
    var s := w.service.value.state;
    ReloadedClaims(s);
    OpensAgain(w, limits);
    ReconciledSame(World(w.file, None), limits, s, configured, policy);
  }

  // ----- replay protection across restarts -----

  /** What the CA knows, or will know when it starts. */
  function Present(w: World, limits: Limits): Result<State, Error> {
    if w.service.Some? then Ok(w.service.value.state) else Opened(w.file, limits)
  }

  /** The session is marked until `expires`, and its agent has these keys. */
  predicate IsMarked(s: State, key: Key, keys: PublicKeys, expires: u64) {
    && key in s.replay && s.replay[key] == expires
    && key.sender in s.keys && s.keys[key.sender] == keys
  }

  predicate Remembers(w: World, limits: Limits, key: Key, keys: PublicKeys, expires: u64) {
    Present(w, limits).Ok? && IsMarked(Present(w, limits).value, key, keys, expires)
  }

  /** The directory lists the agent with these keys. */
  predicate ListedIn(configured: Directory, agent: AgentId, keys: PublicKeys) {
    Configurable(configured) ==> agent in MapOf(configured) && MapOf(configured)[agent] == keys
  }

  /** Every request comes before the expiry, and every directory lists the agent with its keys. */
  predicate Undisturbed(actions: seq<Action>, agent: AgentId, keys: PublicKeys, expires: u64) {
    && (forall a :: a in actions && a.Serve? ==> a.now < expires)
    && (forall a :: a in actions && (a.Start? || a.Reload?) ==> ListedIn(a.configured, agent, keys))
  }

  lemma ReconciledRemembers(w: World, limits: Limits, s: State, configured: Directory, policy: Policy, writes: bool,
                            key: Key, keys: PublicKeys, expires: u64)
    requires IsMarked(s, key, keys, expires) && ListedIn(configured, key.sender, keys)
    requires Present(w, limits) == Ok(s)
    ensures Remembers(Reconciled(w, limits, s, configured, policy, writes), limits, key, keys, expires)
  {
    hide Encode, Verdict, Opened, Retained, Configurable;
  }

  lemma ServedRemembers(s: State, limits: Limits, p: Policy, frame: seq<byte>, crypto: Crypto, now: u64,
                        failing: Failures,
                        key: Key, keys: PublicKeys, expires: u64)
    requires IsMarked(s, key, keys, expires) && now < expires
    ensures IsMarked(Process(s, limits, p, frame, crypto, now, failing).state, key, keys, expires)
  {
    hide Perform, ParseEnvelope, Verdict;
    var header := Authenticate(s, frame, crypto);
    if header.Ok? && MarkCommitted(s, limits, header.value, now, failing).Ok? && crypto.content.Ok? {
      PerformKeepsKeysAndReplay(MarkCommitted(s, limits, header.value, now, failing).value, limits, p, header.value,
        crypto.content.value, failing);
    }
  }

  lemma StepRemembers(w: World, limits: Limits, a: Action, key: Key, keys: PublicKeys, expires: u64)
    requires Sound(w, limits) && Enabled(w, a) && Undisturbed([a], key.sender, keys, expires)
    requires Remembers(w, limits, key, keys, expires)
    ensures Remembers(Step(w, limits, a), limits, key, keys, expires)
  {
    hide Sound, Process, Opened, Reconciled, Encode, ListedIn;
    assert a in [a];
    match a {
      case Start(configured, policy, writes) =>
        ReconciledRemembers(w, limits, Opened(w.file, limits).value, configured, policy, writes, key, keys, expires);
      case Reload(configured, policy, writes) =>
        ReconciledRemembers(w, limits, w.service.value.state, configured, policy, writes, key, keys, expires);
      case Serve(frame, crypto, now, failing) =>
        ServedRemembers(w.service.value.state, limits, w.service.value.policy, frame, crypto, now, failing, key, keys,
          expires);
      case Halt => OpensAgain(w, limits);
    }
  }

  lemma {:induction false} RunRemembers(w: World, limits: Limits, actions: seq<Action>, key: Key, keys: PublicKeys,
                                        expires: u64)
    requires Sound(w, limits) && Runs(w, limits, actions) && Undisturbed(actions, key.sender, keys, expires)
    requires Remembers(w, limits, key, keys, expires)
    ensures Remembers(Outcome(w, limits, actions), limits, key, keys, expires)
    decreases |actions|
  {
    hide Sound, Remembers, Step, Enabled, ListedIn;
    if actions == [] {
    } else {
      assert actions[0] in actions;
      StepRemembers(w, limits, actions[0], key, keys, expires);
      StepIsSound(w, limits, actions[0]);
      RunRemembers(Step(w, limits, actions[0]), limits, actions[1..], key, keys, expires);
    }
  }

  /** Replay protection of whole runs: once a request has been marked, every later request of the
      same session is rejected as a replay and changes nothing, through any number of other
      requests, failing commits, reloads, crashes and restarts, until the clock has shown the expiry
      or a directory has changed the keys of the agent. */
  lemma RunsRejectReplays(w: World, limits: Limits, first: Action, between: seq<Action>, again: Action)
    requires Sound(w, limits) && Runs(w, limits, [first] + between) && first.Serve? && again.Serve?
    requires Enabled(Outcome(w, limits, [first] + between), again)
    requires var s := w.service.value.state;
      && Authenticate(s, first.frame, first.crypto).Ok?
      && var h := Authenticate(s, first.frame, first.crypto).value;
         && MarkCommitted(s, limits, h, first.now, first.failing).Ok?
         && h.sender in s.keys
         && Undisturbed(between + [again], h.sender, s.keys[h.sender],
              if first.now + limits.ttl > 0xFFFF_FFFF_FFFF_FFFF then 0xFFFF_FFFF_FFFF_FFFF else first.now + limits.ttl)
    requires var h := Authenticate(w.service.value.state, first.frame, first.crypto).value;
      var later := Authenticate(Outcome(w, limits, [first] + between).service.value.state, again.frame, again.crypto);
      later.Ok? && later.value.sender == h.sender && later.value.session == h.session
    ensures var world := Outcome(w, limits, [first] + between);
      var s := world.service.value;
      Process(s.state, limits, s.policy, again.frame, again.crypto, again.now, again.failing)
        == Response(Err(Error.Replay), s.state)
  {
    hide Sound, ParseEnvelope, Perform, Verdict, Encode, Authenticate, ListedIn;
    var s := w.service.value.state;
    var h := Authenticate(s, first.frame, first.crypto).value;
    var key, keys, expires := Key(h.sender, h.session), s.keys[h.sender], Expiry(first.now, limits.ttl);
    assert ([first] + between)[0] == first && ([first] + between)[1..] == between;
    var next := Step(w, limits, first);
    MarkedAfter(s, limits, w.service.value.policy, first, h);
    StepIsSound(w, limits, first);
    assert Undisturbed(between, h.sender, keys, expires);
    assert again in between + [again];
    RunRemembers(next, limits, between, key, keys, expires);
  }

  lemma MarkedAfter(s: State, limits: Limits, p: Policy, a: Action, h: Header)
    requires a.Serve? && Authenticate(s, a.frame, a.crypto) == Ok(h) && h.sender in s.keys
    requires MarkCommitted(s, limits, h, a.now, a.failing).Ok?
    ensures var after := Process(s, limits, p, a.frame, a.crypto, a.now, a.failing).state;
      IsMarked(after, Key(h.sender, h.session), s.keys[h.sender], Expiry(a.now, limits.ttl))
  {
    hide Authenticate, Perform, Verdict;
    var marked := MarkCommitted(s, limits, h, a.now, a.failing).value;
    if a.crypto.content.Ok? {
      PerformKeepsKeysAndReplay(marked, limits, p, h, a.crypto.content.value, a.failing);
    }
  }
}
