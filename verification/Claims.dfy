/** Claims under any interleaving with the other transactions of the store. */
module Claims {
  import opened Bytes
  import opened Types
  import opened SortedMaps
  import opened Replay
  import opened Store
  import opened StoreProofs

  /** One transaction of the store. A claim may be of any subscription, since publishers work on
      snapshots of any age. */
  datatype Event =
    | Provisioning(agent: AgentId, keys: PublicKeys)
    | EnvironmentUpdate(agent: AgentId, encoded: seq<byte>)
    | Registration(subscription: Subscription)
    | ClaimAttempt(subscription: Subscription)
    | SessionMark(key: Key, now: u64)
    | Reconciliation(configured: seq<Entry<AgentId, PublicKeys>>)

  /** The next state; an operation that fails, or whose commit does, changes nothing. */
  ghost function Next(s: State, limits: Limits, e: Event, commits: bool): State {
    var update :=
      match e
      case Provisioning(agent, keys) => Provision(s, limits, agent, keys)
      case EnvironmentUpdate(agent, encoded) => PutEnvironment(s, limits, agent, encoded)
      case Registration(x) => PutSubscription(s, limits, x)
      case ClaimAttempt(x) => Ok(Claimed(s, x))
      case SessionMark(key, now) => MarkSession(s, limits, key, now)
      case Reconciliation(configured) => Reconcile(s, limits, configured);
    if update.Ok? && commits then update.value else s
  }

  datatype Transaction = Transaction(event: Event, commits: bool)

  ghost function After(s: State, limits: Limits, run: seq<Transaction>): State {
    if run == [] then s
    else
      var last := run[|run| - 1];
      Next(After(s, limits, run[..|run| - 1]), limits, last.event, last.commits)
  }

  ghost predicate Claims(s: State, t: Transaction, x: Subscription) {
    t.event == ClaimAttempt(x) && Claimable(s, x) && t.commits
  }

  ghost predicate Registers(s: State, limits: Limits, t: Transaction, x: Subscription) {
    t.event == Registration(x) && PutSubscription(s, limits, x).Ok? && t.commits
  }

  /** How often the subscription was claimed, and how often registered. */
  ghost function Claimings(s: State, limits: Limits, run: seq<Transaction>, x: Subscription): nat {
    if run == [] then 0
    else
      var front := run[..|run| - 1];
      Claimings(s, limits, front, x) + if Claims(After(s, limits, front), run[|run| - 1], x) then 1 else 0
  }

  ghost function Registrations(s: State, limits: Limits, run: seq<Transaction>, x: Subscription): nat {
    if run == [] then 0
    else
      var front := run[..|run| - 1];
      Registrations(s, limits, front, x)
      + if Registers(After(s, limits, front), limits, run[|run| - 1], x) then 1 else 0
  }

  function Present(s: State, x: Subscription): nat { if Claimable(s, x) then 1 else 0 }

  ghost predicate SortedBuckets(s: State) {
    forall t :: t in s.subscriptions ==> Sorted(s.subscriptions[t])
  }

  lemma NextIsSorted(s: State, limits: Limits, e: Event, commits: bool)
    requires SortedBuckets(s)
    ensures SortedBuckets(Next(s, limits, e, commits))
  {
    hide Stored, IsEnvironment, Mark, Sorted;
    match e {
      case Registration(x) =>
        EmptyIsSorted();
        UpsertIs(BucketOf(s.subscriptions, x.typeId), x);
      case ClaimAttempt(x) =>
        if Claimable(s, x) {
          WithoutIs(s.subscriptions[x.typeId], x);
        }
      case Reconciliation(configured) =>
        forall t | t in s.subscriptions ensures Sorted(Retained(s.subscriptions[t], s, MapOf(configured))) {
          RetainedIs(s.subscriptions[t], s, MapOf(configured));
        }
      case _ =>
    }
  }

  lemma EmptyIsSorted()
    ensures Sorted([])
  {
  }

  /** A transaction makes a one-shot present only by registering it, and a claim takes it away. */
  lemma PresenceChanges(s: State, limits: Limits, t: Transaction, x: Subscription)
    requires SortedBuckets(s) && x.kind == OneShot
    ensures Present(Next(s, limits, t.event, t.commits), x) + (if Claims(s, t, x) then 1 else 0)
         <= Present(s, x) + if Registers(s, limits, t, x) then 1 else 0
  {
    hide Stored, IsEnvironment, Mark, Sorted;
    EmptyIsSorted();
    match t.event {
      case Registration(y) => UpsertIs(BucketOf(s.subscriptions, y.typeId), y);
      case ClaimAttempt(y) =>
        if Claimable(s, y) {
          WithoutIs(s.subscriptions[y.typeId], y);
        }
      case Reconciliation(configured) =>
        if x.typeId in s.subscriptions {
          RetainedIs(s.subscriptions[x.typeId], s, MapOf(configured));
        }
      case _ =>
    }
  }

  /** However claims, registrations and reconciliations interleave: successful claims of a one-shot,
      and its presence at the end, are covered by its registrations and its presence at the start. */
  lemma {:induction false} ClaimsAreConserved(s: State, limits: Limits, run: seq<Transaction>, x: Subscription)
    requires SortedBuckets(s) && x.kind == OneShot
    ensures SortedBuckets(After(s, limits, run))
    ensures Claimings(s, limits, run, x) + Present(After(s, limits, run), x)
         <= Registrations(s, limits, run, x) + Present(s, x)
  {
    if run != [] {
      hide Next, Claims, Registers, Present, SortedBuckets;
      var front, last := run[..|run| - 1], run[|run| - 1];
      ClaimsAreConserved(s, limits, front, x);
      NextIsSorted(After(s, limits, front), limits, last.event, last.commits);
      PresenceChanges(After(s, limits, front), limits, last, x);
    }
  }
}
