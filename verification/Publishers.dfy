/** Publications that are processed at the same time: each takes a snapshot of its bucket and goes
    through it entry by entry, while others do the same and the store is updated in between. */
module Publishers {
  import opened Types
  import opened EnvironmentPolicy
  import opened Store
  import opened Engine
  import C = Claims

  /** A publication at entry `position` of its snapshot. The entry is about to be claimed if it was
      found to be reached, `considered` transactions having taken place by then. A claim that could
      not be committed ends the publication without an answer. `delivered` are the subscriptions that
      it has a delivery for. */
  datatype Publisher = Publisher(
    m: Publication, policy: Policy, snapshot: seq<Subscription>, position: nat,
    considered: Option<nat>, failed: bool, delivered: seq<Subscription>)

  /** The delivery of a publisher for a subscription, which it found reached after `considered`
      transactions, and which transaction number `claim` claimed. */
  datatype Delivered = Delivered(publisher: nat, subscription: Subscription, considered: nat, claim: nat)

  datatype World = World(state: State, publishers: seq<Publisher>, history: seq<C.Transaction>, log: seq<Delivered>)

  datatype Action =
    | Begin(m: Publication, policy: Policy)
    | Consider(publisher: nat)
    | Claim(publisher: nat, commits: bool)
    | Update(event: C.Event, commits: bool)

  function Start(s: State): World { World(s, [], [], []) }

  predicate Enabled(w: World, a: Action) {
    match a
    case Begin(_, _) => true
    case Consider(k) => k < |w.publishers| && Going(w.publishers[k]) && w.publishers[k].considered.None?
    case Claim(k, _) => k < |w.publishers| && Going(w.publishers[k]) && w.publishers[k].considered.Some?
    case Update(event, _) => !event.ClaimAttempt?
  }

  predicate Going(p: Publisher) { !p.failed && p.position < |p.snapshot| }

  function Passed(p: Publisher): Publisher { p.(position := p.position + 1, considered := None) }

  ghost function Step(w: World, limits: Limits, a: Action): World
    requires Enabled(w, a)
  {
    match a
    case Begin(m, policy) =>
      var snapshot := BucketOf(w.state.subscriptions, m.typeId);
      w.(publishers := w.publishers + [Publisher(m, policy, snapshot, 0, None, false, [])])
    case Consider(k) =>
      var p := w.publishers[k];
      var next := if Reaches(w.state, p.policy, p.m, p.snapshot[p.position]) then p.(considered := Some(|w.history|))
        else Passed(p);
      w.(publishers := w.publishers[k := next])
    case Claim(k, commits) => AfterClaim(w, limits, k, commits)
    case Update(event, commits) => AfterUpdate(w, limits, event, commits)
  }

  ghost function AfterUpdate(w: World, limits: Limits, event: C.Event, commits: bool): World {
    w.(state := C.Next(w.state, limits, event, commits), history := w.history + [C.Transaction(event, commits)])
  }

  /** Only a one-shot that is there needs a commit. */
  ghost function AfterClaim(w: World, limits: Limits, k: nat, commits: bool): World
    requires Enabled(w, Claim(k, commits))
  {
    var p := w.publishers[k];
    var x := p.snapshot[p.position];
    var t := C.Transaction(C.ClaimAttempt(x), commits || x.kind == Permanent);
    var next := w.(state := C.Next(w.state, limits, t.event, t.commits), history := w.history + [t]);
    if C.Claims(w.state, t, x) then
      next.(publishers := w.publishers[k := Passed(p).(delivered := p.delivered + [x])],
            log := w.log + [Delivered(k, x, p.considered.value, |w.history|)])
    else if Claimable(w.state, x) then next.(publishers := w.publishers[k := p.(failed := true)])
    else next.(publishers := w.publishers[k := Passed(p)])
  }

  ghost predicate Runs(w: World, limits: Limits, actions: seq<Action>)
    decreases |actions|
  {
    actions != [] ==> Enabled(w, actions[0]) && Runs(Step(w, limits, actions[0]), limits, actions[1..])
  }

  ghost function Outcome(w: World, limits: Limits, actions: seq<Action>): World
    requires Runs(w, limits, actions)
    decreases |actions|
  {
    if actions == [] then w else Outcome(Step(w, limits, actions[0]), limits, actions[1..])
  }

  // ----- deliveries and claims -----

  function DeliveriesBy(log: seq<Delivered>, k: nat): seq<Subscription> {
    if log == [] then []
    else
      var last := log[|log| - 1];
      DeliveriesBy(log[..|log| - 1], k) + if last.publisher == k then [last.subscription] else []
  }

  function Copies(items: seq<Subscription>, x: Subscription): nat { multiset(items)[x] }

  /** The deliveries for a subscription over all publishers. */
  function DeliveriesFor(publishers: seq<Publisher>, x: Subscription): nat {
    if publishers == [] then 0
    else DeliveriesFor(publishers[..|publishers| - 1], x) + Copies(publishers[|publishers| - 1].delivered, x)
  }

  /** Every entry of the log is a successful claim of its subscription. */
  ghost predicate IsClaim(s: State, limits: Limits, history: seq<C.Transaction>, d: Delivered) {
    && d.claim < |history| && history[d.claim].event == C.ClaimAttempt(d.subscription)
    && C.Claims(C.After(s, limits, history[..d.claim]), history[d.claim], d.subscription)
  }

  ghost predicate OwnClaims(s: State, limits: Limits, w: World) {
    && (forall d :: d in w.log ==> IsClaim(s, limits, w.history, d) && d.publisher < |w.publishers|)
    && (forall i, j :: 0 <= i < j < |w.log| ==> w.log[i].claim < w.log[j].claim)
    && (forall k :: 0 <= k < |w.publishers| ==> w.publishers[k].delivered == DeliveriesBy(w.log, k))
  }

  ghost predicate Counted(s: State, limits: Limits, w: World) {
    && w.state == C.After(s, limits, w.history)
    && forall x :: DeliveriesFor(w.publishers, x) == C.Claimings(s, limits, w.history, x)
  }

  /** After that many transactions, the publisher's publication reached the subscription. */
  ghost predicate ReachedAt(s: State, limits: Limits, history: seq<C.Transaction>, p: Publisher, x: Subscription,
                            considered: nat)
  {
    considered <= |history| && Reaches(C.After(s, limits, history[..considered]), p.policy, p.m, x)
  }

  /** Every delivery, made or about to be claimed, is for a subscription found reached before its claim. */
  ghost predicate WereReached(s: State, limits: Limits, w: World) {
    && (forall d :: d in w.log ==>
          && d.publisher < |w.publishers| && d.considered <= d.claim
          && ReachedAt(s, limits, w.history, w.publishers[d.publisher], d.subscription, d.considered))
    && (forall k :: 0 <= k < |w.publishers| ==> AboutToClaim(s, limits, w.history, w.publishers[k]))
  }

  ghost predicate AboutToClaim(s: State, limits: Limits, history: seq<C.Transaction>, p: Publisher) {
    p.considered.Some? && Going(p) ==> ReachedAt(s, limits, history, p, p.snapshot[p.position], p.considered.value)
  }
}
