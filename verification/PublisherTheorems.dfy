/** Deliveries of concurrent publications are claims, and claims are registrations. */
module PublisherTheorems {
  import opened Store
  import opened Engine
  import opened Publishers
  import C = Claims

  lemma {:induction false} DeliveriesReplaced(publishers: seq<Publisher>, k: nat, p: Publisher, x: Subscription)
    requires k < |publishers|
    ensures DeliveriesFor(publishers[k := p], x)
         == DeliveriesFor(publishers, x) - Copies(publishers[k].delivered, x) + Copies(p.delivered, x)
  {
    var n := |publishers| - 1;
    if k == n {
      assert publishers[k := p][..n] == publishers[..n];
    } else {
      assert publishers[k := p][..n] == publishers[..n][k := p];
      DeliveriesReplaced(publishers[..n], k, p, x);
    }
  }

  lemma HistoryGrows(s: State, limits: Limits, history: seq<C.Transaction>, t: C.Transaction, x: Subscription)
    ensures C.After(s, limits, history + [t]) == C.Next(C.After(s, limits, history), limits, t.event, t.commits)
    ensures C.Claimings(s, limits, history + [t], x)
         == C.Claimings(s, limits, history, x) + if C.Claims(C.After(s, limits, history), t, x) then 1 else 0
  {
    assert (history + [t])[..|history|] == history;
  }

  lemma {:induction false} NoDeliveries(log: seq<Delivered>, k: nat)
    requires forall d :: d in log ==> d.publisher < k
    ensures DeliveriesBy(log, k) == []
  {
    if log != [] {
      assert log[|log| - 1] in log;
      NoDeliveries(log[..|log| - 1], k);
    }
  }

  lemma LogGrows(log: seq<Delivered>, d: Delivered, k: nat)
    ensures DeliveriesBy(log + [d], k) == DeliveriesBy(log, k) + if d.publisher == k then [d.subscription] else []
  {
    assert (log + [d])[..|log|] == log;
  }

  lemma ClaimStays(s: State, limits: Limits, history: seq<C.Transaction>, t: C.Transaction, d: Delivered)
    requires IsClaim(s, limits, history, d)
    ensures IsClaim(s, limits, history + [t], d)
  {
    assert (history + [t])[..d.claim] == history[..d.claim];
  }

  /** Transactions by which nothing is claimed. */
  lemma HistoryKeeps(s: State, limits: Limits, w: World, t: C.Transaction)
    requires Counted(s, limits, w) && OwnClaims(s, limits, w) && forall x :: !C.Claims(w.state, t, x)
    ensures var next := w.(state := C.Next(w.state, limits, t.event, t.commits), history := w.history + [t]);
      Counted(s, limits, next) && OwnClaims(s, limits, next)
  {
    hide C.Next, C.Claimings, C.Claims, IsClaim, DeliveriesFor, DeliveriesBy;
    assert (w.history + [t])[..|w.history|] == w.history;
    forall x ensures C.Claimings(s, limits, w.history + [t], x) == C.Claimings(s, limits, w.history, x)
      && C.After(s, limits, w.history + [t]) == C.Next(w.state, limits, t.event, t.commits)
    {
      HistoryGrows(s, limits, w.history, t, x);
    }
    forall d | d in w.log ensures IsClaim(s, limits, w.history + [t], d) {
      ClaimStays(s, limits, w.history, t, d);
    }
  }

  lemma UpdateKeeps(s: State, limits: Limits, w: World, event: C.Event, commits: bool)
    requires Counted(s, limits, w) && OwnClaims(s, limits, w) && !event.ClaimAttempt?
    ensures Counted(s, limits, AfterUpdate(w, limits, event, commits))
    ensures OwnClaims(s, limits, AfterUpdate(w, limits, event, commits))
  {
    hide Counted, OwnClaims, C.Next;
    HistoryKeeps(s, limits, w, C.Transaction(event, commits));
  }

  /** Steps that touch neither the store nor a list of deliveries. */
  lemma QuietKeeps(s: State, limits: Limits, w: World, publishers: seq<Publisher>)
    requires Counted(s, limits, w) && OwnClaims(s, limits, w) && |publishers| >= |w.publishers|
    requires forall k :: 0 <= k < |w.publishers| ==> publishers[k].delivered == w.publishers[k].delivered
    requires forall k :: |w.publishers| <= k < |publishers| ==> publishers[k].delivered == []
    ensures Counted(s, limits, w.(publishers := publishers)) && OwnClaims(s, limits, w.(publishers := publishers))
  {
    hide IsClaim;
    forall x ensures DeliveriesFor(publishers, x) == DeliveriesFor(w.publishers, x) {
      SameDeliveries(w.publishers, publishers, x);
    }
    forall k | |w.publishers| <= k < |publishers| ensures DeliveriesBy(w.log, k) == [] {
      NoDeliveries(w.log, k);
    }
  }

  lemma {:induction false} SameDeliveries(a: seq<Publisher>, b: seq<Publisher>, x: Subscription)
    requires |a| <= |b| && forall k :: 0 <= k < |a| ==> a[k].delivered == b[k].delivered
    requires forall k :: |a| <= k < |b| ==> b[k].delivered == []
    ensures DeliveriesFor(a, x) == DeliveriesFor(b, x)
    decreases |b|
  {
    if |a| < |b| {
      SameDeliveries(a, b[..|b| - 1], x);
    } else if a != [] {
      SameDeliveries(a[..|a| - 1], b[..|b| - 1], x);
    }
  }

  /** A claim without success. */
  lemma MissKeeps(s: State, limits: Limits, w: World, k: nat, commits: bool)
    requires Counted(s, limits, w) && OwnClaims(s, limits, w) && Enabled(w, Claim(k, commits))
    requires var p := w.publishers[k]; var x := p.snapshot[p.position];
      !C.Claims(w.state, C.Transaction(C.ClaimAttempt(x), commits || x.kind == Permanent), x)
    ensures var next := AfterClaim(w, limits, k, commits); Counted(s, limits, next) && OwnClaims(s, limits, next)
  {
    hide Counted, OwnClaims, C.Next, Reaches;
    var p := w.publishers[k];
    var x := p.snapshot[p.position];
    var t := C.Transaction(C.ClaimAttempt(x), commits || x.kind == Permanent);
    var next := AfterClaim(w, limits, k, commits);
    HistoryKeeps(s, limits, w, t);
    QuietKeeps(s, limits, w.(state := next.state, history := next.history), next.publishers);
  }

  /** A successful claim adds one delivery and one claim of the same subscription. */
  lemma HitKeepsCount(s: State, limits: Limits, w: World, k: nat, commits: bool)
    requires Counted(s, limits, w) && Enabled(w, Claim(k, commits))
    requires var p := w.publishers[k]; var x := p.snapshot[p.position];
      C.Claims(w.state, C.Transaction(C.ClaimAttempt(x), commits || x.kind == Permanent), x)
    ensures Counted(s, limits, AfterClaim(w, limits, k, commits))
  {
    hide C.Next, Reaches;
    var p := w.publishers[k];
    var x := p.snapshot[p.position];
    var t := C.Transaction(C.ClaimAttempt(x), commits || x.kind == Permanent);
    var next := AfterClaim(w, limits, k, commits);
    forall y ensures DeliveriesFor(next.publishers, y) == C.Claimings(s, limits, next.history, y)
      && C.After(s, limits, next.history) == next.state
    {
      HistoryGrows(s, limits, w.history, t, y);
      DeliveriesReplaced(w.publishers, k, next.publishers[k], y);
      assert Copies(p.delivered + [x], y) == Copies(p.delivered, y) + if x == y then 1 else 0;
    }
  }

  lemma HitKeepsClaims(s: State, limits: Limits, w: World, k: nat, commits: bool)
    requires Counted(s, limits, w) && OwnClaims(s, limits, w) && Enabled(w, Claim(k, commits))
    requires var p := w.publishers[k]; var x := p.snapshot[p.position];
      C.Claims(w.state, C.Transaction(C.ClaimAttempt(x), commits || x.kind == Permanent), x)
    ensures OwnClaims(s, limits, AfterClaim(w, limits, k, commits))
  {
    hide C.Next, C.Claimings, Reaches, DeliveriesFor, DeliveriesBy;
    var p := w.publishers[k];
    var x := p.snapshot[p.position];
    var t := C.Transaction(C.ClaimAttempt(x), commits || x.kind == Permanent);
    var next, d := AfterClaim(w, limits, k, commits), Delivered(k, x, p.considered.value, |w.history|);
    assert next.history[..|w.history|] == w.history;
    forall e | e in next.log ensures IsClaim(s, limits, next.history, e) {
      if e in w.log {
        ClaimStays(s, limits, w.history, t, e);
      }
    }
    forall i, j | 0 <= i < j < |next.log| ensures next.log[i].claim < next.log[j].claim {
      assert w.log[i] in w.log;
    }
    forall i | 0 <= i < |next.publishers| ensures next.publishers[i].delivered == DeliveriesBy(next.log, i) {
      LogGrows(w.log, d, i);
    }
  }

  lemma StepKeeps(s: State, limits: Limits, w: World, a: Action)
    requires Counted(s, limits, w) && OwnClaims(s, limits, w) && Enabled(w, a)
    ensures Counted(s, limits, Step(w, limits, a)) && OwnClaims(s, limits, Step(w, limits, a))
  {
    hide Counted, OwnClaims, Reaches, C.Next;
    match a {
      case Begin(_, _) => QuietKeeps(s, limits, w, Step(w, limits, a).publishers);
      case Consider(_) => QuietKeeps(s, limits, w, Step(w, limits, a).publishers);
      case Claim(k, commits) =>
        var p := w.publishers[k];
        var x := p.snapshot[p.position];
        if C.Claims(w.state, C.Transaction(C.ClaimAttempt(x), commits || x.kind == Permanent), x) {
          HitKeepsCount(s, limits, w, k, commits);
          HitKeepsClaims(s, limits, w, k, commits);
        } else {
          MissKeeps(s, limits, w, k, commits);
        }
      case Update(event, commits) => UpdateKeeps(s, limits, w, event, commits);
    }
  }

  lemma ReachedStays(s: State, limits: Limits, history: seq<C.Transaction>, t: C.Transaction, p: Publisher,
                     x: Subscription, considered: nat)
    requires ReachedAt(s, limits, history, p, x, considered)
    ensures ReachedAt(s, limits, history + [t], p, x, considered)
  {
    assert (history + [t])[..considered] == history[..considered];
  }

  /** The history has grown, and no publisher has found anything new. */
  lemma HistoryKeepsReached(s: State, limits: Limits, w: World, t: C.Transaction)
    requires WereReached(s, limits, w)
    ensures WereReached(s, limits, w.(history := w.history + [t]))
  {
    hide ReachedAt;
    forall d | d in w.log
      ensures ReachedAt(s, limits, w.history + [t], w.publishers[d.publisher], d.subscription, d.considered)
    {
      ReachedStays(s, limits, w.history, t, w.publishers[d.publisher], d.subscription, d.considered);
    }
    forall k | 0 <= k < |w.publishers| ensures AboutToClaim(s, limits, w.history + [t], w.publishers[k]) {
      var p := w.publishers[k];
      assert AboutToClaim(s, limits, w.history, p);
      if p.considered.Some? && Going(p) {
        ReachedStays(s, limits, w.history, t, p, p.snapshot[p.position], p.considered.value);
      }
    }
  }

  /** A publisher changes to one of the same publication that is about to claim nothing unreached. */
  lemma PublisherKeepsReached(s: State, limits: Limits, w: World, k: nat, p: Publisher)
    requires WereReached(s, limits, w) && k < |w.publishers| && AboutToClaim(s, limits, w.history, p)
    requires p.m == w.publishers[k].m && p.policy == w.publishers[k].policy
    ensures WereReached(s, limits, w.(publishers := w.publishers[k := p]))
  {
    hide Reaches;
  }

  lemma ClaimKeepsReached(s: State, limits: Limits, w: World, k: nat, commits: bool)
    requires WereReached(s, limits, w) && Enabled(w, Claim(k, commits))
    ensures WereReached(s, limits, AfterClaim(w, limits, k, commits))
  {
    hide ReachedAt, C.Next, C.Claims;
    var p := w.publishers[k];
    var x := p.snapshot[p.position];
    var t := C.Transaction(C.ClaimAttempt(x), commits || x.kind == Permanent);
    var next := AfterClaim(w, limits, k, commits);
    assert AboutToClaim(s, limits, w.history, p);
    ReachedStays(s, limits, w.history, t, p, x, p.considered.value);
    HistoryKeepsReached(s, limits, w, t);
    PublisherKeepsReached(s, limits, w.(history := w.history + [t]), k, next.publishers[k]);
    ReachedByPublication(s, limits, next.history, p, next.publishers[k], x, p.considered.value);
    assert p.considered.value <= |w.history| by {
      ReachedIsPast(s, limits, w.history, p, x, p.considered.value);
    }
  }

  lemma ReachedIsPast(s: State, limits: Limits, history: seq<C.Transaction>, p: Publisher, x: Subscription,
                      considered: nat)
    requires ReachedAt(s, limits, history, p, x, considered)
    ensures considered <= |history|
  {
  }

  lemma ReachedByPublication(s: State, limits: Limits, history: seq<C.Transaction>, p: Publisher, q: Publisher,
                             x: Subscription, considered: nat)
    requires ReachedAt(s, limits, history, p, x, considered) && p.m == q.m && p.policy == q.policy
    ensures ReachedAt(s, limits, history, q, x, considered)
  {
  }

  lemma ConsiderKeepsReached(s: State, limits: Limits, w: World, k: nat)
    requires WereReached(s, limits, w) && Enabled(w, Consider(k)) && w.state == C.After(s, limits, w.history)
    ensures WereReached(s, limits, Step(w, limits, Consider(k)))
  {
    hide Reaches;
    assert w.history[..|w.history|] == w.history;
    PublisherKeepsReached(s, limits, w, k, Step(w, limits, Consider(k)).publishers[k]);
  }

  lemma StepKeepsReached(s: State, limits: Limits, w: World, a: Action)
    requires WereReached(s, limits, w) && Counted(s, limits, w) && Enabled(w, a)
    ensures WereReached(s, limits, Step(w, limits, a))
  {
    hide Reaches, C.Next;
    match a {
      case Begin(_, _) =>
      case Consider(k) => ConsiderKeepsReached(s, limits, w, k);
      case Claim(k, commits) => ClaimKeepsReached(s, limits, w, k, commits);
      case Update(event, commits) => HistoryKeepsReached(s, limits, w, C.Transaction(event, commits));
    }
  }

  lemma {:induction false} RunKeepsReached(s: State, limits: Limits, w: World, actions: seq<Action>)
    requires WereReached(s, limits, w) && Counted(s, limits, w) && OwnClaims(s, limits, w) && Runs(w, limits, actions)
    ensures WereReached(s, limits, Outcome(w, limits, actions))
    decreases |actions|
  {
    hide Counted, OwnClaims, WereReached, Step, Enabled;
    if actions != [] {
      StepKeeps(s, limits, w, actions[0]);
      StepKeepsReached(s, limits, w, actions[0]);
      RunKeepsReached(s, limits, Step(w, limits, actions[0]), actions[1..]);
    }
  }

  lemma {:induction false} RunKeeps(s: State, limits: Limits, w: World, actions: seq<Action>)
    requires Counted(s, limits, w) && OwnClaims(s, limits, w) && Runs(w, limits, actions)
    ensures Counted(s, limits, Outcome(w, limits, actions)) && OwnClaims(s, limits, Outcome(w, limits, actions))
    decreases |actions|
  {
    hide Counted, OwnClaims, Step, Enabled;
    if actions != [] {
      StepKeeps(s, limits, w, actions[0]);
      RunKeeps(s, limits, Step(w, limits, actions[0]), actions[1..]);
    }
  }

  /** In every run of concurrent publications, registrations, reconciliations and failing commits,
      every delivery of every publication is a successful claim of its own, of a subscription that the
      publication was found to reach before. */
  lemma DeliveriesHaveClaims(s: State, limits: Limits, actions: seq<Action>)
    requires Runs(Start(s), limits, actions)
    ensures OwnClaims(s, limits, Outcome(Start(s), limits, actions))
    ensures WereReached(s, limits, Outcome(Start(s), limits, actions))
  {
    RunKeeps(s, limits, Start(s), actions);
    RunKeepsReached(s, limits, Start(s), actions);
  }

  /** So the deliveries of a one-shot over all publications, and its presence at the end, are covered
      by its registrations and its presence at the start: no registration is delivered twice. */
  lemma DeliveriesAreConserved(s: State, limits: Limits, actions: seq<Action>, x: Subscription)
    requires C.SortedBuckets(s) && x.kind == OneShot && Runs(Start(s), limits, actions)
    ensures var w := Outcome(Start(s), limits, actions);
      DeliveriesFor(w.publishers, x) + C.Present(w.state, x)
        <= C.Registrations(s, limits, w.history, x) + C.Present(s, x)
  {
    hide C.SortedBuckets, C.Present;
    RunKeeps(s, limits, Start(s), actions);
    C.ClaimsAreConserved(s, limits, Outcome(Start(s), limits, actions).history, x);
  }
}
