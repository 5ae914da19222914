/** What the answers of the CA guarantee. */
module EngineTheorems {
  import opened Bytes
  import opened Types
  import opened Payload
  import opened Evaluation
  import opened Envelope
  import opened Replay
  import opened EnvironmentPolicy
  import opened Store
  import opened StoreProofs
  import opened Snapshot
  import opened Engine

  // ----- publications -----

  lemma {:induction false} ReachedIs(s: State, p: Policy, m: Publication, bucket: seq<Subscription>)
    requires Sorted(bucket)
    ensures var reached := Reached(s, p, m, bucket);
      Sorted(reached) && |reached| <= |bucket| && forall x :: x in reached <==> x in bucket && Reaches(s, p, m, x)
  {
    hide Reaches;
    if bucket != [] {
      var n := |bucket| - 1;
      assert bucket == bucket[..n] + [bucket[n]];
      LastIsLargest(bucket[..n], bucket[n]);
      ReachedIs(s, p, m, bucket[..n]);
    }
  }

  lemma {:induction false} RemainingIs(s: State, p: Policy, m: Publication, bucket: seq<Subscription>)
    requires Sorted(bucket)
    ensures var left := Remaining(s, p, m, bucket);
      Sorted(left) && |left| <= |bucket|
      && forall x :: x in left <==> x in bucket && !(x.kind == OneShot && Reaches(s, p, m, x))
  {
    hide Reaches;
    if bucket != [] {
      var n := |bucket| - 1;
      assert bucket == bucket[..n] + [bucket[n]];
      LastIsLargest(bucket[..n], bucket[n]);
      RemainingIs(s, p, m, bucket[..n]);
    }
  }

  lemma LastIsLargest(front: seq<Subscription>, last: Subscription)
    requires Sorted(front + [last])
    ensures Sorted(front) && forall x :: x in front ==> Before(x, last)
  {
    var bucket := front + [last];
    assert forall i :: 0 <= i < |front| ==> bucket[i] == front[i] && Before(bucket[i], bucket[|front|]);
  }

  lemma ReachesByEnvironments(s: State, t: State, p: Policy, m: Publication, x: Subscription)
    requires s.environments == t.environments
    ensures Reaches(s, p, m, x) <==> Reaches(t, p, m, x)
  {
  }

  lemma WithoutMiddle(a: seq<Subscription>, x: Subscription, b: seq<Subscription>)
    requires x !in a
    ensures Without(a + [x] + b, x) == a + b
    decreases |a|
  {
    if a == [] {
      assert a + [x] + b == [x] + b && a + b == b;
    } else {
      WithoutMiddle(a[1..], x, b);
      assert (a + [x] + b)[1..] == a[1..] + [x] + b;
      assert a + b == [a[0]] + (a[1..] + b);
    }
  }

  lemma MidwayStarts(s: State, p: Policy, m: Publication, bucket: seq<Subscription>)
    requires bucket == BucketOf(s.subscriptions, m.typeId)
    ensures Midway(s, p, m, bucket, 0) == s
  {
    assert bucket[..0] == [] && bucket[0..] == bucket && [] + bucket == bucket;
    assert m.typeId in s.subscriptions ==> s.subscriptions[m.typeId := s.subscriptions[m.typeId]] == s.subscriptions;
  }

  lemma RemainingNext(s: State, p: Policy, m: Publication, bucket: seq<Subscription>, i: nat)
    requires i < |bucket|
    ensures Remaining(s, p, m, bucket[..i + 1])
         == Remaining(s, p, m, bucket[..i]) + if Claims(s, p, m, bucket[i]) then [] else [bucket[i]]
  {
    hide Reaches;
    assert bucket[..i + 1][..i] == bucket[..i];
  }

  /** The bucket at entry `i`: the entry has not been touched yet. */
  lemma BucketMidway(s: State, p: Policy, m: Publication, bucket: seq<Subscription>, i: nat)
    requires Sorted(bucket) && i < |bucket|
    ensures var x, left := bucket[i], Remaining(s, p, m, bucket[..i]);
      && left + bucket[i..] == left + [x] + bucket[i + 1..] && x !in left
      && Remaining(s, p, m, bucket[..i + 1]) == (if Claims(s, p, m, x) then left else left + [x])
  {
    hide Claims, Remaining, Before;
    var x := bucket[i];
    RemainingNext(s, p, m, bucket, i);
    assert bucket[i..] == [x] + bucket[i + 1..];
    assert Sorted(bucket[..i]);
    RemainingIs(s, p, m, bucket[..i]);
    SplitBucket(bucket, i, x);
    assert x in bucket[i..];
  }

  /** One round of the loop: the entry is still there, and claiming it if it is reached leads on. */
  lemma MidwayStep(s: State, p: Policy, m: Publication, bucket: seq<Subscription>, i: nat)
    requires bucket == BucketOf(s.subscriptions, m.typeId) && Sorted(bucket) && i < |bucket|
    requires bucket[i].typeId == m.typeId
    ensures var x, now := bucket[i], Midway(s, p, m, bucket, i);
      && Claimable(now, x) && now.environments == s.environments && now.keys == s.keys
      && (Reaches(now, p, m, x) <==> Reaches(s, p, m, x))
      && Midway(s, p, m, bucket, i + 1) == (if Reaches(s, p, m, x) then Claimed(now, x) else now)
  {
    hide Reaches, Remaining, Sorted, Without;
    var x, left := bucket[i], Remaining(s, p, m, bucket[..i]);
    var now := Midway(s, p, m, bucket, i);
    BucketMidway(s, p, m, bucket, i);
    WithoutMiddle(left, x, bucket[i + 1..]);
    ReachesByEnvironments(s, now, p, m, x);
    assert now.subscriptions[m.typeId] == left + [x] + bucket[i + 1..];
    assert x in left + [x];
  }

  lemma DeliveriesStep(s: State, p: Policy, m: Publication, bucket: seq<Subscription>, i: nat)
    requires i < |bucket| && |m.value| <= MAX_VALUE_BYTES
    ensures DeliveriesTo(m, Reached(s, p, m, bucket[..i + 1]))
         == DeliveriesTo(m, Reached(s, p, m, bucket[..i]))
           + (if Reaches(s, p, m, bucket[i]) then [DeliveryTo(m, bucket[i])] else [])
  {
    hide Reaches, DeliveryTo;
    assert bucket[..i + 1][..i] == bucket[..i];
  }

  /** What can be claimed when entry `i` is reached: the one-shots reached before it are gone. */
  lemma MidwayIs(s: State, limits: Limits, p: Policy, m: Publication, bucket: seq<Subscription>, i: nat)
    requires Valid(s, limits) && bucket == BucketOf(s.subscriptions, m.typeId) && i <= |bucket|
    ensures var t := Midway(s, p, m, bucket, i);
      && t.keys == s.keys && t.environments == s.environments && t.replay == s.replay
      && forall x :: Claimable(t, x) <==> Claimable(s, x) && !(x in bucket[..i] && Claims(s, p, m, x))
  {
    hide Reaches, Stored, Valid, Remaining, Before;
    BucketEntries(s, limits, m.typeId);
    assert Sorted(bucket[..i]);
    RemainingIs(s, p, m, bucket[..i]);
    var t, left := Midway(s, p, m, bucket, i), Remaining(s, p, m, bucket[..i]) + bucket[i..];
    assert m.typeId in s.subscriptions ==> t.subscriptions[m.typeId] == left;
    forall x ensures Claimable(t, x) <==> Claimable(s, x) && !(x in bucket[..i] && Claims(s, p, m, x)) {
      SplitBucket(bucket, i, x);
      assert x in left <==> x in Remaining(s, p, m, bucket[..i]) || x in bucket[i..];
    }
  }

  /** An entry is in one part of a sorted bucket, not in both. */
  lemma SplitBucket(bucket: seq<Subscription>, i: nat, x: Subscription)
    requires Sorted(bucket) && i <= |bucket|
    ensures x in bucket <==> x in bucket[..i] || x in bucket[i..]
    ensures !(x in bucket[..i] && x in bucket[i..])
  {
    assert bucket == bucket[..i] + bucket[i..];
    if x in bucket[..i] {
      var k :| 0 <= k < i && bucket[k] == x;
      assert forall j :: i <= j < |bucket| ==> Before(bucket[k], bucket[j]);
    }
  }

  /** A publication that passes its checks succeeds exactly if the claim of every one-shot it reaches
      can be committed. Then its deliveries go, in the order of the bucket, to exactly the
      subscriptions it reaches, one each; exactly the one-shots among these are gone afterwards; and
      nothing else changes. */
  lemma PublicationIsExact(s: State, limits: Limits, p: Policy, m: Publication, failing: Failures)
    requires Valid(s, limits) && |m.value| <= MAX_VALUE_BYTES
    ensures var bucket, r := BucketOf(s.subscriptions, m.typeId), PublishAll(s, p, m, failing);
      && (r.result.Ok? <==> forall i :: 0 <= i < |bucket| ==> !ClaimFails(s, p, m, failing, bucket, i))
      && (r.result.Ok? ==>
          && r.result.value.Deliveries?
          && r.result.value.deliveries == DeliveriesTo(m, Reached(s, p, m, bucket))
          && forall x :: Claimable(r.state, x) <==> Claimable(s, x) && !(x.typeId == m.typeId && Claims(s, p, m, x)))
      && Sorted(Reached(s, p, m, bucket)) && |Reached(s, p, m, bucket)| <= limits.subscriptions
      && (forall x :: x in Reached(s, p, m, bucket) <==> Claimable(s, x) && x.typeId == m.typeId && Reaches(s, p, m, x))
      && r.state.keys == s.keys && r.state.environments == s.environments && r.state.replay == s.replay
  {
    hide Reaches, Stored, Valid, Sorted, Reached, Midway, ClaimFails, ClaimVerdict;
    var bucket := BucketOf(s.subscriptions, m.typeId);
    BucketEntries(s, limits, m.typeId);
    ReachedIs(s, p, m, bucket);
    StopIs(s, p, m, failing, bucket, 0);
    MidwayIs(s, limits, p, m, bucket, Stop(s, p, m, failing, bucket, 0));
    assert bucket[..|bucket|] == bucket;
  }

  /** A publication that fails has been stopped by the claim of a one-shot it reaches, the first that
      cannot be committed. The one-shots it reached before are gone, all that can be claimed
      otherwise stays, and there is no delivery. */
  lemma FailureIsExact(s: State, limits: Limits, p: Policy, m: Publication, failing: Failures) returns (at: nat)
    requires Valid(s, limits) && |m.value| <= MAX_VALUE_BYTES && PublishAll(s, p, m, failing).result.Err?
    ensures var bucket, r := BucketOf(s.subscriptions, m.typeId), PublishAll(s, p, m, failing);
      && at < |bucket| && Claims(s, p, m, bucket[at]) && ClaimFails(s, p, m, failing, bucket, at)
      && Verdict(Claimed(r.state, bucket[at]), 1 + at !in failing) == Err(r.result.error)
      && (forall k :: 0 <= k < at ==> !ClaimFails(s, p, m, failing, bucket, k))
      && (forall x :: Claimable(r.state, x) <==> Claimable(s, x) && !(x in bucket[..at] && Claims(s, p, m, x)))
      && r.state == s.(subscriptions := r.state.subscriptions)
  {
    hide Reaches, Stored, Valid, Sorted, Reached, Encode, Countable;
    var bucket := BucketOf(s.subscriptions, m.typeId);
    at := Stop(s, p, m, failing, bucket, 0);
    BucketEntries(s, limits, m.typeId);
    StopIs(s, p, m, failing, bucket, 0);
    MidwayIs(s, limits, p, m, bucket, at);
    assert bucket[at] in bucket;
    MidwayStep(s, p, m, bucket, at);
  }

  /** Every delivery is the response that names the publisher, and its recipient and handler are
      those of a subscription of the type that was there and is reached. */
  lemma DeliveryHasItsSubscription(s: State, limits: Limits, p: Policy, m: Publication, failing: Failures, i: nat)
    requires Valid(s, limits) && |m.value| <= MAX_VALUE_BYTES && PublishAll(s, p, m, failing).result.Ok?
    requires var answer := PublishAll(s, p, m, failing).result.value; answer.Deliveries? && i < |answer.deliveries|
    ensures i < |Reached(s, p, m, BucketOf(s.subscriptions, m.typeId))|
    ensures var x, d := Reached(s, p, m, BucketOf(s.subscriptions, m.typeId))[i],
      PublishAll(s, p, m, failing).result.value.deliveries[i];
      && Claimable(s, x) && x.typeId == m.typeId && Reaches(s, p, m, x)
      && d.recipient == x.subscriber && d.handler == x.handler
      && ParseOperation(d.plaintext) == Ok(Operation.PublicationResponse(m.typeId, m.sender, m.value))
  {
    hide Reaches, Valid, PublishAll, Reached;
    PublicationIsExact(s, limits, p, m, failing);
    var x := Reached(s, p, m, BucketOf(s.subscriptions, m.typeId))[i];
    assert x in Reached(s, p, m, BucketOf(s.subscriptions, m.typeId));
    OperationRoundTrip(Operation.PublicationResponse(m.typeId, m.sender, m.value));
  }

  /** Whatever the predicates and the stored environments say: who receives a publication is in the
      publisher's domain for its type, by the approvals of the CA. */
  lemma DeliveriesStayInDomain(s: State, limits: Limits, p: Policy, m: Publication, x: Subscription)
    requires Valid(s, limits) && Consistent(p) && UniqueIds(m.attributes)
    requires x in Reached(s, p, m, BucketOf(s.subscriptions, m.typeId))
    ensures SameDomain(p, m.sender, x.subscriber, m.typeId)
  {
    hide Consistent, Validate, SameDomain, Satisfies, Stored;
    BucketEntries(s, limits, m.typeId);
    ReachedIs(s, p, m, BucketOf(s.subscriptions, m.typeId));
    assert Reaches(s, p, m, x);
    var subscriber := EnvironmentOf(s, x.subscriber).value;
    EnvironmentIsUnique(s.environments[x.subscriber]);
    AuthorizationIsByApprovals(p, m.sender, m.attributes, x.subscriber, subscriber, m.typeId);
  }

  lemma EnvironmentIsUnique(encoded: seq<byte>)
    requires IsEnvironment(encoded)
    ensures ValidOperation(Operation.SetEnvironment(AttributesOf(encoded))) && UniqueIds(AttributesOf(encoded))
  {
    ParsingIsCanonical(encoded, ParseOperation(encoded).value);
  }

  // ----- requests -----

  lemma {:induction false} MidwayKeeps(s: State, limits: Limits, p: Policy, m: Publication, bucket: seq<Subscription>,
                                       i: nat)
    requires Valid(s, limits) && Provisioned(s) && bucket == BucketOf(s.subscriptions, m.typeId) && i <= |bucket|
    ensures Valid(Midway(s, p, m, bucket, i), limits) && Provisioned(Midway(s, p, m, bucket, i))
  {
    hide Reaches, Stored, Valid, Provisioned, Midway, Claimed;
    if i == 0 {
      MidwayStarts(s, p, m, bucket);
    } else {
      MidwayKeeps(s, limits, p, m, bucket, i - 1);
      BucketEntries(s, limits, m.typeId);
      assert bucket[i - 1] in bucket;
      MidwayStep(s, p, m, bucket, i - 1);
      ClaimedKeeps(Midway(s, p, m, bucket, i - 1), limits, bucket[i - 1]);
    }
  }

  lemma PublishKeeps(s: State, limits: Limits, p: Policy, m: Publication, failing: Failures)
    requires Valid(s, limits) && Provisioned(s) && |m.value| <= MAX_VALUE_BYTES
    ensures Valid(PublishAll(s, p, m, failing).state, limits) && Provisioned(PublishAll(s, p, m, failing).state)
  {
    hide Valid, Provisioned, Midway;
    var bucket := BucketOf(s.subscriptions, m.typeId);
    MidwayKeeps(s, limits, p, m, bucket, Stop(s, p, m, failing, bucket, 0));
  }

  lemma PerformKeeps(s: State, limits: Limits, p: Policy, h: Header, plaintext: seq<byte>, failing: Failures)
    requires Valid(s, limits) && Provisioned(s) && Known(s, h.sender)
    ensures var r := Perform(s, limits, p, h, plaintext, failing); Valid(r.state, limits) && Provisioned(r.state)
  {
    hide Valid, Provisioned, Validate, ValidEnvironment, PutEnvironment, PutSubscription, EnvironmentOf,
      ParseOperation, Known,
      PublishAll, Verdict;
    var op := ParseOperation(plaintext);
    if PutEnvironment(s, limits, h.sender, plaintext).Ok? {
      PutEnvironmentKeeps(s, limits, h.sender, plaintext);
    }
    if op.Ok? && (op.value.Subscribe? || op.value.SubscribePermanent?) && h.handler != NO_HANDLER {
      var kind := if op.value.Subscribe? then OneShot else Permanent;
      var x := Subscription(h.sender, op.value.typeId, h.handler, kind, plaintext);
      if PutSubscription(s, limits, x).Ok? {
        PutSubscriptionKeeps(s, limits, x);
      }
    }
    if op.Ok? && op.value.Publish? && EnvironmentOf(s, h.sender).Some? {
      ParsingIsCanonical(plaintext, op.value);
      var environment := EnvironmentOf(s, h.sender).value;
      PublishKeeps(s, limits, p,
        Publication(h.sender, environment, op.value.typeId, op.value.clauses, op.value.value), failing);
    }
  }

  /** No request, however formed, whatever it is answered and whichever commits fail, leaves an
      invalid state. */
  lemma ProcessKeeps(s: State, limits: Limits, p: Policy, frame: seq<byte>, crypto: Crypto, now: u64, failing: Failures)
    requires Valid(s, limits) && Provisioned(s)
    ensures var r := Process(s, limits, p, frame, crypto, now, failing); Valid(r.state, limits) && Provisioned(r.state)
  {
    hide Valid, Provisioned, Perform, ParseEnvelope, Verdict;
    var header := Authenticate(s, frame, crypto);
    if header.Ok? {
      var key := Key(header.value.sender, header.value.session);
      if MarkSession(s, limits, key, now).Ok? {
        MarkSessionKeeps(s, limits, key, now);
        if crypto.content.Ok? {
          PerformKeeps(MarkSession(s, limits, key, now).value, limits, p, header.value, crypto.content.value, failing);
        }
      }
    }
  }

  /** A failed request has no effect but its mark and, if it is a publication whose claims cannot all
      be committed, the claims before; with an authentication error it has none at all. */
  lemma FailureHasNoOtherEffect(s: State, limits: Limits, p: Policy, frame: seq<byte>, crypto: Crypto, now: u64,
                                failing: Failures)
    requires Process(s, limits, p, frame, crypto, now, failing).result.Err?
    ensures var r := Process(s, limits, p, frame, crypto, now, failing);
      && r.state.keys == s.keys && r.state.environments == s.environments
      && (Authenticate(s, frame, crypto).Err?
           || MarkCommitted(s, limits, Authenticate(s, frame, crypto).value, now, failing).Err? ==>
            r.state == s)
      && (r.state.subscriptions != s.subscriptions ==>
            Authenticate(s, frame, crypto).Ok?
              && Authenticate(s, frame, crypto).value.messageType == MessageType.Publish)
  {
    hide ParseEnvelope, Validate, ParseOperation, Mark, EnvironmentOf, Verdict;
  }

  /** An accepted environment replaces the sender's own as a whole, after validation, and nothing else. */
  lemma EnvironmentTakesEffect(s: State, limits: Limits, p: Policy, h: Header, plaintext: seq<byte>, failing: Failures)
    requires h.messageType == MessageType.SetEnvironment && Perform(s, limits, p, h, plaintext, failing).result.Ok?
    ensures var next := Perform(s, limits, p, h, plaintext, failing).state;
      && h.handler == NO_HANDLER && IsEnvironment(plaintext) && Validate(p, h.sender, AttributesOf(plaintext)).Ok?
      && EnvironmentOf(next, h.sender) == Some(AttributesOf(plaintext))
      && (forall a :: a != h.sender ==> EnvironmentOf(next, a) == EnvironmentOf(s, a))
      && next == s.(environments := next.environments)
  {
    hide Validate, ParseOperation, PublishAll, PutSubscription, Verdict;
  }

  /** An accepted subscription is the committed update with the operation of the request. */
  lemma AcceptedSubscription(s: State, limits: Limits, p: Policy, h: Header, plaintext: seq<byte>, failing: Failures)
    returns (x: Subscription)
    requires Perform(s, limits, p, h, plaintext, failing).result.Ok?
    requires h.messageType in {MessageType.Subscribe, MessageType.SubscribePermanent}
    ensures Stored(x) && x.subscriber == h.sender && x.handler == h.handler != NO_HANDLER && x.encoded == plaintext
    ensures x.kind == OneShot <==> h.messageType == MessageType.Subscribe
    ensures ValidEnvironment(s, p, h.sender)
    ensures PutSubscription(s, limits, x) == Ok(Perform(s, limits, p, h, plaintext, failing).state)
  {
    hide ValidEnvironment, Validate, PublishAll, PutEnvironment, PutSubscription, ClausesFit, UniqueIds,
      AttributesFit, Verdict,
      ParseOperation, EnvironmentOf;
    var op := ParseOperation(plaintext).value;
    x := Subscription(h.sender, op.typeId, h.handler, if op.Subscribe? then OneShot else Permanent, plaintext);
  }

  /** An accepted subscription is there afterwards, in place of one with the same subscriber, type
      and handler; its subscriber has a valid environment; all others stay as they were. */
  lemma SubscriptionTakesEffect(s: State, limits: Limits, p: Policy, h: Header, plaintext: seq<byte>, failing: Failures)
    returns (x: Subscription)
    requires Valid(s, limits) && Perform(s, limits, p, h, plaintext, failing).result.Ok?
    requires h.messageType in {MessageType.Subscribe, MessageType.SubscribePermanent}
    ensures var next := Perform(s, limits, p, h, plaintext, failing).state;
      && Stored(x) && x.subscriber == h.sender && x.handler == h.handler != NO_HANDLER && x.encoded == plaintext
      && (x.kind == OneShot <==> h.messageType == MessageType.Subscribe)
      && ValidEnvironment(s, p, h.sender)
      && (forall y :: Claimable(next, y) <==> y == x || (Claimable(s, y) && !(y.typeId == x.typeId && SameSlot(y, x))))
      && next == s.(subscriptions := next.subscriptions)
  {
    hide Perform, Stored, ValidEnvironment;
    x := AcceptedSubscription(s, limits, p, h, plaintext, failing);
    BucketEntries(s, limits, x.typeId);
    UpsertIs(BucketOf(s.subscriptions, x.typeId), x);
  }

  /** Replaying a request before its mark expires is rejected and changes nothing, whatever the
      answer to it was, once the mark is committed. */
  lemma RepetitionIsRejected(s: State, limits: Limits, p: Policy, frame: seq<byte>, crypto: Crypto,
                             now: u64, failing: Failures, later: u64, failingLater: Failures)
    requires Authenticate(s, frame, crypto).Ok? && later < now + limits.ttl && later < 0xFFFF_FFFF_FFFF_FFFF
    requires MarkCommitted(s, limits, Authenticate(s, frame, crypto).value, now, failing).Ok?
    ensures var next := Process(s, limits, p, frame, crypto, now, failing).state;
      Process(next, limits, p, frame, crypto, later, failingLater) == Response(Err(Error.Replay), next)
  {
    hide ParseEnvelope, Perform, Verdict;
    var h := Authenticate(s, frame, crypto).value;
    var next := Process(s, limits, p, frame, crypto, now, failing).state;
    var marked := MarkSession(s, limits, Key(h.sender, h.session), now).value;
    assert next.keys == marked.keys == s.keys && next.replay == marked.replay by {
      if crypto.content.Ok? {
        PerformKeepsKeysAndReplay(marked, limits, p, h, crypto.content.value, failing);
      }
    }
    assert marked.replay[Key(h.sender, h.session)] == Expiry(now, limits.ttl);
  }

  lemma PerformKeepsKeysAndReplay(s: State, limits: Limits, p: Policy, h: Header, plaintext: seq<byte>,
                                  failing: Failures)
    ensures var next := Perform(s, limits, p, h, plaintext, failing).state;
      next.keys == s.keys && next.replay == s.replay
  {
    hide Validate, ParseOperation, EnvironmentOf, Stored, IsEnvironment, Count, Verdict;
  }
}
