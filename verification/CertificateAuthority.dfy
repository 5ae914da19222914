/** The engine of the CA over its store and its policy, step by step. */
module CertificateAuthority {
  import opened Bytes
  import opened Types
  import opened Parsing
  import opened Payload
  import opened PayloadSizes
  import opened PayloadCursor
  import PayloadWriter
  import opened Evaluation
  import opened Envelope
  import opened Replay
  import opened EnvironmentPolicy
  import opened StaticPolicy
  import opened Store
  import opened StoreProofs
  import opened Snapshot
  import opened PersistentStore
  import opened Engine
  import opened EngineTheorems

  class CertificateAuthority {
    const store: PersistentStore
    const policy: StaticEnvironmentPolicy

    /** The store has been reconciled with the configured agents. */
    ghost predicate Valid()
      reads this, store, policy
    {
      store.Valid() && Provisioned(store.state) && policy.Valid()
    }

    constructor (store: PersistentStore, policy: StaticEnvironmentPolicy)
      ensures this.store == store && this.policy == policy
    {
      this.store, this.policy := store, policy;
    }

    /** The stored environment of an agent as a view. What is stored parses, so the error returns of
        the source are out of reach here and in the methods below. */
    method StoredEnvironment(agent: AgentId) returns (view: Option<EnvironmentRef>)
      requires store.Valid()
      ensures view.Some? <==> EnvironmentOf(store.state, agent).Some?
      ensures view.Some? ==> Views(view.value, EnvironmentOf(store.state, agent).value)
    {
      if agent !in store.state.environments {
        return None;
      }
      var encoded := store.state.environments[agent];
      EnvironmentIsShort(encoded);
      EnvironmentIsUnique(encoded);
      EnvironmentBytes(encoded);
      var operation := PayloadCursor.ParseOperation(encoded);
      return Some(operation.value.environment);
    }

    method ValidateStoredEnvironment(agent: AgentId) returns (r: Result<(), Error>)
      requires store.Valid()
      ensures r == if ValidEnvironment(store.state, policy.State(), agent) then Ok(()) else Err(UnauthorizedEnvironment)
    {
      var environment := StoredEnvironment(agent);
      if environment.None? {
        return Err(UnauthorizedEnvironment);
      }
      var validated := policy.ValidateEnvironment(agent, environment.value, EnvironmentOf(store.state, agent).value);
      if validated.Err? {
        return Err(UnauthorizedEnvironment);
      }
      return Ok(());
    }

    method Process(frame: seq<byte>, crypto: Crypto, now: u64, failing: Failures) returns (r: Result<Answer, Error>)
      requires Valid() && (crypto.content.Ok? ==> |crypto.content.value| <= MAX_PLAINTEXT_LEN)
      modifies store
      ensures Valid() && (old(store.InSync()) ==> store.InSync())
      ensures Response(r, store.state)
           == Engine.Process(old(store.state), store.limits, policy.State(), frame, crypto, now, failing)
    {
      hide ParseEnvelope, Engine.Perform, Store.Valid, Provisioned, MarkSession, Durable, Verdict, Consistent, Encode;
      ProcessKeeps(store.state, store.limits, policy.State(), frame, crypto, now, failing);
      var envelope :- ParseEnvelope(frame);
      var h := envelope.header;
      if h.recipient != CA || h.sender == CA {
        return Err(WrongRecipient);
      }
      if h.messageType == MessageType.PublicationResponse {
        return Err(WrongMessageType);
      }
      var keys :- store.Keys(h.sender);
      if !crypto.signed {
        return Err(BadSignature);
      }
      MarkKeepsKeys(store.state, store.limits, Key(h.sender, h.session), now);
      var marked :- store.CheckAndMark(Key(h.sender, h.session), now, 0 !in failing);
      var plaintext :- crypto.content;
      r := Perform(h, plaintext, failing);
    }

    /** A request whose session is marked and whose content is open. */
    method Perform(h: Header, plaintext: seq<byte>, failing: Failures) returns (r: Result<Answer, Error>)
      requires Valid() && Known(store.state, h.sender) && |plaintext| <= MAX_PLAINTEXT_LEN
      modifies store
      ensures Valid() && (old(store.InSync()) ==> store.InSync())
      ensures Response(r, store.state)
           == Engine.Perform(old(store.state), store.limits, policy.State(), h, plaintext, failing)
    {
      hide Store.Valid, Provisioned, PutEnvironment, PutSubscription, Durable, Verdict, Encode, Consistent, Validate,
        EnvironmentOf, PublishAll,
        Payload.ParseOperation, ValidOperation, PutMany, Carries;
      if Payload.ParseOperation(plaintext).Ok? {
        ParsingIsCanonical(plaintext, Payload.ParseOperation(plaintext).value);
      }
      ghost var op := Payload.ParseOperation(plaintext);
      var operation :- PayloadCursor.ParseOperation(plaintext);
      match (h.messageType, operation) {
        case (SetEnvironment, EnvironmentOp(proposed)) =>
          if h.handler != NO_HANDLER {
            return Err(WrongHandler);
          }
          r := SetEnvironment(h.sender, proposed, plaintext, failing, op.value.attributes);
        case (Subscribe, SubscribeOp(typeId, _)) =>
          if h.handler == NO_HANDLER {
            return Err(WrongHandler);
          }
          r := Subscribe(Subscription(h.sender, typeId, h.handler, OneShot, plaintext), failing);
        case (SubscribePermanent, SubscribePermanentOp(typeId, _)) =>
          if h.handler == NO_HANDLER {
            return Err(WrongHandler);
          }
          r := Subscribe(Subscription(h.sender, typeId, h.handler, Permanent, plaintext), failing);
        case (Publish, PublishOp(typeId, audience, value)) =>
          if h.handler != NO_HANDLER {
            return Err(WrongHandler);
          }
          var environment := StoredEnvironment(h.sender);
          if environment.None? {
            return Err(Malformed);
          }
          ghost var m := Publication(h.sender, EnvironmentOf(store.state, h.sender).value, typeId, op.value.clauses,
            value);
          var validated := policy.ValidateEnvironment(h.sender, environment.value, m.attributes);
          if validated.Err? {
            return Err(UnauthorizedEnvironment);
          }
          CarriedPublication(op.value, m, environment.value, audience);
          r := Publish(h.sender, environment.value, typeId, audience, value, failing, m);
        case _ =>
          return Err(WrongMessageType);
      }
    }

    method SetEnvironment(sender: AgentId, proposed: EnvironmentRef, plaintext: seq<byte>, failing: Failures,
                          ghost attributes: seq<Attribute>) returns (r: Result<Answer, Error>)
      requires Valid() && Known(store.state, sender) && |plaintext| <= MAX_PLAINTEXT_LEN
      requires Payload.ParseOperation(plaintext) == Ok(Operation.SetEnvironment(attributes))
      requires |attributes| < 256 && proposed == EnvironmentView(attributes)
      modifies store
      ensures Valid() && (old(store.InSync()) ==> store.InSync())
      ensures Response(r, store.state) ==
        if Validate(policy.State(), sender, attributes).Err?
          then Response(Err(UnauthorizedEnvironment), old(store.state))
        else Updated(old(store.state), PutEnvironment(old(store.state), store.limits, sender, plaintext), 1 !in failing)
    {
      hide Store.Valid, Provisioned, PutEnvironment, Durable, Verdict, Encode, Consistent, Validate,
        Payload.ParseOperation, PutMany;
      ParsingIsCanonical(plaintext, Operation.SetEnvironment(attributes));
      AttributesAreShort(attributes);
      var current := StoredEnvironment(sender);
      var validated := policy.ValidateEnvironment(sender, proposed, attributes);
      if validated.Err? {
        return Err(UnauthorizedEnvironment);
      }
      if PutEnvironment(store.state, store.limits, sender, plaintext).Ok? {
        PutEnvironmentKeeps(store.state, store.limits, sender, plaintext);
      }
      var stored :- store.SetEnvironment(sender, plaintext, 1 !in failing);
      return Ok(Accepted);
    }

    method Subscribe(x: Subscription, failing: Failures) returns (r: Result<Answer, Error>)
      requires Valid() && Known(store.state, x.subscriber) && x.handler != NO_HANDLER
      modifies store
      ensures Valid() && (old(store.InSync()) ==> store.InSync())
      ensures Response(r, store.state) ==
        if !ValidEnvironment(old(store.state), policy.State(), x.subscriber)
          then Response(Err(UnauthorizedEnvironment), old(store.state))
        else Updated(old(store.state), PutSubscription(old(store.state), store.limits, x), 1 !in failing)
    {
      hide Store.Valid, Provisioned, PutSubscription, Durable, Verdict, Encode, Consistent, ValidEnvironment;
      var valid :- ValidateStoredEnvironment(x.subscriber);
      if PutSubscription(store.state, store.limits, x).Ok? {
        PutSubscriptionKeeps(store.state, store.limits, x);
      }
      var stored :- store.PutSubscription(x, 1 !in failing);
      return Ok(Accepted);
    }

    /** The loop over a snapshot of the bucket: each subscription reached is claimed before its
        delivery counts, and a claim that cannot be committed ends it. */
    method Publish(sender: AgentId, publisher: EnvironmentRef, typeId: TypeId, audience: PredicateRef, value: seq<byte>,
                   failing: Failures, ghost m: Publication) returns (r: Result<Answer, Error>)
      requires Valid() && Carries(m, sender, publisher, typeId, audience, value)
      modifies store
      ensures Valid() && (old(store.InSync()) ==> store.InSync())
      ensures Response(r, store.state) == PublishAll(old(store.state), policy.State(), m, failing)
    {
      hide Store.Valid, Provisioned, Durable, Verdict, Consistent, Reaches, Carries, Stored, Encode, Remaining,
        Midway, Claimable,
        DeliveryTo, ClaimFails, Satisfies, ClausesFit;
      ghost var s, p := store.state, policy.State();
      var subscriptions := store.SubscriptionsFor(typeId);
      CarriedType(m, sender, publisher, typeId, audience, value);
      BucketEntries(s, store.limits, typeId);
      BucketIsKnown(s, typeId);
      var deliveries: seq<Delivery> := [];
      MidwayStarts(s, p, m, subscriptions);
      for i := 0 to |subscriptions|
        invariant Valid() && (old(store.InSync()) ==> store.InSync())
        invariant store.state == Midway(s, p, m, subscriptions, i)
        invariant deliveries == DeliveriesTo(m, Reached(s, p, m, subscriptions[..i]))
        invariant Stop(s, p, m, failing, subscriptions, 0) == Stop(s, p, m, failing, subscriptions, i)
      {
        var x := subscriptions[i];
        assert x in subscriptions;
        MidwayStep(s, p, m, subscriptions, i);
        DeliveriesStep(s, p, m, subscriptions, i);
        StopStep(s, p, m, failing, subscriptions, i);
        var delivery := Consider(x, sender, publisher, typeId, audience, value, m);
        if delivery.Some? {
          ClaimedKeeps(store.state, store.limits, x);
          var claimed :- store.Claim(x, 1 + i !in failing);
          if claimed {
            deliveries := deliveries + [delivery.value];
          }
        }
      }
      assert subscriptions[..|subscriptions|] == subscriptions;
      return Ok(Deliveries(deliveries));
    }

    /** The delivery to one subscription of the type, if the publication reaches it. */
    method Consider(x: Subscription, sender: AgentId, publisher: EnvironmentRef, typeId: TypeId,
                    audience: PredicateRef, value: seq<byte>, ghost m: Publication)
      returns (delivery: Option<Delivery>)
      requires Valid() && Carries(m, sender, publisher, typeId, audience, value)
      requires GoodEntry(typeId, x) && Known(store.state, x.subscriber)
      ensures delivery == if Reaches(store.state, policy.State(), m, x) then Some(DeliveryTo(m, x)) else None
    {
      hide Provisioned, Durable, Consistent, Satisfies, Evaluates, Spec.AuthorizeDelivery, EnvironmentOf, PutMany;
      var wanted := StoredPredicate(x, typeId);
      EvaluationIsMeaning(m.attributes, ClausesOf(x));
      var matches := Evaluate(wanted, publisher);
      if !matches {
        return None;
      }
      var environment := StoredEnvironment(x.subscriber);
      if environment.None? {
        return None;
      }
      ghost var subscriber := EnvironmentOf(store.state, x.subscriber).value;
      EvaluationIsMeaning(subscriber, m.clauses);
      var included := Evaluate(audience, environment.value);
      if !included {
        return None;
      }
      var authorized := policy.AuthorizeDelivery(sender, publisher, x.subscriber, environment.value, typeId,
        m.attributes, subscriber);
      if !authorized {
        return None;
      }
      var keys := store.Keys(x.subscriber);
      assert keys.Ok?;
      var made := MakeDelivery(sender, x.subscriber, x.handler, typeId, value);
      return Some(made);
    }
  }

  ghost predicate Carries(m: Publication, sender: AgentId, publisher: EnvironmentRef, typeId: TypeId,
                          audience: PredicateRef, value: seq<byte>)
  {
    && m.sender == sender && m.typeId == typeId && m.value == value && |value| <= MAX_VALUE_BYTES
    && Views(publisher, m.attributes)
    && ClausesFit(m.clauses) && audience == PredicateView(m.clauses) && |audience.bytes| <= U64_MAX
  }

  lemma CarriedPublication(op: Operation, m: Publication, publisher: EnvironmentRef, audience: PredicateRef)
    requires op.Publish? && ValidOperation(op) && Views(publisher, m.attributes)
    requires m.typeId == op.typeId && m.clauses == op.clauses && m.value == op.value
    requires audience == PredicateView(op.clauses)
    ensures Carries(m, m.sender, publisher, op.typeId, audience, op.value)
  {
    PredicateIsShort(op.clauses);
  }

  lemma CarriedType(m: Publication, sender: AgentId, publisher: EnvironmentRef, typeId: TypeId,
                    audience: PredicateRef, value: seq<byte>)
    requires Carries(m, sender, publisher, typeId, audience, value)
    ensures m.typeId == typeId && |m.value| <= MAX_VALUE_BYTES
  {
  }

  /** The predicate of a stored subscription: its encoding is of the kind and the type it is stored under. */
  method StoredPredicate(x: Subscription, typeId: TypeId) returns (p: PredicateRef)
    requires GoodEntry(typeId, x)
    ensures ClausesFit(ClausesOf(x)) && p == PredicateView(ClausesOf(x)) && |p.bytes| <= U64_MAX
  {
    StoredIsShort(x);
    ParsingIsCanonical(x.encoded, Payload.ParseOperation(x.encoded).value);
    PredicateIsShort(ClausesOf(x));
    var operation := PayloadCursor.ParseOperation(x.encoded);
    assert x.kind == OneShot ==> operation.value.SubscribeOp?;
    assert x.kind == Permanent ==> operation.value.SubscribePermanentOp?;
    assert operation.value.typeId == typeId;
    return operation.value.filter;
  }

  /** The response in the buffer of a frame; sealing it is ideal. */
  method MakeDelivery(publisher: AgentId, recipient: AgentId, handler: HandlerId, typeId: TypeId, value: seq<byte>)
    returns (d: Delivery)
    requires |value| <= MAX_VALUE_BYTES
    ensures d == Delivery(recipient, handler, OperationBytes(Operation.PublicationResponse(typeId, publisher, value)))
  {
    OperationLength(Operation.PublicationResponse(typeId, publisher, value));
    var output := new byte[MAX_FRAME_LEN - HEADER_LEN](_ => 0);
    var length := PayloadWriter.EncodeResponse(output, typeId, publisher, value);
    return Delivery(recipient, handler, output[..length.value]);
  }

  /** Whether the publication stops at entry `i`, by the commit of its claim. */
  lemma StopStep(s: State, p: Policy, m: Publication, failing: Failures, bucket: seq<Subscription>, i: nat)
    requires i < |bucket|
    ensures var stops := Claims(s, p, m, bucket[i]) && Verdict(Midway(s, p, m, bucket, i + 1), 1 + i !in failing).Err?;
      && (stops <==> ClaimFails(s, p, m, failing, bucket, i))
      && Stop(s, p, m, failing, bucket, i) == (if stops then i else Stop(s, p, m, failing, bucket, i + 1))
  {
    hide Verdict, Reaches;
  }

  lemma BucketIsKnown(s: State, typeId: TypeId)
    requires Provisioned(s)
    ensures forall x :: x in BucketOf(s.subscriptions, typeId) ==> Known(s, x.subscriber)
  {
  }

  lemma MarkKeepsKeys(s: State, limits: Limits, key: Key, now: u64)
    requires Store.Valid(s, limits) && Provisioned(s) && key.sender in s.keys
    ensures var step := MarkSession(s, limits, key, now);
      step.Ok? ==> step.value.keys == s.keys && Known(step.value, key.sender) && Provisioned(step.value)
  {
  }

  lemma EnvironmentBytes(encoded: seq<byte>)
    requires IsEnvironment(encoded)
    ensures |AttributesOf(encoded)| < 256 && |EnvironmentView(AttributesOf(encoded)).bytes| <= 1104
  {
    EnvironmentIsUnique(encoded);
    AttributesAreShort(AttributesOf(encoded));
  }

  lemma AttributesAreShort(attributes: seq<Attribute>)
    requires |attributes| <= MAX_ATTRIBUTES && AttributesFit(attributes)
    ensures |PutAttributes(attributes, [])| <= 1104
  {
    AttributesLength(attributes, []);
  }

  lemma PredicateIsShort(clauses: seq<Clause>)
    requires ClausesFit(clauses)
    ensures |PutClauses(clauses, [])| <= 560
  {
    ClausesLength(clauses, []);
  }
}
