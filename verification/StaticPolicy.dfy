/** The policy object, and its construction from the configuration of the CA daemon. */
module StaticPolicy {
  import opened Bytes
  import opened Types
  import opened Parsing
  import opened Payload
  import opened PayloadCursor
  import opened Evaluation
  import opened Spec = EnvironmentPolicy
  import opened PolicyConfiguration
  import opened ConfigurationTheorems

  /** The step took place, or failed and changed nothing. */
  ghost predicate Stepped(step: Registered, r: Result<(), PolicyError>, before: Policy, after: Policy) {
    match step
    case Ok(next) => r == Ok(()) && after == next
    case Err(error) => r == Err(error) && after == before
  }

  /** The parsed environment that holds these attributes. */
  ghost predicate Views(environment: EnvironmentRef, attributes: seq<Attribute>) {
    && ValidOperation(Operation.SetEnvironment(attributes)) && environment == EnvironmentView(attributes)
    && |environment.bytes| <= U64_MAX
  }

  class StaticEnvironmentPolicy {
    var rules: map<AttributeId, Rule>
    var allowed: map<AttributeId, seq<Value>>
    var approvals: map<Approval, Value>
    var isolation: map<TypeId, seq<AttributeId>>
    var requirements: map<Requirement, seq<Value>>

    ghost function State(): Policy
      reads this
    {
      Policy(rules, allowed, approvals, isolation, requirements)
    }

    ghost predicate Valid()
      reads this
    {
      Consistent(State())
    }

    constructor ()
      ensures Valid() && State() == EMPTY
    {
      rules, allowed, approvals, isolation, requirements := map[], map[], map[], map[], map[];
    }

    method Register(id: AttributeId, kind: AttributeType, authority: Authority) returns (r: Result<(), PolicyError>)
      requires Valid()
      modifies this
      ensures Valid() && Stepped(RegisterRule(old(State()), id, Rule(kind, authority)), r, old(State()), State())
    {
      ghost var before := State();
      if id in rules {
        var existing := rules[id];
        if existing.kind != kind || existing.authority != authority {
          return Err(InvalidConfiguration);
        }
        return Ok(());
      }
      RegisterRuleKeeps(before, id, Rule(kind, authority));
      rules := rules[id := Rule(kind, authority)];
      return Ok(());
    }

    method AllowValue(id: AttributeId, v: Value) returns (r: Result<(), PolicyError>)
      requires Valid()
      modifies this
      ensures Valid() && Stepped(Spec.AllowValue(old(State()), id, v), r, old(State()), State())
    {
      if id !in rules {
        return Err(InvalidConfiguration);
      }
      if rules[id].kind != TypeOf(v) {
        return Err(InvalidConfiguration);
      }
      AllowValueKeeps(State(), id, v);
      var values := if id in allowed then allowed[id] else [];
      if v !in values {
        values := values + [v];
      }
      allowed := allowed[id := values];
      return Ok(());
    }

    /** Accepts the values that an environment may carry. What could not be put on the allow-list
        either is a fault of the configuration. For a CA-issued attribute the verdict is that on
        approving the value for an Agent. */
    method ValidateConfiguredValue(id: AttributeId, v: Value) returns (r: Result<(), PolicyError>)
      ensures r.Ok? <==> WellFormed(State(), Attribute(id, v))
      ensures r == Err(InvalidConfiguration) <==> Spec.AllowValue(State(), id, v).Err?
      ensures r.Err? ==> r.error == InvalidConfiguration || r.error == ValueNotAllowed
      ensures Issued(State(), id) ==> forall agent :: SameVerdict(r, Spec.Approve(State(), agent, id, v))
    {
      if id !in rules {
        return Err(InvalidConfiguration);
      }
      if rules[id].kind != TypeOf(v) {
        return Err(InvalidConfiguration);
      }
      if id in allowed && allowed[id] != [] && v !in allowed[id] {
        return Err(ValueNotAllowed);
      }
      return Ok(());
    }

    static predicate SameVerdict(r: Result<(), PolicyError>, step: Registered) {
      if r.Ok? then step.Ok? else step == Err(r.error)
    }

    method Approve(agent: AgentId, id: AttributeId, v: Value) returns (r: Result<(), PolicyError>)
      requires Valid()
      modifies this
      ensures Valid() && Stepped(Spec.Approve(old(State()), agent, id, v), r, old(State()), State())
    {
      if id !in rules {
        return Err(InvalidConfiguration);
      }
      if rules[id].authority != CaIssued {
        return Err(InvalidConfiguration);
      }
      var valid :- ValidateConfiguredValue(id, v);
      ApproveKeeps(State(), agent, id, v);
      approvals := approvals[Approval(agent, id) := v];
      return Ok(());
    }

    method Isolate(typeId: TypeId, ids: seq<AttributeId>) returns (r: Result<(), PolicyError>)
      requires Valid()
      modifies this
      ensures Valid() && Stepped(Spec.Isolate(old(State()), typeId, ids), r, old(State()), State())
    {
      if ids == [] || |ids| > MAX_CLAUSES {
        return Err(InvalidConfiguration);
      }
      for i := 0 to |ids|
        invariant State() == old(State()) && forall k :: 0 <= k < i ==> Issued(State(), ids[k])
      {
        if ids[i] !in rules || rules[ids[i]].authority != CaIssued {
          assert !Issued(State(), ids[i]);
          return Err(InvalidConfiguration);
        }
      }
      IsolateKeeps(State(), typeId, ids);
      isolation := isolation[typeId := ids];
      return Ok(());
    }

    method AllowSubscriberValue(typeId: TypeId, id: AttributeId, v: Value) returns (r: Result<(), PolicyError>)
      requires Valid()
      modifies this
      ensures Valid() && Stepped(Spec.AllowSubscriberValue(old(State()), typeId, id, v), r, old(State()), State())
    {
      if id !in rules {
        return Err(InvalidConfiguration);
      }
      if rules[id].authority != CaIssued || rules[id].kind != TypeOf(v) {
        return Err(InvalidConfiguration);
      }
      var valid :- ValidateConfiguredValue(id, v);
      AllowSubscriberValueKeeps(State(), typeId, id, v);
      var key := Requirement(typeId, id);
      var values := if key in requirements then requirements[key] else [];
      if v !in values {
        values := values + [v];
      }
      requirements := requirements[key := values];
      return Ok(());
    }

    method ValidateEnvironment(agent: AgentId, environment: EnvironmentRef, ghost attributes: seq<Attribute>)
      returns (r: Result<(), PolicyError>)
      requires Views(environment, attributes)
      ensures r == Validate(State(), agent, attributes)
    {
      var checked := CheckAttributes(agent, environment, attributes);
      if checked.Some? {
        return Err(checked.value);
      }
      var rest := approvals.Keys;
      while rest != {}
        invariant rest <= approvals.Keys
        invariant forall a :: a in approvals && a !in rest ==> !Missing(State(), agent, attributes, a)
        decreases rest
      {
        var a :| a in rest;
        rest := rest - {a};
        if a.agent == agent {
          ScanFinds(attributes, [], a.attribute);
          var candidate := Get(environment, a.attribute);
          if candidate.None? || candidate.value != approvals[a] {
            assert Missing(State(), agent, attributes, a);
            return Err(CaApprovalRequired);
          }
        }
      }
      return Ok(());
    }

    /** The loop over the attributes. */
    method CheckAttributes(agent: AgentId, environment: EnvironmentRef, ghost attributes: seq<Attribute>)
      returns (fault: Option<PolicyError>)
      requires Views(environment, attributes)
      ensures fault == FirstFault(State(), agent, attributes)
    {
      var iter := new EnvironmentIter(environment, attributes);
      var next := iter.Next();
      while next.Some?
        invariant iter.Valid() && fresh(iter) && fresh(iter.cursor)
        invariant next.None? ==> FirstFault(State(), agent, attributes) == None
        invariant next.Some? ==>
          FirstFault(State(), agent, attributes) == FirstFault(State(), agent, [next.value] + iter.left)
        decreases |iter.left| + if next.Some? then 1 else 0
      {
        var attribute := next.value;
        Regroup([], attribute, iter.left);
        var wrong := CheckAttribute(agent, attribute);
        if wrong.Some? {
          return wrong;
        }
        ghost var left := iter.left;
        next := iter.Next();
        if left != [] {
          Uncons(left);
        }
      }
      return None;
    }

    /** Both environments carry the same value. */
    method SameValue(publisher: EnvironmentRef, subscriber: EnvironmentRef, id: AttributeId,
                     ghost sent: seq<Attribute>, ghost received: seq<Attribute>) returns (same: bool)
      requires Views(publisher, sent) && Views(subscriber, received)
      ensures same == SameIn(sent, received, id)
    {
      ScanFinds(sent, [], id);
      ScanFinds(received, [], id);
      var left := Get(publisher, id);
      var right := Get(subscriber, id);
      same := left.Some? && right.Some? && left.value == right.value;
    }

    method AllowsDelivery(typeId: TypeId, publisher: EnvironmentRef, subscriber: EnvironmentRef,
                          ghost sent: seq<Attribute>, ghost received: seq<Attribute>) returns (allows: bool)
      requires Views(publisher, sent) && Views(subscriber, received)
      ensures allows == Spec.AllowsDelivery(State(), typeId, sent, received)
    {
      hide Lookup, PutMany;
      if typeId in isolation {
        var ids := isolation[typeId];
        for i := 0 to |ids|
          invariant forall k :: 0 <= k < i ==> SameIn(sent, received, ids[k])
        {
          var same := SameValue(publisher, subscriber, ids[i], sent, received);
          if !same {
            return false;
          }
        }
      }
      var rest := requirements.Keys;
      while rest != {}
        invariant rest <= requirements.Keys
        invariant forall r :: r in requirements && r !in rest && r.typeId == typeId ==>
          MeetsRequirement(requirements[r], received, r.attribute)
        decreases rest
      {
        var r :| r in rest;
        rest := rest - {r};
        if r.typeId == typeId {
          ScanFinds(received, [], r.attribute);
          var candidate := Get(subscriber, r.attribute);
          if candidate.None? || candidate.value !in requirements[r] {
            assert !MeetsRequirement(requirements[r], received, r.attribute);
            return false;
          }
        }
      }
      return true;
    }

    /** Both environments are validated again, and the delivery constraints applied. */
    method AuthorizeDelivery(publisherId: AgentId, publisher: EnvironmentRef,
                             subscriberId: AgentId, subscriber: EnvironmentRef, typeId: TypeId,
                             ghost sent: seq<Attribute>, ghost received: seq<Attribute>) returns (authorized: bool)
      requires Views(publisher, sent) && Views(subscriber, received)
      ensures authorized == Spec.AuthorizeDelivery(State(), publisherId, sent, subscriberId, received, typeId)
    {
      var validPublisher := ValidateEnvironment(publisherId, publisher, sent);
      if validPublisher.Err? {
        return false;
      }
      var validSubscriber := ValidateEnvironment(subscriberId, subscriber, received);
      if validSubscriber.Err? {
        return false;
      }
      authorized := AllowsDelivery(typeId, publisher, subscriber, sent, received);
    }

    method CheckAttribute(agent: AgentId, a: Attribute) returns (fault: Option<PolicyError>)
      ensures fault == AttributeFault(State(), agent, a)
    {
      if a.id !in rules {
        return Some(UnknownAttribute);
      }
      var rule := rules[a.id];
      if rule.kind != TypeOf(a.value) {
        return Some(WrongAttributeType);
      }
      if a.id in allowed && allowed[a.id] != [] && a.value !in allowed[a.id] {
        return Some(ValueNotAllowed);
      }
      var key := Approval(agent, a.id);
      if rule.authority == CaIssued && !(key in approvals && approvals[key] == a.value) {
        return Some(CaApprovalRequired);
      }
      return None;
    }
  }

  /** The daemon's policy is what the steps of its configuration make of the empty one. It is built
      exactly if the configuration is acceptable, and holds what is configured. */
  method BuildPolicy(config: PolicyConfig) returns (r: Result<StaticEnvironmentPolicy, PolicyError>)
    ensures r.Ok? <==> Acceptable(config)
    ensures r.Ok? ==> Holds(config, r.value.State())
    ensures match ApplyAll(EMPTY, StepsOf(config))
            case Ok(p) => r.Ok? && fresh(r.value) && r.value.Valid() && r.value.State() == p
            case Err(error) => r == Err(error)
  {
    BuiltPolicyIsExact(config);
    hide Apply, Consistent, Holds, Acceptable;
    var policy := new StaticEnvironmentPolicy();
    ghost var requirements := RequirementSteps(config.requirements, []);
    ghost var isolations := IsolationSteps(config.isolations, requirements);
    ghost var approvals := ApprovalSteps(config.approvals, isolations);
    var registered :- RegisterAttributes(policy, config.attributes, approvals);
    for i := 0 to |config.approvals|
      invariant policy.Valid()
      invariant ApplyAll(EMPTY, StepsOf(config))
        == ApplyAll(policy.State(), ApprovalSteps(config.approvals[i..], isolations))
    {
      var c := config.approvals[i];
      var approved :- Perform(policy, ApproveStep(c.agent, c.attribute, c.value),
        ApprovalSteps(config.approvals[i + 1..], isolations));
      assert config.approvals[i..][1..] == config.approvals[i + 1..];
    }
    for i := 0 to |config.isolations|
      invariant policy.Valid()
      invariant ApplyAll(EMPTY, StepsOf(config))
        == ApplyAll(policy.State(), IsolationSteps(config.isolations[i..], requirements))
    {
      var c := config.isolations[i];
      var isolated :- Perform(policy, IsolateStep(c.typeId, c.attributes),
        IsolationSteps(config.isolations[i + 1..], requirements));
      assert config.isolations[i..][1..] == config.isolations[i + 1..];
    }
    for i := 0 to |config.requirements|
      invariant policy.Valid()
      invariant ApplyAll(EMPTY, StepsOf(config))
        == ApplyAll(policy.State(), RequirementSteps(config.requirements[i..], []))
    {
      var c := config.requirements[i];
      var required :- RequireValues(policy, c, RequirementSteps(config.requirements[i + 1..], []));
      assert config.requirements[i..][1..] == config.requirements[i + 1..];
    }
    return Ok(policy);
  }

  /** One step; `rest` are the steps to come. */
  method Perform(policy: StaticEnvironmentPolicy, step: Step, ghost rest: seq<Step>)
    returns (r: Result<(), PolicyError>)
    requires policy.Valid()
    modifies policy
    ensures policy.Valid() && Stepped(Apply(old(policy.State()), step), r, old(policy.State()), policy.State())
    ensures r.Ok? ==> ApplyAll(old(policy.State()), [step] + rest) == ApplyAll(policy.State(), rest)
    ensures r.Err? ==> ApplyAll(old(policy.State()), [step] + rest) == Err(r.error)
  {
    hide ApplyAll, Consistent, RegisterRule, Spec.AllowValue, Spec.Approve, Spec.Isolate, Spec.AllowSubscriberValue;
    FirstStep(policy.State(), step, rest);
    match step {
      case RegisterStep(id, rule) => r := policy.Register(id, rule.kind, rule.authority);
      case AllowStep(id, v) =>
        if !ValueFits(v) {
          return Err(InvalidConfiguration);
        }
        r := policy.AllowValue(id, v);
      case ApproveStep(agent, id, v) =>
        if !ValueFits(v) {
          return Err(InvalidConfiguration);
        }
        r := policy.Approve(agent, id, v);
      case IsolateStep(typeId, ids) => r := policy.Isolate(typeId, ids);
      case RequireStep(typeId, id, v) =>
        if !ValueFits(v) {
          return Err(InvalidConfiguration);
        }
        r := policy.AllowSubscriberValue(typeId, id, v);
    }
  }

  /** The loops over attributes and their allow-lists. */
  method RegisterAttributes(policy: StaticEnvironmentPolicy, attributes: seq<AttributeConfig>, ghost rest: seq<Step>)
    returns (r: Result<(), PolicyError>)
    requires policy.Valid()
    modifies policy
    ensures policy.Valid()
    ensures r.Ok? ==> ApplyAll(old(policy.State()), AttributeSteps(attributes, rest)) == ApplyAll(policy.State(), rest)
    ensures r.Err? ==> ApplyAll(old(policy.State()), AttributeSteps(attributes, rest)) == Err(r.error)
  {
    hide Apply, Consistent;
    ghost var before := policy.State();
    for i := 0 to |attributes|
      invariant policy.Valid()
      invariant ApplyAll(before, AttributeSteps(attributes, rest))
        == ApplyAll(policy.State(), AttributeSteps(attributes[i..], rest))
    {
      var c := attributes[i];
      ghost var later := AttributeSteps(attributes[i + 1..], rest);
      assert attributes[i..][1..] == attributes[i + 1..];
      var registered :- Perform(policy, RegisterStep(c.id, Rule(c.kind, c.authority)),
        AllowSteps(c.id, c.allowed, later));
      var admitted :- AllowValues(policy, c, later);
    }
    return Ok(());
  }

  method AllowValues(policy: StaticEnvironmentPolicy, c: AttributeConfig, ghost rest: seq<Step>)
    returns (r: Result<(), PolicyError>)
    requires policy.Valid()
    modifies policy
    ensures policy.Valid()
    ensures r.Ok? ==> ApplyAll(old(policy.State()), AllowSteps(c.id, c.allowed, rest)) == ApplyAll(policy.State(), rest)
    ensures r.Err? ==> ApplyAll(old(policy.State()), AllowSteps(c.id, c.allowed, rest)) == Err(r.error)
  {
    hide Apply, Consistent;
    ghost var before := policy.State();
    for k := 0 to |c.allowed|
      invariant policy.Valid()
      invariant ApplyAll(before, AllowSteps(c.id, c.allowed, rest))
        == ApplyAll(policy.State(), AllowSteps(c.id, c.allowed[k..], rest))
    {
      assert c.allowed[k..][1..] == c.allowed[k + 1..];
      var admitted :- Perform(policy, AllowStep(c.id, c.allowed[k]), AllowSteps(c.id, c.allowed[k + 1..], rest));
    }
    return Ok(());
  }

  method RequireValues(policy: StaticEnvironmentPolicy, c: RequirementConfig, ghost rest: seq<Step>)
    returns (r: Result<(), PolicyError>)
    requires policy.Valid()
    modifies policy
    ensures policy.Valid()
    ensures r.Ok? ==>
      ApplyAll(old(policy.State()), ValueSteps(c.typeId, c.attribute, c.values, rest)) == ApplyAll(policy.State(), rest)
    ensures r.Err? ==> ApplyAll(old(policy.State()), ValueSteps(c.typeId, c.attribute, c.values, rest)) == Err(r.error)
  {
    hide Apply, Consistent;
    ghost var before := policy.State();
    for k := 0 to |c.values|
      invariant policy.Valid()
      invariant ApplyAll(before, ValueSteps(c.typeId, c.attribute, c.values, rest))
             == ApplyAll(policy.State(), ValueSteps(c.typeId, c.attribute, c.values[k..], rest))
    {
      assert c.values[k..][1..] == c.values[k + 1..];
      var required :- Perform(policy, RequireStep(c.typeId, c.attribute, c.values[k]),
        ValueSteps(c.typeId, c.attribute, c.values[k + 1..], rest));
    }
    return Ok(());
  }
}
