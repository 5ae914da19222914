/** The environment policy as a value: its registration steps, its decisions, and what they guarantee. */
module EnvironmentPolicy {
  import opened Types
  import opened Parsing
  import opened Payload
  import opened Evaluation

  datatype AttributeType = BoolType | I64Type | BytesType

  datatype Authority = SelfDeclared | CaIssued

  datatype Rule = Rule(kind: AttributeType, authority: Authority)

  datatype PolicyError =
    | UnknownAttribute
    | WrongAttributeType
    | CaApprovalRequired
    | ValueNotAllowed
    | InvalidConfiguration

  datatype Approval = Approval(agent: AgentId, attribute: AttributeId)

  datatype Requirement = Requirement(typeId: TypeId, attribute: AttributeId)

  datatype Policy = Policy(
    rules: map<AttributeId, Rule>,
    allowed: map<AttributeId, seq<Value>>,
    approvals: map<Approval, Value>,
    isolation: map<TypeId, seq<AttributeId>>,
    requirements: map<Requirement, seq<Value>>)

  const EMPTY: Policy := Policy(map[], map[], map[], map[], map[])

  function TypeOf(v: Value): AttributeType {
    match v case Bool(_) => BoolType case I64(_) => I64Type case Octets(_) => BytesType
  }

  // ----- registration -----

  type Registered = Result<Policy, PolicyError>

  predicate Issued(p: Policy, id: AttributeId) { id in p.rules && p.rules[id].authority == CaIssued }

  function AllowedFor(p: Policy, id: AttributeId): seq<Value> { if id in p.allowed then p.allowed[id] else [] }

  /** No allow-list admits every value. */
  predicate Allows(p: Policy, id: AttributeId, v: Value) { AllowedFor(p, id) == [] || v in AllowedFor(p, id) }

  function Including(values: seq<Value>, v: Value): seq<Value> { if v in values then values else values + [v] }

  function RegisterRule(p: Policy, id: AttributeId, rule: Rule): Registered {
    if id !in p.rules then Ok(p.(rules := p.rules[id := rule]))
    else if p.rules[id] == rule then Ok(p)
    else Err(InvalidConfiguration)
  }

  function AllowValue(p: Policy, id: AttributeId, v: Value): Registered {
    if id !in p.rules || p.rules[id].kind != TypeOf(v) then Err(InvalidConfiguration)
    else Ok(p.(allowed := p.allowed[id := Including(AllowedFor(p, id), v)]))
  }

  function Approve(p: Policy, agent: AgentId, id: AttributeId, v: Value): Registered {
    if !Issued(p, id) || p.rules[id].kind != TypeOf(v) then Err(InvalidConfiguration)
    else if !Allows(p, id, v) then Err(ValueNotAllowed)
    else Ok(p.(approvals := p.approvals[Approval(agent, id) := v]))
  }

  function Isolate(p: Policy, typeId: TypeId, ids: seq<AttributeId>): Registered {
    if ids == [] || |ids| > MAX_CLAUSES || (exists id :: id in ids && !Issued(p, id)) then Err(InvalidConfiguration)
    else Ok(p.(isolation := p.isolation[typeId := ids]))
  }

  function AllowSubscriberValue(p: Policy, typeId: TypeId, id: AttributeId, v: Value): Registered {
    var key := Requirement(typeId, id);
    if !Issued(p, id) || p.rules[id].kind != TypeOf(v) then Err(InvalidConfiguration)
    else if !Allows(p, id, v) then Err(ValueNotAllowed)
    else Ok(p.(requirements := p.requirements[key := Including(if key in p.requirements then p.requirements[key]
      else [], v)]))
  }

  /** What every registration step keeps: approvals, isolations and requirements are about
      CA-issued attributes, and configured values have the type of their attribute. */
  ghost predicate Consistent(p: Policy) {
    && (forall id :: id in p.allowed ==> id in p.rules && forall v :: v in p.allowed[id] ==>
         TypeOf(v) == p.rules[id].kind)
    && (forall a :: a in p.approvals ==> Issued(p, a.attribute) && TypeOf(p.approvals[a]) == p.rules[a.attribute].kind)
    && (forall t :: t in p.isolation ==> forall id :: id in p.isolation[t] ==> Issued(p, id))
    && (forall r :: r in p.requirements ==>
          Issued(p, r.attribute) && forall v :: v in p.requirements[r] ==> TypeOf(v) == p.rules[r.attribute].kind)
  }

  /** Every approved value is on the allow-list of its attribute. */
  ghost predicate ApprovalsAllowed(p: Policy) {
    forall a :: a in p.approvals ==> Allows(p, a.attribute, p.approvals[a])
  }

  lemma RegisterRuleKeeps(p: Policy, id: AttributeId, rule: Rule)
    requires Consistent(p) && RegisterRule(p, id, rule).Ok?
    ensures var q := RegisterRule(p, id, rule).value; Consistent(q) && (ApprovalsAllowed(p) ==> ApprovalsAllowed(q))
  {
    var q := RegisterRule(p, id, rule).value;
    assert q == p.(rules := q.rules);
    assert forall other :: other in p.rules ==> other in q.rules && q.rules[other] == p.rules[other];
    hide RegisterRule;
    assert forall other, w :: Allows(q, other, w) <==> Allows(p, other, w);
    hide Allows, AllowedFor;
  }

  /** The step that may break `ApprovalsAllowed`: it keeps it exactly if the attribute already had
      an allow-list, or all its approvals are of the value. */
  lemma AllowValueKeeps(p: Policy, id: AttributeId, v: Value)
    requires Consistent(p) && AllowValue(p, id, v).Ok?
    ensures Consistent(AllowValue(p, id, v).value)
    ensures ApprovalsAllowed(p) ==>
      (ApprovalsAllowed(AllowValue(p, id, v).value) <==>
        AllowedFor(p, id) != [] || forall a :: a in p.approvals && a.attribute == id ==> p.approvals[a] == v)
  {
    var q := AllowValue(p, id, v).value;
    assert forall w :: w in q.allowed[id] <==> w in AllowedFor(p, id) || w == v;
    assert forall w :: Allows(q, id, w) <==> w in AllowedFor(p, id) || w == v;
    assert forall other, w :: other != id ==> (Allows(q, other, w) <==> Allows(p, other, w));
  }

  lemma ApproveKeeps(p: Policy, agent: AgentId, id: AttributeId, v: Value)
    requires Consistent(p) && Approve(p, agent, id, v).Ok?
    ensures var q := Approve(p, agent, id, v).value; Consistent(q) && (ApprovalsAllowed(p) ==> ApprovalsAllowed(q))
  {
  }

  lemma IsolateKeeps(p: Policy, typeId: TypeId, ids: seq<AttributeId>)
    requires Consistent(p) && Isolate(p, typeId, ids).Ok?
    ensures var q := Isolate(p, typeId, ids).value; Consistent(q) && (ApprovalsAllowed(p) ==> ApprovalsAllowed(q))
  {
  }

  lemma AllowSubscriberValueKeeps(p: Policy, typeId: TypeId, id: AttributeId, v: Value)
    requires Consistent(p) && AllowSubscriberValue(p, typeId, id, v).Ok?
    ensures var q := AllowSubscriberValue(p, typeId, id, v).value;
      Consistent(q) && (ApprovalsAllowed(p) ==> ApprovalsAllowed(q))
  {
    var q, key := AllowSubscriberValue(p, typeId, id, v).value, Requirement(typeId, id);
    assert forall w :: w in q.requirements[key] <==> (key in p.requirements && w in p.requirements[key]) || w == v;
  }

  // ----- validation -----

  /** The first of the checks on a single attribute that fails. */
  function AttributeFault(p: Policy, agent: AgentId, a: Attribute): Option<PolicyError> {
    if a.id !in p.rules then Some(UnknownAttribute)
    else if p.rules[a.id].kind != TypeOf(a.value) then Some(WrongAttributeType)
    else if !Allows(p, a.id, a.value) then Some(ValueNotAllowed)
    else if p.rules[a.id].authority == CaIssued && !Approved(p, agent, a) then Some(CaApprovalRequired)
    else None
  }

  predicate Approved(p: Policy, agent: AgentId, a: Attribute) {
    Approval(agent, a.id) in p.approvals && p.approvals[Approval(agent, a.id)] == a.value
  }

  function FirstFault(p: Policy, agent: AgentId, attributes: seq<Attribute>): Option<PolicyError> {
    if attributes == [] then None
    else
      var fault := AttributeFault(p, agent, attributes[0]);
      if fault.Some? then fault else FirstFault(p, agent, attributes[1..])
  }

  /** The approval is the agent's, and the environment does not carry it. */
  predicate Missing(p: Policy, agent: AgentId, attributes: seq<Attribute>, a: Approval) {
    a in p.approvals && a.agent == agent && Lookup(attributes, a.attribute) != Some(p.approvals[a])
  }

  function Validate(p: Policy, agent: AgentId, attributes: seq<Attribute>): Result<(), PolicyError> {
    var fault := FirstFault(p, agent, attributes);
    if fault.Some? then Err(fault.value)
    else if exists a :: a in p.approvals && Missing(p, agent, attributes, a) then Err(CaApprovalRequired)
    else Ok(())
  }

  /** The CA-issued part of an environment is the agent's approvals. */
  ghost predicate CarriesApprovals(p: Policy, agent: AgentId, attributes: seq<Attribute>) {
    forall id, v ::
      (Attribute(id, v) in attributes && Issued(p, id)) <==>
      (Approval(agent, id) in p.approvals && p.approvals[Approval(agent, id)] == v)
  }

  predicate WellFormed(p: Policy, a: Attribute) {
    a.id in p.rules && p.rules[a.id].kind == TypeOf(a.value) && Allows(p, a.id, a.value)
  }

  lemma {:induction false} FirstFaultIs(p: Policy, agent: AgentId, attributes: seq<Attribute>)
    ensures FirstFault(p, agent, attributes) == None <==>
      forall a :: a in attributes ==> AttributeFault(p, agent, a) == None
  {
    if attributes != [] {
      FirstFaultIs(p, agent, attributes[1..]);
      Uncons(attributes);
    }
  }

  /** An environment validates exactly if its attributes are known, of the right type and allowed,
      and its CA-issued part is what the CA approved for the agent. */
  lemma ValidatesExactly(p: Policy, agent: AgentId, attributes: seq<Attribute>)
    requires Consistent(p) && UniqueIds(attributes)
    ensures Validate(p, agent, attributes).Ok? <==>
      (forall a :: a in attributes ==> WellFormed(p, a)) && CarriesApprovals(p, agent, attributes)
  {
    hide Consistent;
    FirstFaultIs(p, agent, attributes);
    forall id, v ensures Lookup(attributes, id) == Some(v) <==> Attribute(id, v) in attributes {
      LookupIsMembership(attributes, id, v);
    }
    if Validate(p, agent, attributes).Ok? {
      forall id, v ensures (Attribute(id, v) in attributes && Issued(p, id)) <==>
        (Approval(agent, id) in p.approvals && p.approvals[Approval(agent, id)] == v)
      {
        CarriedIfValid(p, agent, attributes, id, v);
      }
    } else if (forall a :: a in attributes ==> WellFormed(p, a)) && CarriesApprovals(p, agent, attributes) {
      FaultlessIfCarried(p, agent, attributes);
    }
  }

  lemma CarriedIfValid(p: Policy, agent: AgentId, attributes: seq<Attribute>, id: AttributeId, v: Value)
    requires Consistent(p) && Validate(p, agent, attributes).Ok?
    requires forall a :: a in attributes ==> AttributeFault(p, agent, a) == None
    requires Lookup(attributes, id) == Some(v) <==> Attribute(id, v) in attributes
    ensures (Attribute(id, v) in attributes && Issued(p, id)) <==>
      (Approval(agent, id) in p.approvals && p.approvals[Approval(agent, id)] == v)
  {
  }

  lemma FaultlessIfCarried(p: Policy, agent: AgentId, attributes: seq<Attribute>)
    requires forall a :: a in attributes ==> WellFormed(p, a)
    requires CarriesApprovals(p, agent, attributes)
    requires forall id, v :: Lookup(attributes, id) == Some(v) <==> Attribute(id, v) in attributes
    ensures Validate(p, agent, attributes).Ok?
  {
    FirstFaultIs(p, agent, attributes);
    forall a | a in attributes ensures AttributeFault(p, agent, a) == None {
      assert a == Attribute(a.id, a.value);
    }
    forall a | a in p.approvals ensures !Missing(p, agent, attributes, a) {
      if a.agent == agent {
        assert a == Approval(agent, a.attribute);
        assert Attribute(a.attribute, p.approvals[a]) in attributes;
      }
    }
  }

  /** The attribute breaks this rule, and none that comes before it. */
  predicate Breaks(p: Policy, agent: AgentId, a: Attribute, error: PolicyError) {
    var known := a.id in p.rules;
    var typed := known && p.rules[a.id].kind == TypeOf(a.value);
    var listed := AllowedFor(p, a.id) == [] || a.value in AllowedFor(p, a.id);
    match error
    case UnknownAttribute => !known
    case WrongAttributeType => known && !typed
    case ValueNotAllowed => typed && !listed
    case CaApprovalRequired => typed && listed && p.rules[a.id].authority == CaIssued && !Approved(p, agent, a)
    case InvalidConfiguration => false
  }

  /** Which error an environment is refused with: that of its first attribute that breaks a rule, and a
      missing approval only if there is none. */
  lemma {:induction false} FirstFaultIsFirst(p: Policy, agent: AgentId, attributes: seq<Attribute>)
    returns (first: nat)
    ensures first <= |attributes|
    ensures forall i, error :: 0 <= i < first ==> !Breaks(p, agent, attributes[i], error)
    ensures first < |attributes| ==>
      FirstFault(p, agent, attributes).Some?
      && Breaks(p, agent, attributes[first], FirstFault(p, agent, attributes).value)
    ensures first == |attributes| ==> FirstFault(p, agent, attributes) == None
  {
    if attributes == [] {
      first := 0;
    } else if AttributeFault(p, agent, attributes[0]).Some? {
      first := 0;
    } else {
      var later := FirstFaultIsFirst(p, agent, attributes[1..]);
      first := later + 1;
      forall i, error | 0 <= i < first ensures !Breaks(p, agent, attributes[i], error) {
        if i > 0 {
          assert attributes[i] == attributes[1..][i - 1];
        }
      }
    }
  }

  /** An environment is refused for its first attribute that breaks a rule, and with the error of that
      rule; if there is none, for an approval of the agent that it does not carry. */
  lemma RefusalIsExact(p: Policy, agent: AgentId, attributes: seq<Attribute>) returns (first: nat)
    requires UniqueIds(attributes)
    ensures first <= |attributes|
    ensures forall i, error :: 0 <= i < first ==> !Breaks(p, agent, attributes[i], error)
    ensures first < |attributes| ==>
      Validate(p, agent, attributes).Err? && Breaks(p, agent, attributes[first], Validate(p, agent, attributes).error)
    ensures first == |attributes| ==>
      Validate(p, agent, attributes) ==
        if exists a :: a in p.approvals && Uncarried(p, agent, attributes, a) then Err(CaApprovalRequired) else Ok(())
  {
    first := FirstFaultIsFirst(p, agent, attributes);
    forall a | a in p.approvals ensures Missing(p, agent, attributes, a) <==> Uncarried(p, agent, attributes, a) {
      LookupIsMembership(attributes, a.attribute, p.approvals[a]);
    }
    hide FirstFault, Breaks, Missing, Uncarried;
  }

  /** An approval of the agent for something that is not among the attributes. */
  predicate Uncarried(p: Policy, agent: AgentId, attributes: seq<Attribute>, a: Approval)
    requires a in p.approvals
  {
    a.agent == agent && Attribute(a.attribute, p.approvals[a]) !in attributes
  }

  /** Attributes that are precisely the approvals of an agent. */
  ghost predicate PreciselyApprovals(p: Policy, agent: AgentId, attributes: seq<Attribute>) {
    && UniqueIds(attributes)
    && forall id, v :: Attribute(id, v) in attributes <==>
         Approval(agent, id) in p.approvals && p.approvals[Approval(agent, id)] == v
  }

  /** Every value approved for the agent is on the allow-list of its attribute. */
  ghost predicate AgentAllowed(p: Policy, agent: AgentId) {
    forall a :: a in p.approvals && a.agent == agent ==> Allows(p, a.attribute, p.approvals[a])
  }

  /** The environment of an agent's approvals validates exactly if what was approved is still allowed. */
  lemma ApprovalsValidate(p: Policy, agent: AgentId, attributes: seq<Attribute>)
    requires Consistent(p) && PreciselyApprovals(p, agent, attributes)
    ensures Validate(p, agent, attributes).Ok? <==> AgentAllowed(p, agent)
    ensures ApprovalsAllowed(p) ==> Validate(p, agent, attributes).Ok?
  {
    hide Validate;
    ValidatesExactly(p, agent, attributes);
    forall a | a in attributes
      ensures Approval(agent, a.id) in p.approvals && p.approvals[Approval(agent, a.id)] == a.value
    {
      assert a == Attribute(a.id, a.value);
    }
    forall a | a in p.approvals && a.agent == agent ensures Attribute(a.attribute, p.approvals[a]) in attributes {
      assert a == Approval(agent, a.attribute);
    }
    if forall a :: a in attributes ==> WellFormed(p, a) {
      forall a | a in p.approvals && a.agent == agent ensures Allows(p, a.attribute, p.approvals[a]) {
        assert WellFormed(p, Attribute(a.attribute, p.approvals[a]));
      }
    }
  }

  /** Giving an attribute its first allow-list makes the approved environment of exactly those agents
      invalid whose approved value for the attribute is another one. */
  lemma FirstAllowListExcludes(p: Policy, id: AttributeId, v: Value, agent: AgentId, attributes: seq<Attribute>)
    requires Consistent(p) && AllowValue(p, id, v).Ok? && AllowedFor(p, id) == []
    requires PreciselyApprovals(p, agent, attributes) && Validate(p, agent, attributes).Ok?
    ensures Validate(AllowValue(p, id, v).value, agent, attributes).Ok? <==>
      (Approval(agent, id) in p.approvals ==> p.approvals[Approval(agent, id)] == v)
  {
    hide Validate;
    var q := AllowValue(p, id, v).value;
    AllowValueKeeps(p, id, v);
    ApprovalsValidate(p, agent, attributes);
    ApprovalsValidate(q, agent, attributes);
    assert forall w :: Allows(q, id, w) <==> w == v;
    assert forall other, w :: other != id ==> (Allows(q, other, w) <==> Allows(p, other, w));
    if Approval(agent, id) in p.approvals && AgentAllowed(q, agent) {
      assert Allows(q, id, p.approvals[Approval(agent, id)]);
    }
  }

  /** An instance: the policy that approves 1 and then starts an allow-list with 2. */
  lemma LateAllowListExcludes(agent: AgentId)
    ensures var p0 := RegisterRule(EMPTY, 1, Rule(I64Type, CaIssued)).value;
      var p1 := Approve(p0, agent, 1, I64(1));
      p1.Ok? &&
      var p2 := AllowValue(p1.value, 1, I64(2));
      p2.Ok? && PreciselyApprovals(p2.value, agent, [Attribute(1, I64(1))])
      && Validate(p2.value, agent, [Attribute(1, I64(1))]) == Err(ValueNotAllowed)
  {
  }

  // ----- delivery -----

  predicate SameIn(publisher: seq<Attribute>, subscriber: seq<Attribute>, id: AttributeId) {
    Lookup(publisher, id).Some? && Lookup(publisher, id) == Lookup(subscriber, id)
  }

  predicate MeetsRequirement(values: seq<Value>, subscriber: seq<Attribute>, id: AttributeId) {
    Lookup(subscriber, id).Some? && Lookup(subscriber, id).value in values
  }

  predicate AllowsDelivery(p: Policy, typeId: TypeId, publisher: seq<Attribute>, subscriber: seq<Attribute>) {
    && (typeId in p.isolation ==> forall id :: id in p.isolation[typeId] ==> SameIn(publisher, subscriber, id))
    && forall r :: r in p.requirements && r.typeId == typeId ==>
         MeetsRequirement(p.requirements[r], subscriber, r.attribute)
  }

  predicate AuthorizeDelivery(p: Policy, publisherId: AgentId, publisher: seq<Attribute>,
                              subscriberId: AgentId, subscriber: seq<Attribute>, typeId: TypeId)
  {
    && Validate(p, publisherId, publisher).Ok?
    && Validate(p, subscriberId, subscriber).Ok?
    && AllowsDelivery(p, typeId, publisher, subscriber)
  }

  function ApprovalOf(p: Policy, agent: AgentId, id: AttributeId): Option<Value> {
    if Approval(agent, id) in p.approvals then Some(p.approvals[Approval(agent, id)]) else None
  }

  /** The domains of two agents for a type, by what the CA approved alone. */
  predicate SameDomain(p: Policy, publisherId: AgentId, subscriberId: AgentId, typeId: TypeId) {
    && (typeId in p.isolation ==> forall id :: id in p.isolation[typeId] ==>
         ApprovalOf(p, publisherId, id).Some? && ApprovalOf(p, publisherId, id) == ApprovalOf(p, subscriberId, id))
    && forall r :: r in p.requirements && r.typeId == typeId ==>
         ApprovalOf(p, subscriberId, r.attribute).Some?
           && ApprovalOf(p, subscriberId, r.attribute).value in p.requirements[r]
  }

  /** In an environment that validates, a CA-issued attribute has the approved value. */
  lemma LookupIsApproval(p: Policy, agent: AgentId, attributes: seq<Attribute>, id: AttributeId)
    requires Consistent(p) && UniqueIds(attributes) && Validate(p, agent, attributes).Ok? && Issued(p, id)
    ensures Lookup(attributes, id) == ApprovalOf(p, agent, id)
  {
    hide Consistent, Validate;
    ValidatesExactly(p, agent, attributes);
    if Lookup(attributes, id).Some? {
      LookupIsMembership(attributes, id, Lookup(attributes, id).value);
    }
    if ApprovalOf(p, agent, id).Some? {
      assert Attribute(id, ApprovalOf(p, agent, id).value) in attributes;
      LookupIsMembership(attributes, id, ApprovalOf(p, agent, id).value);
    }
  }

  /** A delivery is authorised exactly if both environments validate and the two agents are in one
      domain; the predicates and the self-declared attributes have no say. */
  lemma AuthorizationIsByApprovals(p: Policy, publisherId: AgentId, publisher: seq<Attribute>,
                                   subscriberId: AgentId, subscriber: seq<Attribute>, typeId: TypeId)
    requires Consistent(p) && UniqueIds(publisher) && UniqueIds(subscriber)
    ensures AuthorizeDelivery(p, publisherId, publisher, subscriberId, subscriber, typeId) <==>
      && Validate(p, publisherId, publisher).Ok? && Validate(p, subscriberId, subscriber).Ok?
      && SameDomain(p, publisherId, subscriberId, typeId)
  {
    hide Validate;
    if Validate(p, publisherId, publisher).Ok? && Validate(p, subscriberId, subscriber).Ok? {
      forall id | Issued(p, id)
        ensures Lookup(publisher, id) == ApprovalOf(p, publisherId, id)
        ensures Lookup(subscriber, id) == ApprovalOf(p, subscriberId, id)
      {
        LookupIsApproval(p, publisherId, publisher, id);
        LookupIsApproval(p, subscriberId, subscriber, id);
      }
    }
  }
}
