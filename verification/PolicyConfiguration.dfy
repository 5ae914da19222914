/** The policy configuration of the CA daemon as the registration steps it stands for. */
module PolicyConfiguration {
  import opened Types
  import opened Payload
  import opened EnvironmentPolicy

  datatype AttributeConfig = AttributeConfig(id: AttributeId, kind: AttributeType, authority: Authority,
                                             allowed: seq<Value>)

  datatype ApprovalConfig = ApprovalConfig(agent: AgentId, attribute: AttributeId, value: Value)

  datatype IsolationConfig = IsolationConfig(typeId: TypeId, attributes: seq<AttributeId>)

  datatype RequirementConfig = RequirementConfig(typeId: TypeId, attribute: AttributeId, values: seq<Value>)

  datatype PolicyConfig = PolicyConfig(
    attributes: seq<AttributeConfig>,
    approvals: seq<ApprovalConfig>,
    isolations: seq<IsolationConfig>,
    requirements: seq<RequirementConfig>)

  datatype Step =
    | RegisterStep(id: AttributeId, rule: Rule)
    | AllowStep(id: AttributeId, value: Value)
    | ApproveStep(agent: AgentId, id: AttributeId, value: Value)
    | IsolateStep(typeId: TypeId, ids: seq<AttributeId>)
    | RequireStep(typeId: TypeId, id: AttributeId, value: Value)

  /** A configured byte string is bounded before it is registered. */
  function Apply(p: Policy, step: Step): Registered {
    match step
    case RegisterStep(id, rule) => RegisterRule(p, id, rule)
    case AllowStep(id, v) => if ValueFits(v) then AllowValue(p, id, v) else Err(InvalidConfiguration)
    case ApproveStep(agent, id, v) => if ValueFits(v) then Approve(p, agent, id, v) else Err(InvalidConfiguration)
    case IsolateStep(typeId, ids) => Isolate(p, typeId, ids)
    case RequireStep(typeId, id, v) => if ValueFits(v) then AllowSubscriberValue(p, typeId, id, v)
      else Err(InvalidConfiguration)
  }

  /** The steps in order; the first that fails decides. */
  function ApplyAll(p: Policy, steps: seq<Step>): Registered
    decreases |steps|
  {
    if steps == [] then Ok(p)
    else
      var q :- Apply(p, steps[0]);
      ApplyAll(q, steps[1..])
  }

  lemma FirstStep(p: Policy, step: Step, rest: seq<Step>)
    ensures Apply(p, step).Ok? ==> ApplyAll(p, [step] + rest) == ApplyAll(Apply(p, step).value, rest)
    ensures Apply(p, step).Err? ==> ApplyAll(p, [step] + rest) == Err(Apply(p, step).error)
  {
  }

  function AllowSteps(id: AttributeId, values: seq<Value>, rest: seq<Step>): seq<Step> {
    if values == [] then rest else [AllowStep(id, values[0])] + AllowSteps(id, values[1..], rest)
  }

  function AttributeSteps(attributes: seq<AttributeConfig>, rest: seq<Step>): seq<Step> {
    if attributes == [] then rest
    else
      var c := attributes[0];
      [RegisterStep(c.id, Rule(c.kind, c.authority))]
        + AllowSteps(c.id, c.allowed, AttributeSteps(attributes[1..], rest))
  }

  function ApprovalSteps(approvals: seq<ApprovalConfig>, rest: seq<Step>): seq<Step> {
    if approvals == [] then rest
    else
      var c := approvals[0];
      [ApproveStep(c.agent, c.attribute, c.value)] + ApprovalSteps(approvals[1..], rest)
  }

  function IsolationSteps(isolations: seq<IsolationConfig>, rest: seq<Step>): seq<Step> {
    if isolations == [] then rest
    else [IsolateStep(isolations[0].typeId, isolations[0].attributes)] + IsolationSteps(isolations[1..], rest)
  }

  function ValueSteps(typeId: TypeId, id: AttributeId, values: seq<Value>, rest: seq<Step>): seq<Step> {
    if values == [] then rest else [RequireStep(typeId, id, values[0])] + ValueSteps(typeId, id, values[1..], rest)
  }

  function RequirementSteps(requirements: seq<RequirementConfig>, rest: seq<Step>): seq<Step> {
    if requirements == [] then rest
    else
      var c := requirements[0];
      ValueSteps(c.typeId, c.attribute, c.values, RequirementSteps(requirements[1..], rest))
  }

  function StepsOf(config: PolicyConfig): seq<Step> {
    AttributeSteps(config.attributes, ApprovalSteps(config.approvals,
      IsolationSteps(config.isolations, RequirementSteps(config.requirements, []))))
  }

  /** No allow-list is extended once there are approvals. */
  predicate AllowedFirst(steps: seq<Step>, approved: bool) {
    steps == [] ||
    match steps[0]
    case AllowStep(_, _) => !approved && AllowedFirst(steps[1..], approved)
    case ApproveStep(_, _, _) => AllowedFirst(steps[1..], true)
    case _ => AllowedFirst(steps[1..], approved)
  }

  ghost predicate ApprovalsFit(p: Policy) {
    forall a :: a in p.approvals ==> ValueFits(p.approvals[a])
  }

  ghost predicate Sound(p: Policy) { Consistent(p) && ApprovalsAllowed(p) && ApprovalsFit(p) }

  lemma StepKeeps(p: Policy, step: Step)
    requires Consistent(p) && ApprovalsFit(p) && Apply(p, step).Ok?
    ensures var q := Apply(p, step).value; Consistent(q) && ApprovalsFit(q)
    ensures ApprovalsAllowed(p) && (step.AllowStep? ==> p.approvals == map[]) ==> ApprovalsAllowed(Apply(p, step).value)
    ensures !step.ApproveStep? ==> Apply(p, step).value.approvals == p.approvals
  {
    hide Consistent, ApprovalsAllowed;
    match step {
      case RegisterStep(id, rule) => RegisterRuleKeeps(p, id, rule);
      case AllowStep(id, v) => AllowValueKeeps(p, id, v);
      case ApproveStep(agent, id, v) => ApproveKeeps(p, agent, id, v);
      case IsolateStep(typeId, ids) => IsolateKeeps(p, typeId, ids);
      case RequireStep(typeId, id, v) => AllowSubscriberValueKeeps(p, typeId, id, v);
    }
  }

  /** Any run of steps keeps a policy consistent, and approvals allowed if allow-lists come first. */
  lemma {:induction false} StepsKeep(p: Policy, steps: seq<Step>, approved: bool)
    requires Consistent(p) && ApprovalsFit(p) && ApplyAll(p, steps).Ok?
    requires !approved ==> p.approvals == map[]
    ensures var q := ApplyAll(p, steps).value; Consistent(q) && ApprovalsFit(q)
    ensures ApprovalsAllowed(p) && AllowedFirst(steps, approved) ==> ApprovalsAllowed(ApplyAll(p, steps).value)
    decreases |steps|
  {
    hide Consistent, ApprovalsAllowed, ApprovalsFit, Apply;
    if steps != [] {
      StepKeeps(p, steps[0]);
      StepsKeep(Apply(p, steps[0]).value, steps[1..], approved || steps[0].ApproveStep?);
    }
  }

  lemma {:induction false} ValuesInOrder(typeId: TypeId, id: AttributeId, values: seq<Value>, rest: seq<Step>,
                                         approved: bool)
    requires AllowedFirst(rest, approved)
    ensures AllowedFirst(ValueSteps(typeId, id, values, rest), approved)
    ensures !approved ==> AllowedFirst(AllowSteps(id, values, rest), approved)
  {
    if values != [] {
      ValuesInOrder(typeId, id, values[1..], rest, approved);
    }
  }

  lemma {:induction false} RequirementsInOrder(requirements: seq<RequirementConfig>)
    ensures AllowedFirst(RequirementSteps(requirements, []), true)
  {
    if requirements != [] {
      var c := requirements[0];
      RequirementsInOrder(requirements[1..]);
      ValuesInOrder(c.typeId, c.attribute, c.values, RequirementSteps(requirements[1..], []), true);
    }
  }

  lemma {:induction false} IsolationsInOrder(isolations: seq<IsolationConfig>, rest: seq<Step>)
    requires AllowedFirst(rest, true)
    ensures AllowedFirst(IsolationSteps(isolations, rest), true)
  {
    if isolations != [] {
      IsolationsInOrder(isolations[1..], rest);
    }
  }

  lemma {:induction false} ApprovalsInOrder(approvals: seq<ApprovalConfig>, rest: seq<Step>, approved: bool)
    requires AllowedFirst(rest, true)
    ensures AllowedFirst(ApprovalSteps(approvals, rest), approved)
  {
    if approvals != [] {
      ApprovalsInOrder(approvals[1..], rest, true);
    } else {
      NoneAllowed(rest, approved);
    }
  }

  lemma {:induction false} NoneAllowed(steps: seq<Step>, approved: bool)
    requires AllowedFirst(steps, true)
    ensures AllowedFirst(steps, approved)
  {
    if steps != [] {
      NoneAllowed(steps[1..], approved);
    }
  }

  lemma {:induction false} AttributesInOrder(attributes: seq<AttributeConfig>, rest: seq<Step>)
    requires AllowedFirst(rest, false)
    ensures AllowedFirst(AttributeSteps(attributes, rest), false)
  {
    if attributes != [] {
      var c := attributes[0];
      AttributesInOrder(attributes[1..], rest);
      ValuesInOrder(0, c.id, c.allowed, AttributeSteps(attributes[1..], rest), false);
    }
  }

  lemma BuiltPolicyIsSound(config: PolicyConfig)
    requires ApplyAll(EMPTY, StepsOf(config)).Ok?
    ensures Sound(ApplyAll(EMPTY, StepsOf(config)).value)
  {
    var requirements := RequirementSteps(config.requirements, []);
    var isolations := IsolationSteps(config.isolations, requirements);
    RequirementsInOrder(config.requirements);
    IsolationsInOrder(config.isolations, requirements);
    ApprovalsInOrder(config.approvals, isolations, false);
    AttributesInOrder(config.attributes, ApprovalSteps(config.approvals, isolations));
    StepsKeep(EMPTY, StepsOf(config), false);
  }

  /** Whatever the configuration: if it is accepted, then for every agent with at most sixteen
      approvals the environment made of them can be encoded, and it validates. */
  lemma BuiltPolicyAcceptsApprovals(config: PolicyConfig, agent: AgentId, attributes: seq<Attribute>)
    requires ApplyAll(EMPTY, StepsOf(config)).Ok?
    requires PreciselyApprovals(ApplyAll(EMPTY, StepsOf(config)).value, agent, attributes)
    ensures Validate(ApplyAll(EMPTY, StepsOf(config)).value, agent, attributes).Ok?
    ensures |attributes| <= MAX_ATTRIBUTES ==> ValidOperation(Operation.SetEnvironment(attributes))
  {
    hide Apply, ApplyAll, StepsOf, Validate;
    var p := ApplyAll(EMPTY, StepsOf(config)).value;
    BuiltPolicyIsSound(config);
    ApprovalsValidate(p, agent, attributes);
    forall a | a in attributes ensures ValueFits(a.value) {
      assert a == Attribute(a.id, a.value);
      assert Approval(agent, a.id) in p.approvals;
    }
  }
}
