/** Which policy configurations are accepted, what the policy holds that is built from one, and what
    it then decides, all in terms of the configuration. */
module ConfigurationTheorems {
  import opened Types
  import opened Payload
  import opened EnvironmentPolicy
  import opened PolicyConfiguration

  // ----- what is configured -----

  /** A configured value of the allow-list of the attribute. */
  predicate Listed(attributes: seq<AttributeConfig>, id: AttributeId, v: Value) {
    exists c :: c in attributes && c.id == id && v in c.allowed
  }

  /** The approval of the agent for the attribute that is configured last. */
  function LastApproval(approvals: seq<ApprovalConfig>, agent: AgentId, id: AttributeId): Option<Value> {
    if approvals == [] then None
    else
      var last := approvals[|approvals| - 1];
      if last.agent == agent && last.attribute == id then Some(last.value)
      else LastApproval(approvals[..|approvals| - 1], agent, id)
  }

  /** The isolation of the type that is configured last. */
  function LastIsolation(isolations: seq<IsolationConfig>, typeId: TypeId): Option<seq<AttributeId>> {
    if isolations == [] then None
    else
      var last := isolations[|isolations| - 1];
      if last.typeId == typeId then Some(last.attributes) else LastIsolation(isolations[..|isolations| - 1], typeId)
  }

  /** A configured value of the requirement on subscribers of the type. */
  predicate Demanded(requirements: seq<RequirementConfig>, typeId: TypeId, id: AttributeId, v: Value) {
    exists c :: c in requirements && c.typeId == typeId && c.attribute == id && v in c.values
  }

  // ----- what a policy holds -----

  ghost predicate RulesHold(attributes: seq<AttributeConfig>, p: Policy) {
    && (forall id :: id in p.rules ==> exists c :: c in attributes && c.id == id)
    && forall c :: c in attributes ==> c.id in p.rules && p.rules[c.id] == Rule(c.kind, c.authority)
  }

  ghost predicate AllowedHold(attributes: seq<AttributeConfig>, p: Policy) {
    forall id, v :: (id in p.allowed && v in p.allowed[id]) <==> Listed(attributes, id, v)
  }

  ghost predicate ApprovalsHold(approvals: seq<ApprovalConfig>, p: Policy) {
    forall agent, id :: ApprovalOf(p, agent, id) == LastApproval(approvals, agent, id)
  }

  ghost predicate IsolationsHold(isolations: seq<IsolationConfig>, p: Policy) {
    forall t :: IsolationOf(p, t) == LastIsolation(isolations, t)
  }

  function IsolationOf(p: Policy, t: TypeId): Option<seq<AttributeId>> {
    if t in p.isolation then Some(p.isolation[t]) else None
  }

  ghost predicate RequirementsHold(requirements: seq<RequirementConfig>, p: Policy) {
    && (forall r :: r in p.requirements ==> p.requirements[r] != [])
    && forall t, id, v :: IsRequired(p, t, id, v) <==> Demanded(requirements, t, id, v)
  }

  predicate IsRequired(p: Policy, t: TypeId, id: AttributeId, v: Value) {
    Requirement(t, id) in p.requirements && v in p.requirements[Requirement(t, id)]
  }

  /** The rules, the allow-lists and the requirements of the policy are exactly those configured, and
      each approval and each isolation is the last one configured for its key. */
  ghost predicate Holds(c: PolicyConfig, p: Policy) {
    && RulesHold(c.attributes, p) && AllowedHold(c.attributes, p) && ApprovalsHold(c.approvals, p)
    && IsolationsHold(c.isolations, p) && RequirementsHold(c.requirements, p)
  }

  // ----- which configurations are accepted -----

  /** Agrees with the attributes before it, and lists values of its own type. */
  predicate AcceptsAttribute(before: seq<AttributeConfig>, c: AttributeConfig) {
    && Agrees(before, c)
    && forall v :: v in c.allowed ==> ValueFits(v) && TypeOf(v) == c.kind
  }

  predicate Agrees(before: seq<AttributeConfig>, c: AttributeConfig) {
    forall d :: d in before && d.id == c.id ==> d.kind == c.kind && d.authority == c.authority
  }

  predicate IsIssued(attributes: seq<AttributeConfig>, id: AttributeId) {
    exists c :: c in attributes && c.id == id && c.authority == CaIssued
  }

  predicate IsOfKind(attributes: seq<AttributeConfig>, id: AttributeId, v: Value) {
    exists c :: c in attributes && c.id == id && c.kind == TypeOf(v)
  }

  /** No value is listed for the attribute, or this one is. */
  predicate IsAdmitted(attributes: seq<AttributeConfig>, id: AttributeId, v: Value) {
    Listed(attributes, id, v) || forall c :: c in attributes && c.id == id ==> c.allowed == []
  }

  /** The value may be approved or required: the attribute is issued by the CA, and the value is of its
      type, within the bounds and admitted. */
  predicate AcceptsValue(attributes: seq<AttributeConfig>, id: AttributeId, v: Value) {
    IsIssued(attributes, id) && IsOfKind(attributes, id, v) && ValueFits(v) && IsAdmitted(attributes, id, v)
  }

  predicate AcceptsIsolation(attributes: seq<AttributeConfig>, c: IsolationConfig) {
    0 < |c.attributes| <= 8 && forall id :: id in c.attributes ==> IsIssued(attributes, id)
  }

  predicate AcceptsRequirement(attributes: seq<AttributeConfig>, c: RequirementConfig) {
    forall v :: v in c.values ==> AcceptsValue(attributes, c.attribute, v)
  }

  predicate Acceptable(c: PolicyConfig) {
    && (forall i :: 0 <= i < |c.attributes| ==> AcceptsAttribute(c.attributes[..i], c.attributes[i]))
    && (forall a :: a in c.approvals ==> AcceptsValue(c.attributes, a.attribute, a.value))
    && (forall i :: i in c.isolations ==> AcceptsIsolation(c.attributes, i))
    && forall r :: r in c.requirements ==> AcceptsRequirement(c.attributes, r)
  }

  // ----- attributes -----

  lemma RegisterHolds(c: PolicyConfig, p: Policy, a: AttributeConfig)
    requires Holds(c, p) && a.allowed == []
    ensures RegisterRule(p, a.id, Rule(a.kind, a.authority)).Ok? <==> Agrees(c.attributes, a)
    ensures RegisterRule(p, a.id, Rule(a.kind, a.authority)).Ok? ==>
      Holds(c.(attributes := c.attributes + [a]), RegisterRule(p, a.id, Rule(a.kind, a.authority)).value)
  {
    hide ApprovalsHold, IsolationsHold, RequirementsHold;
    var more := c.attributes + [a];
    forall id, v ensures Listed(more, id, v) <==> Listed(c.attributes, id, v) {
      assert forall d :: d in more <==> d in c.attributes || d == a;
    }
    if a.id in p.rules {
      var d :| d in c.attributes && d.id == a.id;
    }
    if RegisterRule(p, a.id, Rule(a.kind, a.authority)).Ok? {
      KeepsOthers(c, p, RegisterRule(p, a.id, Rule(a.kind, a.authority)).value);
      assert a in more && forall d :: d in c.attributes ==> d in more;
    }
  }

  lemma KeepsOthers(c: PolicyConfig, p: Policy, q: Policy)
    requires q.approvals == p.approvals && q.isolation == p.isolation && q.requirements == p.requirements
    ensures ApprovalsHold(c.approvals, p) ==> ApprovalsHold(c.approvals, q)
    ensures IsolationsHold(c.isolations, p) ==> IsolationsHold(c.isolations, q)
    ensures RequirementsHold(c.requirements, p) ==> RequirementsHold(c.requirements, q)
  {
    forall agent, id ensures ApprovalOf(q, agent, id) == ApprovalOf(p, agent, id) {
    }
    forall t ensures IsolationOf(q, t) == IsolationOf(p, t) {
    }
    forall t, id, v ensures IsRequired(q, t, id, v) <==> IsRequired(p, t, id, v) {
    }
  }

  lemma AllowHolds(c: PolicyConfig, done: seq<AttributeConfig>, a: AttributeConfig, p: Policy, v: Value)
    requires Holds(c.(attributes := done + [a]), p)
    ensures Apply(p, AllowStep(a.id, v)).Ok? <==> ValueFits(v) && TypeOf(v) == a.kind
    ensures Apply(p, AllowStep(a.id, v)).Ok? ==>
      Holds(c.(attributes := done + [a.(allowed := a.allowed + [v])]), Apply(p, AllowStep(a.id, v)).value)
  {
    hide ApprovalsHold, IsolationsHold, RequirementsHold;
    var b := a.(allowed := a.allowed + [v]);
    var before, after := done + [a], done + [b];
    assert a in before && b in after;
    assert forall d :: d in before <==> d in done || d == a;
    assert forall d :: d in after <==> d in done || d == b;
    if Apply(p, AllowStep(a.id, v)).Ok? {
      var q := Apply(p, AllowStep(a.id, v)).value;
      KeepsOthers(c, p, q);
      forall id, w ensures Listed(after, id, w) <==> Listed(before, id, w) || (id == a.id && w == v) {
        MoreListed(done, a, v, id, w);
      }
      RulesStay(done, a, b, p);
    }
  }

  lemma RulesStay(done: seq<AttributeConfig>, a: AttributeConfig, b: AttributeConfig, p: Policy)
    requires RulesHold(done + [a], p) && b == a.(allowed := b.allowed)
    ensures RulesHold(done + [b], p)
  {
    assert a in done + [a] && b in done + [b];
    assert forall d :: d in done ==> d in done + [a] && d in done + [b];
  }

  lemma MoreListed(done: seq<AttributeConfig>, a: AttributeConfig, v: Value, id: AttributeId, w: Value)
    ensures Listed(done + [a.(allowed := a.allowed + [v])], id, w) <==>
      Listed(done + [a], id, w) || (id == a.id && w == v)
  {
    var b := a.(allowed := a.allowed + [v]);
    assert a in done + [a] && b in done + [b];
    assert forall d :: d in done ==> d in done + [a] && d in done + [b];
    assert w in b.allowed <==> w in a.allowed || w == v;
  }

  predicate OfType(kind: AttributeType, values: seq<Value>) {
    forall v :: v in values ==> ValueFits(v) && TypeOf(v) == kind
  }

  /** The steps of an allow-list. */
  lemma {:induction false} AllowApplies(c: PolicyConfig, done: seq<AttributeConfig>, a: AttributeConfig, p: Policy,
                                        values: seq<Value>, rest: seq<Step>) returns (q: Policy)
    requires Holds(c.(attributes := done + [a]), p)
    ensures OfType(a.kind, values) ==>
      && Holds(c.(attributes := done + [a.(allowed := a.allowed + values)]), q)
      && ApplyAll(p, AllowSteps(a.id, values, rest)) == ApplyAll(q, rest)
    ensures !OfType(a.kind, values) ==> ApplyAll(p, AllowSteps(a.id, values, rest)).Err?
    decreases |values|
  {
    hide Holds, Apply, ApplyAll;
    q := p;
    if values == [] {
      assert a.(allowed := a.allowed + []) == a;
    } else {
      var v := values[0];
      AllowHolds(c, done, a, p, v);
      FirstStep(p, AllowStep(a.id, v), AllowSteps(a.id, values[1..], rest));
      assert OfType(a.kind, values) <==> ValueFits(v) && TypeOf(v) == a.kind && OfType(a.kind, values[1..]) by {
        assert values == [v] + values[1..];
      }
      if Apply(p, AllowStep(a.id, v)).Ok? {
        var b := a.(allowed := a.allowed + [v]);
        q := AllowApplies(c, done, b, Apply(p, AllowStep(a.id, v)).value, values[1..], rest);
        assert b.allowed + values[1..] == a.allowed + values;
        assert b.(allowed := b.allowed + values[1..]) == a.(allowed := a.allowed + values);
      }
    }
  }

  predicate AcceptsAttributes(before: seq<AttributeConfig>, todo: seq<AttributeConfig>)
    decreases |todo|
  {
    todo != [] ==> AcceptsAttribute(before, todo[0]) && AcceptsAttributes(before + [todo[0]], todo[1..])
  }

  lemma {:induction false} AcceptsEach(before: seq<AttributeConfig>, todo: seq<AttributeConfig>)
    ensures AcceptsAttributes(before, todo) <==>
      forall i :: 0 <= i < |todo| ==> AcceptsAttribute(before + todo[..i], todo[i])
    decreases |todo|
  {
    hide AcceptsAttribute;
    if todo == [] {
    } else {
      AcceptsEach(before + [todo[0]], todo[1..]);
      assert before + todo[..0] == before;
      forall i | 0 < i < |todo| ensures before + todo[..i] == before + [todo[0]] + todo[1..][..i - 1] {
        assert todo[..i] == [todo[0]] + todo[1..][..i - 1];
      }
      if AcceptsAttributes(before, todo) {
        forall i | 0 <= i < |todo| ensures AcceptsAttribute(before + todo[..i], todo[i]) {
          if i > 0 {
            assert todo[i] == todo[1..][i - 1];
          }
        }
      }
    }
  }

  /** The steps of the attributes. */
  lemma {:induction false} AttributesApply(c: PolicyConfig, p: Policy, todo: seq<AttributeConfig>, rest: seq<Step>)
    returns (q: Policy)
    requires Holds(c, p)
    ensures AcceptsAttributes(c.attributes, todo) ==>
      && Holds(c.(attributes := c.attributes + todo), q)
      && ApplyAll(p, AttributeSteps(todo, rest)) == ApplyAll(q, rest)
    ensures !AcceptsAttributes(c.attributes, todo) ==> ApplyAll(p, AttributeSteps(todo, rest)).Err?
    decreases |todo|
  {
    hide Holds, ApplyAll, Agrees;
    q := p;
    if todo == [] {
      assert c.(attributes := c.attributes + []) == c;
    } else {
      var a := todo[0];
      var bare, later := a.(allowed := []), AttributeSteps(todo[1..], rest);
      var step := RegisterStep(a.id, Rule(a.kind, a.authority));
      RegisterHolds(c, p, bare);
      FirstStep(p, step, AllowSteps(a.id, a.allowed, later));
      assert AttributeSteps(todo, rest) == [step] + AllowSteps(a.id, a.allowed, later);
      assert Agrees(c.attributes, bare) <==> Agrees(c.attributes, a) by { SameAgreement(c.attributes, a, bare); }
      if Apply(p, step).Ok? {
        var r := AllowApplies(c, c.attributes, bare, Apply(p, step).value, a.allowed, later);
        assert bare.(allowed := bare.allowed + a.allowed) == a;
        if OfType(a.kind, a.allowed) {
          q := AttributesApply(c.(attributes := c.attributes + [a]), r, todo[1..], rest);
          assert c.attributes + [a] + todo[1..] == c.attributes + todo;
        }
      }
    }
  }

  lemma SameAgreement(before: seq<AttributeConfig>, a: AttributeConfig, b: AttributeConfig)
    requires b == a.(allowed := b.allowed)
    ensures Agrees(before, a) <==> Agrees(before, b)
  {
  }

  // ----- approvals, isolations and requirements -----

  /** Looking an attribute up in the policy is looking it up in the configuration. */
  lemma LookUps(c: PolicyConfig, p: Policy, id: AttributeId, v: Value)
    requires Holds(c, p)
    ensures Issued(p, id) <==> IsIssued(c.attributes, id)
    ensures id in p.rules && p.rules[id].kind == TypeOf(v) <==> IsOfKind(c.attributes, id, v)
    ensures Allows(p, id, v) <==> IsAdmitted(c.attributes, id, v)
    ensures v in AllowedFor(p, id) <==> Listed(c.attributes, id, v)
  {
    hide ApprovalsHold, IsolationsHold, RequirementsHold;
    if id in p.rules {
      var d :| d in c.attributes && d.id == id;
    }
    forall d | d in c.attributes && d.id == id && d.allowed != [] ensures Listed(c.attributes, id, d.allowed[0]) {
    }
    if AllowedFor(p, id) != [] {
      assert Listed(c.attributes, id, AllowedFor(p, id)[0]);
    }
  }

  lemma ApproveHolds(c: PolicyConfig, p: Policy, a: ApprovalConfig)
    requires Holds(c, p)
    ensures Apply(p, ApproveStep(a.agent, a.attribute, a.value)).Ok? <==>
      AcceptsValue(c.attributes, a.attribute, a.value)
    ensures Apply(p, ApproveStep(a.agent, a.attribute, a.value)).Ok? ==>
      Holds(c.(approvals := c.approvals + [a]), Apply(p, ApproveStep(a.agent, a.attribute, a.value)).value)
  {
    LookUps(c, p, a.attribute, a.value);
    hide IsolationsHold, RequirementsHold, RulesHold, AllowedHold, IsIssued, IsOfKind, IsAdmitted, Allows, Issued;
    if Apply(p, ApproveStep(a.agent, a.attribute, a.value)).Ok? {
      var q := Apply(p, ApproveStep(a.agent, a.attribute, a.value)).value;
      SameAttributes(c, p, q);
      assert (c.approvals + [a])[..|c.approvals|] == c.approvals;
      forall agent, id ensures ApprovalOf(q, agent, id) == LastApproval(c.approvals + [a], agent, id) {
        assert ApprovalOf(p, agent, id) == LastApproval(c.approvals, agent, id);
      }
    }
  }

  lemma SameAttributes(c: PolicyConfig, p: Policy, q: Policy)
    requires q.rules == p.rules && q.allowed == p.allowed
    ensures RulesHold(c.attributes, p) ==> RulesHold(c.attributes, q)
    ensures AllowedHold(c.attributes, p) ==> AllowedHold(c.attributes, q)
    ensures q.isolation == p.isolation && IsolationsHold(c.isolations, p) ==> IsolationsHold(c.isolations, q)
    ensures q.requirements == p.requirements && RequirementsHold(c.requirements, p) ==>
      RequirementsHold(c.requirements, q)
    ensures q.approvals == p.approvals && ApprovalsHold(c.approvals, p) ==> ApprovalsHold(c.approvals, q)
  {
    hide Listed, Demanded, LastApproval, LastIsolation;
    if q.isolation == p.isolation {
      forall t ensures IsolationOf(q, t) == IsolationOf(p, t) {
      }
    }
    if q.requirements == p.requirements {
      forall t, id, v ensures IsRequired(q, t, id, v) <==> IsRequired(p, t, id, v) {
      }
    }
    if q.approvals == p.approvals {
      forall agent, id ensures ApprovalOf(q, agent, id) == ApprovalOf(p, agent, id) {
      }
    }
  }

  /** The steps of the approvals. */
  lemma {:induction false} ApprovalsApply(c: PolicyConfig, p: Policy, todo: seq<ApprovalConfig>, rest: seq<Step>)
    returns (q: Policy)
    requires Holds(c, p)
    ensures (forall a :: a in todo ==> AcceptsValue(c.attributes, a.attribute, a.value)) ==>
      Holds(c.(approvals := c.approvals + todo), q) && ApplyAll(p, ApprovalSteps(todo, rest)) == ApplyAll(q, rest)
    ensures !(forall a :: a in todo ==> AcceptsValue(c.attributes, a.attribute, a.value)) ==>
      ApplyAll(p, ApprovalSteps(todo, rest)).Err?
    decreases |todo|
  {
    hide Holds, Apply, ApplyAll, AcceptsValue;
    q := p;
    if todo == [] {
      assert c.(approvals := c.approvals + []) == c;
    } else {
      var a := todo[0];
      var step := ApproveStep(a.agent, a.attribute, a.value);
      assert todo == [a] + todo[1..];
      ApproveHolds(c, p, a);
      FirstStep(p, step, ApprovalSteps(todo[1..], rest));
      if Apply(p, step).Ok? {
        q := ApprovalsApply(c.(approvals := c.approvals + [a]), Apply(p, step).value, todo[1..], rest);
        assert c.approvals + [a] + todo[1..] == c.approvals + todo;
      }
    }
  }

  lemma IsolateHolds(c: PolicyConfig, p: Policy, i: IsolationConfig)
    requires Holds(c, p)
    ensures Apply(p, IsolateStep(i.typeId, i.attributes)).Ok? <==> AcceptsIsolation(c.attributes, i)
    ensures Apply(p, IsolateStep(i.typeId, i.attributes)).Ok? ==>
      Holds(c.(isolations := c.isolations + [i]), Apply(p, IsolateStep(i.typeId, i.attributes)).value)
  {
    forall id ensures Issued(p, id) <==> IsIssued(c.attributes, id) {
      LookUps(c, p, id, Bool(true));
    }
    hide ApprovalsHold, RequirementsHold, RulesHold, AllowedHold, IsIssued, Issued;
    if Apply(p, IsolateStep(i.typeId, i.attributes)).Ok? {
      var q := Apply(p, IsolateStep(i.typeId, i.attributes)).value;
      SameAttributes(c, p, q);
      assert (c.isolations + [i])[..|c.isolations|] == c.isolations;
      forall t ensures IsolationOf(q, t) == LastIsolation(c.isolations + [i], t) {
        assert IsolationOf(p, t) == LastIsolation(c.isolations, t);
      }
    }
  }

  /** The steps of the isolations. */
  lemma {:induction false} IsolationsApply(c: PolicyConfig, p: Policy, todo: seq<IsolationConfig>, rest: seq<Step>)
    returns (q: Policy)
    requires Holds(c, p)
    ensures (forall i :: i in todo ==> AcceptsIsolation(c.attributes, i)) ==>
      Holds(c.(isolations := c.isolations + todo), q) && ApplyAll(p, IsolationSteps(todo, rest)) == ApplyAll(q, rest)
    ensures !(forall i :: i in todo ==> AcceptsIsolation(c.attributes, i)) ==>
      ApplyAll(p, IsolationSteps(todo, rest)).Err?
    decreases |todo|
  {
    hide Holds, Apply, ApplyAll, AcceptsIsolation;
    q := p;
    if todo == [] {
      assert c.(isolations := c.isolations + []) == c;
    } else {
      var i := todo[0];
      var step := IsolateStep(i.typeId, i.attributes);
      assert todo == [i] + todo[1..];
      IsolateHolds(c, p, i);
      FirstStep(p, step, IsolationSteps(todo[1..], rest));
      if Apply(p, step).Ok? {
        q := IsolationsApply(c.(isolations := c.isolations + [i]), Apply(p, step).value, todo[1..], rest);
        assert c.isolations + [i] + todo[1..] == c.isolations + todo;
      }
    }
  }

  lemma MoreDemanded(done: seq<RequirementConfig>, r: RequirementConfig, v: Value, t: TypeId, id: AttributeId, w: Value)
    ensures Demanded(done + [r.(values := r.values + [v])], t, id, w) <==>
      Demanded(done + [r], t, id, w) || (t == r.typeId && id == r.attribute && w == v)
  {
    var s := r.(values := r.values + [v]);
    assert r in done + [r] && s in done + [s];
    assert forall d :: d in done ==> d in done + [r] && d in done + [s];
    assert w in s.values <==> w in r.values || w == v;
  }

  lemma RequireHolds(c: PolicyConfig, done: seq<RequirementConfig>, r: RequirementConfig, p: Policy, v: Value)
    requires Holds(c.(requirements := done + [r]), p)
    ensures Apply(p, RequireStep(r.typeId, r.attribute, v)).Ok? <==> AcceptsValue(c.attributes, r.attribute, v)
    ensures Apply(p, RequireStep(r.typeId, r.attribute, v)).Ok? ==>
      Holds(c.(requirements := done + [r.(values := r.values + [v])]),
        Apply(p, RequireStep(r.typeId, r.attribute, v)).value)
  {
    LookUps(c.(requirements := done + [r]), p, r.attribute, v);
    hide ApprovalsHold, IsolationsHold, RulesHold, AllowedHold, IsIssued, IsOfKind, IsAdmitted, Allows, Issued;
    if Apply(p, RequireStep(r.typeId, r.attribute, v)).Ok? {
      var q := Apply(p, RequireStep(r.typeId, r.attribute, v)).value;
      SameAttributes(c, p, q);
      forall t, id, w ensures IsRequired(q, t, id, w) <==> Demanded(done + [r.(values := r.values + [v])], t, id, w) {
        MoreDemanded(done, r, v, t, id, w);
        assert IsRequired(p, t, id, w) <==> Demanded(done + [r], t, id, w);
      }
    }
  }

  /** The steps of one requirement. */
  lemma {:induction false} ValuesApply(c: PolicyConfig, done: seq<RequirementConfig>, r: RequirementConfig, p: Policy,
                                       values: seq<Value>, rest: seq<Step>) returns (q: Policy)
    requires Holds(c.(requirements := done + [r]), p)
    ensures (forall v :: v in values ==> AcceptsValue(c.attributes, r.attribute, v)) ==>
      && Holds(c.(requirements := done + [r.(values := r.values + values)]), q)
      && ApplyAll(p, ValueSteps(r.typeId, r.attribute, values, rest)) == ApplyAll(q, rest)
    ensures !(forall v :: v in values ==> AcceptsValue(c.attributes, r.attribute, v)) ==>
      ApplyAll(p, ValueSteps(r.typeId, r.attribute, values, rest)).Err?
    decreases |values|
  {
    hide Holds, Apply, ApplyAll, AcceptsValue;
    q := p;
    if values == [] {
      assert r.(values := r.values + []) == r;
    } else {
      var v := values[0];
      var step := RequireStep(r.typeId, r.attribute, v);
      assert values == [v] + values[1..];
      RequireHolds(c, done, r, p, v);
      FirstStep(p, step, ValueSteps(r.typeId, r.attribute, values[1..], rest));
      if Apply(p, step).Ok? {
        var s := r.(values := r.values + [v]);
        q := ValuesApply(c, done, s, Apply(p, step).value, values[1..], rest);
        assert s.values + values[1..] == r.values + values;
        assert s.(values := s.values + values[1..]) == r.(values := r.values + values);
      }
    }
  }

  lemma BareRequirement(c: PolicyConfig, p: Policy, r: RequirementConfig)
    requires Holds(c, p) && r.values == []
    ensures Holds(c.(requirements := c.requirements + [r]), p)
  {
    hide ApprovalsHold, IsolationsHold, RulesHold, AllowedHold;
    forall t, id, v ensures Demanded(c.requirements + [r], t, id, v) <==> Demanded(c.requirements, t, id, v) {
      assert forall d :: d in c.requirements + [r] <==> d in c.requirements || d == r;
    }
  }

  /** The steps of the requirements. */
  lemma {:induction false} RequirementsApply(c: PolicyConfig, p: Policy, todo: seq<RequirementConfig>)
    returns (q: Policy)
    requires Holds(c, p)
    ensures (forall r :: r in todo ==> AcceptsRequirement(c.attributes, r)) ==>
      Holds(c.(requirements := c.requirements + todo), q) && ApplyAll(p, RequirementSteps(todo, [])) == Ok(q)
    ensures !(forall r :: r in todo ==> AcceptsRequirement(c.attributes, r)) ==>
      ApplyAll(p, RequirementSteps(todo, [])).Err?
    decreases |todo|
  {
    hide Holds, Apply, AcceptsValue;
    q := p;
    if todo == [] {
      assert c.(requirements := c.requirements + []) == c;
    } else {
      var r := todo[0];
      var bare := r.(values := []);
      assert todo == [r] + todo[1..];
      BareRequirement(c, p, bare);
      var s := ValuesApply(c, c.requirements, bare, p, r.values, RequirementSteps(todo[1..], []));
      assert bare.(values := bare.values + r.values) == r;
      hide ApplyAll;
      if AcceptsRequirement(c.attributes, r) {
        q := RequirementsApply(c.(requirements := c.requirements + [r]), s, todo[1..]);
        assert c.requirements + [r] + todo[1..] == c.requirements + todo;
      }
    }
  }

  // ----- the whole configuration -----

  const NOTHING: PolicyConfig := PolicyConfig([], [], [], [])

  lemma EmptyHolds()
    ensures Holds(NOTHING, EMPTY)
  {
  }

  predicate AcceptsApprovals(attributes: seq<AttributeConfig>, approvals: seq<ApprovalConfig>) {
    forall a :: a in approvals ==> AcceptsValue(attributes, a.attribute, a.value)
  }

  predicate AcceptsLast(attributes: seq<AttributeConfig>, isolations: seq<IsolationConfig>,
                        requirements: seq<RequirementConfig>)
  {
    && (forall i :: i in isolations ==> AcceptsIsolation(attributes, i))
    && forall r :: r in requirements ==> AcceptsRequirement(attributes, r)
  }

  lemma LastApply(c: PolicyConfig, p: Policy, isolations: seq<IsolationConfig>, requirements: seq<RequirementConfig>)
    returns (q: Policy)
    requires Holds(c, p) && c.isolations == [] && c.requirements == []
    ensures AcceptsLast(c.attributes, isolations, requirements) ==>
      && Holds(c.(isolations := isolations, requirements := requirements), q)
      && ApplyAll(p, IsolationSteps(isolations, RequirementSteps(requirements, []))) == Ok(q)
    ensures !AcceptsLast(c.attributes, isolations, requirements) ==>
      ApplyAll(p, IsolationSteps(isolations, RequirementSteps(requirements, []))).Err?
  {
    hide Holds, ApplyAll, AcceptsIsolation, AcceptsRequirement;
    assert [] + isolations == isolations && [] + requirements == requirements;
    q := IsolationsApply(c, p, isolations, RequirementSteps(requirements, []));
    if forall i :: i in isolations ==> AcceptsIsolation(c.attributes, i) {
      q := RequirementsApply(c.(isolations := isolations), q, requirements);
    }
  }

  predicate AcceptsLater(config: PolicyConfig) {
    && AcceptsApprovals(config.attributes, config.approvals)
    && AcceptsLast(config.attributes, config.isolations, config.requirements)
  }

  lemma LaterApply(c: PolicyConfig, p: Policy, config: PolicyConfig) returns (q: Policy)
    requires Holds(c, p) && c == NOTHING.(attributes := config.attributes)
    ensures AcceptsLater(config) ==> Holds(config, q) && ApplyAll(p, LaterSteps(config)) == Ok(q)
    ensures !AcceptsLater(config) ==> ApplyAll(p, LaterSteps(config)).Err?
  {
    hide Holds, ApplyAll, AcceptsValue, AcceptsLast;
    var last := IsolationSteps(config.isolations, RequirementSteps(config.requirements, []));
    assert [] + config.approvals == config.approvals;
    q := ApprovalsApply(c, p, config.approvals, last);
    if AcceptsApprovals(config.attributes, config.approvals) {
      var d := c.(approvals := config.approvals);
      assert d.(isolations := config.isolations, requirements := config.requirements) == config;
      q := LastApply(d, q, config.isolations, config.requirements);
    }
  }

  function LaterSteps(config: PolicyConfig): seq<Step> {
    ApprovalSteps(config.approvals, IsolationSteps(config.isolations, RequirementSteps(config.requirements, [])))
  }

  /** A configuration is accepted exactly if its attributes agree with each other and list values of
      their types, its approvals and requirements are of admitted values of CA-issued attributes, and its
      isolations are over one to eight CA-issued attributes. The policy then holds what is configured. */
  lemma BuiltPolicyIsExact(config: PolicyConfig)
    ensures ApplyAll(EMPTY, StepsOf(config)).Ok? <==> Acceptable(config)
    ensures ApplyAll(EMPTY, StepsOf(config)).Ok? ==> Holds(config, ApplyAll(EMPTY, StepsOf(config)).value)
  {
    hide Holds, ApplyAll, AcceptsAttribute, AcceptsValue, AcceptsIsolation, AcceptsRequirement;
    EmptyHolds();
    assert StepsOf(config) == AttributeSteps(config.attributes, LaterSteps(config));
    hide StepsOf, LaterSteps, AttributeSteps;
    var p := AttributesApply(NOTHING, EMPTY, config.attributes, LaterSteps(config));
    assert [] + config.attributes == config.attributes;
    AcceptsEach([], config.attributes);
    forall i | 0 <= i < |config.attributes| ensures [] + config.attributes[..i] == config.attributes[..i] {
    }
    if AcceptsAttributes([], config.attributes) {
      var q := LaterApply(NOTHING.(attributes := config.attributes), p, config);
    }
  }

  // ----- what the policy decides -----

  /** The attribute is configured with the type of the value, and the value is admitted. */
  predicate IsWellFormed(attributes: seq<AttributeConfig>, a: Attribute) {
    IsOfKind(attributes, a.id, a.value) && IsAdmitted(attributes, a.id, a.value)
  }

  /** An environment validates exactly if each of its attributes is configured, has the configured type
      and a listed value, and those issued by the CA are the approvals configured last for the agent. */
  lemma ValidationIsConfigured(config: PolicyConfig, p: Policy, agent: AgentId, attributes: seq<Attribute>)
    requires Holds(config, p) && Consistent(p) && UniqueIds(attributes)
    ensures Validate(p, agent, attributes).Ok? <==>
      && (forall a :: a in attributes ==> IsWellFormed(config.attributes, a))
      && forall id, v :: (Attribute(id, v) in attributes && IsIssued(config.attributes, id)) <==>
           LastApproval(config.approvals, agent, id) == Some(v)
  {
    ValidatesExactly(p, agent, attributes);
    forall a ensures WellFormed(p, a) <==> IsWellFormed(config.attributes, a) {
      LookUps(config, p, a.id, a.value);
    }
    forall id, v
      ensures Issued(p, id) <==> IsIssued(config.attributes, id)
      ensures (Approval(agent, id) in p.approvals && p.approvals[Approval(agent, id)] == v) <==>
        LastApproval(config.approvals, agent, id) == Some(v)
    {
      LookUps(config, p, id, v);
      assert ApprovalOf(p, agent, id) == LastApproval(config.approvals, agent, id);
    }
    hide Holds, Consistent, Validate, WellFormed, IsWellFormed, Issued, IsIssued, LastApproval;
  }

  /** Publisher and subscriber have the same last configured approval. */
  predicate SameApproval(approvals: seq<ApprovalConfig>, publisher: AgentId, subscriber: AgentId, id: AttributeId) {
    var approval := LastApproval(approvals, publisher, id);
    approval.Some? && LastApproval(approvals, subscriber, id) == approval
  }

  /** The last approval of the subscriber for the attribute is of a value configured for it. */
  predicate MeetsDemand(config: PolicyConfig, subscriber: AgentId, r: RequirementConfig) {
    var approval := LastApproval(config.approvals, subscriber, r.attribute);
    approval.Some? && Demanded(config.requirements, r.typeId, r.attribute, approval.value)
  }

  /** A delivery is authorised exactly if both environments validate, the two agents have the same
      approvals for the isolation of the type configured last, and the subscriber has a configured value
      for each attribute for which the configuration requires values. */
  lemma AuthorizationIsConfigured(config: PolicyConfig, p: Policy, publisherId: AgentId, publisher: seq<Attribute>,
                                  subscriberId: AgentId, subscriber: seq<Attribute>, typeId: TypeId)
    requires Holds(config, p) && Consistent(p) && UniqueIds(publisher) && UniqueIds(subscriber)
    ensures AuthorizeDelivery(p, publisherId, publisher, subscriberId, subscriber, typeId) <==>
      && Validate(p, publisherId, publisher).Ok? && Validate(p, subscriberId, subscriber).Ok?
      && (LastIsolation(config.isolations, typeId).Some? ==>
           forall id :: id in LastIsolation(config.isolations, typeId).value ==>
             SameApproval(config.approvals, publisherId, subscriberId, id))
      && forall r :: r in config.requirements && r.typeId == typeId && r.values != [] ==>
           MeetsDemand(config, subscriberId, r)
  {
    AuthorizationIsByApprovals(p, publisherId, publisher, subscriberId, subscriber, typeId);
    hide Validate, AuthorizeDelivery, Consistent, RulesHold, AllowedHold;
    assert IsolationOf(p, typeId) == LastIsolation(config.isolations, typeId);
    forall id
      ensures SameApproval(config.approvals, publisherId, subscriberId, id) <==>
        ApprovalOf(p, publisherId, id).Some? && ApprovalOf(p, publisherId, id) == ApprovalOf(p, subscriberId, id)
    {
    }
    DemandsAreRequirements(config, p, subscriberId, typeId);
  }

  /** The approval of the agent is one of the values of the requirement. */
  predicate Fulfils(p: Policy, agent: AgentId, r: Requirement)
    requires r in p.requirements
  {
    ApprovalOf(p, agent, r.attribute).Some? && ApprovalOf(p, agent, r.attribute).value in p.requirements[r]
  }

  lemma DemandsAreRequirements(config: PolicyConfig, p: Policy, agent: AgentId, typeId: TypeId)
    requires ApprovalsHold(config.approvals, p) && RequirementsHold(config.requirements, p)
    ensures (forall r :: r in p.requirements && r.typeId == typeId ==> Fulfils(p, agent, r)) <==>
      forall c :: c in config.requirements && c.typeId == typeId && c.values != [] ==> MeetsDemand(config, agent, c)
  {
    forall c | c in config.requirements && c.typeId == typeId && c.values != []
      ensures Requirement(typeId, c.attribute) in p.requirements
      ensures MeetsDemand(config, agent, c) <==> Fulfils(p, agent, Requirement(typeId, c.attribute))
    {
      assert Demanded(config.requirements, typeId, c.attribute, c.values[0]);
      assert IsRequired(p, typeId, c.attribute, c.values[0]);
      DemandIsRequirement(config, p, agent, c);
    }
    forall r | r in p.requirements && r.typeId == typeId
      ensures exists c :: c in config.requirements && c.typeId == typeId && c.values != [] && c.attribute == r.attribute
    {
      assert r == Requirement(typeId, r.attribute);
      assert IsRequired(p, typeId, r.attribute, p.requirements[r][0]);
    }
    hide MeetsDemand, Fulfils, ApprovalsHold, RequirementsHold;
  }

  lemma DemandIsRequirement(config: PolicyConfig, p: Policy, agent: AgentId, c: RequirementConfig)
    requires ApprovalsHold(config.approvals, p) && RequirementsHold(config.requirements, p)
    requires Requirement(c.typeId, c.attribute) in p.requirements
    ensures MeetsDemand(config, agent, c) <==> Fulfils(p, agent, Requirement(c.typeId, c.attribute))
  {
    var approval := ApprovalOf(p, agent, c.attribute);
    assert approval == LastApproval(config.approvals, agent, c.attribute);
    if approval.Some? {
      assert IsRequired(p, c.typeId, c.attribute, approval.value)
        <==> Demanded(config.requirements, c.typeId, c.attribute, approval.value);
    }
  }
}
