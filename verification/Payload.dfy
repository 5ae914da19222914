/** Application operations, their canonical bytes, and the parser as a function on the unread
    bytes. `ParsingIsCanonical` says that the two are inverse to each other. */
module Payload {
  import opened Bytes
  import opened Types
  import opened Parsing

  datatype Value = Bool(bit: bool) | I64(number: i64) | Octets(octets: seq<byte>)

  datatype Attribute = Attribute(id: AttributeId, value: Value)

  datatype Operator = Eq | Ne | Lt | Le | Gt | Ge

  datatype Clause = Clause(attribute: AttributeId, operator: Operator, value: Value)

  datatype Operation =
    | SetEnvironment(attributes: seq<Attribute>)
    | Subscribe(typeId: TypeId, clauses: seq<Clause>)
    | SubscribePermanent(typeId: TypeId, clauses: seq<Clause>)
    | Publish(typeId: TypeId, clauses: seq<Clause>, value: seq<byte>)
    | PublicationResponse(typeId: TypeId, publisher: AgentId, value: seq<byte>)

  const OP_ENVIRONMENT: byte := 1
  const OP_SUBSCRIBE_PERMANENT: byte := 2
  const OP_PUBLISH: byte := 3
  const OP_RESPONSE: byte := 4
  const OP_SUBSCRIBE: byte := 5

  // ----- what is encodable -----

  predicate ValueFits(v: Value) { v.Octets? ==> |v.octets| <= MAX_ATTRIBUTE_BYTES }

  predicate AttributesFit(attributes: seq<Attribute>) {
    forall a :: a in attributes ==> ValueFits(a.value)
  }

  predicate ClausesFit(clauses: seq<Clause>) {
    |clauses| <= MAX_CLAUSES && forall c :: c in clauses ==> ValueFits(c.value)
  }

  function Ids(attributes: seq<Attribute>): (ids: seq<AttributeId>)
    ensures |ids| == |attributes|
  {
    if attributes == [] then []
    else Ids(attributes[..|attributes| - 1]) + [attributes[|attributes| - 1].id]
  }

  predicate HasId(attributes: seq<Attribute>, id: AttributeId) { id in Ids(attributes) }

  predicate UniqueIds(attributes: seq<Attribute>) {
    forall i, j :: 0 <= i < j < |attributes| ==> attributes[i].id != attributes[j].id
  }

  predicate ValidOperation(op: Operation) {
    match op
    case SetEnvironment(attributes) =>
      |attributes| <= MAX_ATTRIBUTES && UniqueIds(attributes) && AttributesFit(attributes)
    case Subscribe(_, clauses) => ClausesFit(clauses)
    case SubscribePermanent(_, clauses) => ClausesFit(clauses)
    case Publish(_, clauses, value) => ClausesFit(clauses) && |value| <= MAX_VALUE_BYTES
    case PublicationResponse(_, _, value) => |value| <= MAX_VALUE_BYTES
  }

  // ----- canonical bytes -----

  function OperatorByte(o: Operator): byte {
    match o case Eq => 1 case Ne => 2 case Lt => 3 case Le => 4 case Gt => 5 case Ge => 6
  }

  function PutSized(bytes: seq<byte>, rest: seq<byte>): seq<byte> { PutNumber(|bytes|, 2, bytes + rest) }

  function PutValue(v: Value, rest: seq<byte>): seq<byte> {
    match v
    case Bool(bit) => PutByte(1, PutByte(if bit then 1 else 0, rest))
    case I64(number) => PutByte(2, PutNumber(Unsigned(number), 8, rest))
    case Octets(octets) => PutByte(3, PutSized(octets, rest))
  }

  function PutAttribute(a: Attribute, rest: seq<byte>): seq<byte> { PutNumber(a.id, 2, PutValue(a.value, rest)) }

  function PutClause(c: Clause, rest: seq<byte>): seq<byte> {
    PutNumber(c.attribute, 2, PutByte(OperatorByte(c.operator), PutValue(c.value, rest)))
  }

  function PutAttributes(attributes: seq<Attribute>, rest: seq<byte>): seq<byte>
  {
    PutMany(PutAttribute, attributes, rest)
  }

  function PutClauses(clauses: seq<Clause>, rest: seq<byte>): seq<byte> { PutMany(PutClause, clauses, rest) }

  function PutPredicate(clauses: seq<Clause>, rest: seq<byte>): seq<byte>
    requires |clauses| < 256
  {
    PutByte(|clauses|, PutClauses(clauses, rest))
  }

  function OperationBytes(op: Operation): seq<byte>
    requires ValidOperation(op)
  {
    match op
    case SetEnvironment(attributes) => PutByte(OP_ENVIRONMENT, PutByte(|attributes|, PutAttributes(attributes, [])))
    case Subscribe(typeId, clauses) => PutByte(OP_SUBSCRIBE, PutNumber(typeId, 4, PutPredicate(clauses, [])))
    case SubscribePermanent(typeId, clauses) =>
      PutByte(OP_SUBSCRIBE_PERMANENT, PutNumber(typeId, 4, PutPredicate(clauses, [])))
    case Publish(typeId, clauses, value) =>
      PutByte(OP_PUBLISH, PutNumber(typeId, 4, PutPredicate(clauses, PutSized(value, []))))
    case PublicationResponse(typeId, publisher, value) =>
      PutByte(OP_RESPONSE, PutNumber(typeId, 4, PutNumber(publisher, 16, PutSized(value, []))))
  }

  // ----- the parser -----

  function ParseSized(s: seq<byte>, maximum: nat): Parse<seq<byte>> {
    var Parsed(length, rest) :- ParseU16(s);
    if length > maximum then Err(Oversized) else Take(rest, length)
  }

  function ParseValue(s: seq<byte>): Parse<Value> {
    var Parsed(tag, rest) :- ParseU8(s);
    if tag == 1 then
      var Parsed(bit, rest) :- ParseU8(rest);
      if bit > 1 then Err(Malformed) else Ok(Parsed(Bool(bit == 1), rest))
    else if tag == 2 then
      var Parsed(number, rest) :- ParseU64(rest);
      Ok(Parsed(I64(Signed(number)), rest))
    else if tag == 3 then
      var Parsed(octets, rest) :- ParseSized(rest, MAX_ATTRIBUTE_BYTES);
      Ok(Parsed(Octets(octets), rest))
    else Err(Malformed)
  }

  function ParseOperator(s: seq<byte>): Parse<Operator> {
    var Parsed(value, rest) :- ParseU8(s);
    if value == 1 then Ok(Parsed(Eq, rest))
    else if value == 2 then Ok(Parsed(Ne, rest))
    else if value == 3 then Ok(Parsed(Lt, rest))
    else if value == 4 then Ok(Parsed(Le, rest))
    else if value == 5 then Ok(Parsed(Gt, rest))
    else if value == 6 then Ok(Parsed(Ge, rest))
    else Err(Malformed)
  }

  /** The next attribute; an identifier among those in `done` is refused before its value is read. */
  function ParseAttribute(s: seq<byte>, done: seq<Attribute>): Parse<Attribute> {
    var Parsed(id, rest) :- ParseU16(s);
    if HasId(done, id) then Err(Malformed)
    else
      var Parsed(value, rest) :- ParseValue(rest);
      Ok(Parsed(Attribute(id, value), rest))
  }

  function ParseClause(s: seq<byte>, done: seq<Clause>): Parse<Clause> {
    var Parsed(attribute, rest) :- ParseU16(s);
    var Parsed(operator, rest) :- ParseOperator(rest);
    var Parsed(value, rest) :- ParseValue(rest);
    Ok(Parsed(Clause(attribute, operator, value), rest))
  }

  function ParsePredicate(s: seq<byte>): Parse<seq<Clause>> {
    var Parsed(count, rest) :- ParseU8(s);
    if count > MAX_CLAUSES then Err(Oversized) else ParseMany(ParseClause, rest, count, [])
  }

  function ParseEnvironment(s: seq<byte>): Parse<seq<Attribute>> {
    var Parsed(count, rest) :- ParseU8(s);
    if count > MAX_ATTRIBUTES then Err(Oversized) else ParseMany(ParseAttribute, rest, count, [])
  }

  function ParseBody(tag: byte, s: seq<byte>): Parse<Operation> {
    if tag == OP_ENVIRONMENT then
      var Parsed(attributes, rest) :- ParseEnvironment(s);
      Ok(Parsed(Operation.SetEnvironment(attributes), rest))
    else if tag == OP_RESPONSE then
      var Parsed(typeId, rest) :- ParseU32(s);
      var Parsed(publisher, rest) :- ParseU128(rest);
      var Parsed(value, rest) :- ParseSized(rest, MAX_VALUE_BYTES);
      Ok(Parsed(Operation.PublicationResponse(typeId, publisher, value), rest))
    else if tag == OP_SUBSCRIBE || tag == OP_SUBSCRIBE_PERMANENT || tag == OP_PUBLISH then
      var Parsed(typeId, rest) :- ParseU32(s);
      var Parsed(clauses, rest) :- ParsePredicate(rest);
      if tag == OP_SUBSCRIBE then Ok(Parsed(Operation.Subscribe(typeId, clauses), rest))
      else if tag == OP_SUBSCRIBE_PERMANENT then Ok(Parsed(Operation.SubscribePermanent(typeId, clauses), rest))
      else
        var Parsed(value, rest) :- ParseSized(rest, MAX_VALUE_BYTES);
        Ok(Parsed(Operation.Publish(typeId, clauses, value), rest))
    else Err(Malformed)
  }

  function ParseOperation(input: seq<byte>): Result<Operation, Error> {
    var Parsed(tag, rest) :- ParseU8(input);
    var Parsed(operation, rest) :- ParseBody(tag, rest);
    if rest == [] then Ok(operation) else Err(Malformed)
  }

  // ----- each piece is read back, and determines what was read -----

  lemma SizedRoundTrip(bytes: seq<byte>, maximum: u16, rest: seq<byte>)
    requires |bytes| <= maximum
    ensures ParseSized(PutSized(bytes, rest), maximum) == Ok(Parsed(bytes, rest))
  {
    Widths();
    NumberRoundTrip(|bytes|, 2, bytes + rest);
    TakeRoundTrip(bytes, rest);
  }

  lemma SizedCanonical(s: seq<byte>, maximum: nat)
    requires ParseSized(s, maximum).Ok?
    ensures var p := ParseSized(s, maximum).value; |p.value| <= maximum && s == PutSized(p.value, p.rest)
  {
    NumberCanonical(s, 2);
    var Parsed(length, t) := ParseU16(s).value;
    TakeCanonical(t, length);
  }

  lemma ValueRoundTrip(v: Value, rest: seq<byte>)
    requires ValueFits(v)
    ensures ParseValue(PutValue(v, rest)) == Ok(Parsed(v, rest))
  {
    match v {
      case Bool(bit) =>
        ByteRoundTrip(1, PutByte(if bit then 1 else 0, rest));
        ByteRoundTrip(if bit then 1 else 0, rest);
      case I64(number) =>
        Widths();
        ByteRoundTrip(2, PutNumber(Unsigned(number), 8, rest));
        NumberRoundTrip(Unsigned(number), 8, rest);
      case Octets(octets) =>
        ByteRoundTrip(3, PutSized(octets, rest));
        SizedRoundTrip(octets, MAX_ATTRIBUTE_BYTES, rest);
    }
  }

  lemma ValueCanonical(s: seq<byte>)
    requires ParseValue(s).Ok?
    ensures var p := ParseValue(s).value; ValueFits(p.value) && s == PutValue(p.value, p.rest)
  {
    ByteCanonical(s);
    var Parsed(tag, rest) := ParseU8(s).value;
    if tag == 1 {
      ByteCanonical(rest);
    } else if tag == 2 {
      NumberCanonical(rest, 8);
    } else {
      SizedCanonical(rest, MAX_ATTRIBUTE_BYTES);
    }
  }

  lemma OperatorRoundTrip(o: Operator, rest: seq<byte>)
    ensures ParseOperator(PutByte(OperatorByte(o), rest)) == Ok(Parsed(o, rest))
  {
  }

  lemma OperatorCanonical(s: seq<byte>)
    requires ParseOperator(s).Ok?
    ensures var p := ParseOperator(s).value; s == PutByte(OperatorByte(p.value), p.rest)
  {
  }

  predicate GoodClause(c: Clause, done: seq<Clause>) { ValueFits(c.value) }

  predicate GoodAttribute(a: Attribute, done: seq<Attribute>) { ValueFits(a.value) && !HasId(done, a.id) }

  lemma ClauseRoundTrip(c: Clause, done: seq<Clause>, rest: seq<byte>)
    requires GoodClause(c, done)
    ensures ParseClause(PutClause(c, rest), done) == Ok(Parsed(c, rest))
  {
    Widths();
    var tail := PutValue(c.value, rest);
    NumberRoundTrip(c.attribute, 2, PutByte(OperatorByte(c.operator), tail));
    OperatorRoundTrip(c.operator, tail);
    ValueRoundTrip(c.value, rest);
  }

  lemma ClauseCanonical(s: seq<byte>, done: seq<Clause>)
    requires ParseClause(s, done).Ok?
    ensures var p := ParseClause(s, done).value; GoodClause(p.value, done) && s == PutClause(p.value, p.rest)
  {
    NumberCanonical(s, 2);
    var t := ParseU16(s).value.rest;
    OperatorCanonical(t);
    ValueCanonical(ParseOperator(t).value.rest);
  }

  lemma AttributeRoundTrip(a: Attribute, done: seq<Attribute>, rest: seq<byte>)
    requires GoodAttribute(a, done)
    ensures ParseAttribute(PutAttribute(a, rest), done) == Ok(Parsed(a, rest))
  {
    Widths();
    NumberRoundTrip(a.id, 2, PutValue(a.value, rest));
    ValueRoundTrip(a.value, rest);
  }

  lemma AttributeCanonical(s: seq<byte>, done: seq<Attribute>)
    requires ParseAttribute(s, done).Ok?
    ensures var p := ParseAttribute(s, done).value; GoodAttribute(p.value, done) && s == PutAttribute(p.value, p.rest)
  {
    NumberCanonical(s, 2);
    ValueCanonical(ParseU16(s).value.rest);
  }

  lemma ClauseCodec()
    ensures ReadsBack(PutClause, ParseClause, GoodClause) && Canonical(PutClause, ParseClause, GoodClause)
  {
    forall c, done, rest | GoodClause(c, done) ensures ParseClause(PutClause(c, rest), done) == Ok(Parsed(c, rest)) {
      ClauseRoundTrip(c, done, rest);
    }
    forall s, done | ParseClause(s, done).Ok?
      ensures var p := ParseClause(s, done).value; GoodClause(p.value, done) && s == PutClause(p.value, p.rest)
    {
      ClauseCanonical(s, done);
    }
  }

  lemma AttributeCodec()
    ensures ReadsBack(PutAttribute, ParseAttribute, GoodAttribute)
    ensures Canonical(PutAttribute, ParseAttribute, GoodAttribute)
  {
    forall a, done, rest | GoodAttribute(a, done)
      ensures ParseAttribute(PutAttribute(a, rest), done) == Ok(Parsed(a, rest))
    {
      AttributeRoundTrip(a, done, rest);
    }
    forall s, done | ParseAttribute(s, done).Ok?
      ensures var p := ParseAttribute(s, done).value; GoodAttribute(p.value, done) && s == PutAttribute(p.value, p.rest)
    {
      AttributeCanonical(s, done);
    }
  }

  lemma {:induction false} GoodClauses(clauses: seq<Clause>, done: seq<Clause>)
    ensures AllGood(GoodClause, clauses, done) <==> forall c :: c in clauses ==> ValueFits(c.value)
    decreases |clauses|
  {
    if clauses != [] {
      GoodClauses(clauses[1..], done + [clauses[0]]);
      Uncons(clauses);
    }
  }

  lemma {:induction false} GoodAttributes(attributes: seq<Attribute>, done: seq<Attribute>)
    requires UniqueIds(done)
    ensures AllGood(GoodAttribute, attributes, done) <==> AttributesFit(attributes) && UniqueIds(done + attributes)
    decreases |attributes|
  {
    if attributes == [] {
      assert done + attributes == done;
    } else {
      var first, others := attributes[0], attributes[1..];
      Uncons(attributes);
      Regroup(done, first, others);
      NewId(done, first, others);
      if !HasId(done, first.id) {
        GoodAttributes(others, done + [first]);
      }
    }
  }

  lemma {:induction false} IdAt(attributes: seq<Attribute>, i: nat)
    requires i < |attributes|
    ensures Ids(attributes)[i] == attributes[i].id
  {
    if i < |attributes| - 1 {
      IdAt(attributes[..|attributes| - 1], i);
    }
  }

  lemma NewId(done: seq<Attribute>, a: Attribute, others: seq<Attribute>)
    requires UniqueIds(done)
    ensures UniqueIds(done + [a]) <==> !HasId(done, a.id)
    ensures UniqueIds(done + [a] + others) ==> !HasId(done, a.id)
  {
    forall i | 0 <= i < |done| ensures Ids(done)[i] == done[i].id {
      IdAt(done, i);
    }
    if HasId(done, a.id) {
      var i :| 0 <= i < |done| && Ids(done)[i] == a.id;
      assert (done + [a])[i].id == (done + [a])[|done|].id;
      assert (done + [a] + others)[i].id == (done + [a] + others)[|done|].id;
    }
  }

  lemma PredicateRoundTrip(clauses: seq<Clause>, rest: seq<byte>)
    requires ClausesFit(clauses)
    ensures ParsePredicate(PutPredicate(clauses, rest)) == Ok(Parsed(clauses, rest))
  {
    hide PutMany, ParseMany, PutClause, ParseClause, GoodClause, AllGood, ReadsBack, Canonical;
    ByteRoundTrip(|clauses|, PutClauses(clauses, rest));
    ClauseCodec();
    GoodClauses(clauses, []);
    ManyRoundTrip(PutClause, ParseClause, GoodClause, clauses, [], rest);
    assert [] + clauses == clauses;
  }

  lemma PredicateCanonical(s: seq<byte>)
    requires ParsePredicate(s).Ok?
    ensures var p := ParsePredicate(s).value; ClausesFit(p.value) && s == PutPredicate(p.value, p.rest)
  {
    ByteCanonical(s);
    var Parsed(count, rest) := ParseU8(s).value;
    ClauseCodec();
    var clauses := ManyCanonical(PutClause, ParseClause, GoodClause, rest, count, []);
    GoodClauses(clauses, []);
    assert [] + clauses == clauses;
  }

  lemma EnvironmentRoundTrip(attributes: seq<Attribute>)
    requires ValidOperation(Operation.SetEnvironment(attributes))
    ensures ParseEnvironment(PutByte(|attributes|, PutAttributes(attributes, []))) == Ok(Parsed(attributes, []))
  {
    ByteRoundTrip(|attributes|, PutAttributes(attributes, []));
    assert [] + attributes == attributes;
    AttributeCodec();
    GoodAttributes(attributes, []);
    ManyRoundTrip(PutAttribute, ParseAttribute, GoodAttribute, attributes, [], []);
  }

  lemma EnvironmentCanonical(s: seq<byte>)
    requires ParseEnvironment(s).Ok?
    ensures var p := ParseEnvironment(s).value;
      && ValidOperation(Operation.SetEnvironment(p.value))
      && s == PutByte(|p.value|, PutAttributes(p.value, p.rest))
  {
    ByteCanonical(s);
    var Parsed(count, rest) := ParseU8(s).value;
    AttributeCodec();
    var attributes := ManyCanonical(PutAttribute, ParseAttribute, GoodAttribute, rest, count, []);
    GoodAttributes(attributes, []);
    assert [] + attributes == attributes;
  }

  lemma PublicationRoundTrip(typeId: TypeId, clauses: seq<Clause>, value: seq<byte>)
    requires ClausesFit(clauses) && |value| <= MAX_VALUE_BYTES
    ensures ParseBody(OP_PUBLISH, PutNumber(typeId, 4, PutPredicate(clauses, PutSized(value, []))))
         == Ok(Parsed(Operation.Publish(typeId, clauses, value), []))
  {
    Widths();
    NumberRoundTrip(typeId, 4, PutPredicate(clauses, PutSized(value, [])));
    PredicateRoundTrip(clauses, PutSized(value, []));
    SizedRoundTrip(value, MAX_VALUE_BYTES, []);
  }

  lemma ResponseRoundTrip(typeId: TypeId, publisher: AgentId, value: seq<byte>)
    requires |value| <= MAX_VALUE_BYTES
    ensures ParseBody(OP_RESPONSE, PutNumber(typeId, 4, PutNumber(publisher, 16, PutSized(value, []))))
         == Ok(Parsed(Operation.PublicationResponse(typeId, publisher, value), []))
  {
    Widths();
    NumberRoundTrip(typeId, 4, PutNumber(publisher, 16, PutSized(value, [])));
    NumberRoundTrip(publisher, 16, PutSized(value, []));
    SizedRoundTrip(value, MAX_VALUE_BYTES, []);
  }

  lemma SubscriptionRoundTrip(tag: byte, typeId: TypeId, clauses: seq<Clause>)
    requires ClausesFit(clauses) && tag in {OP_SUBSCRIBE, OP_SUBSCRIBE_PERMANENT}
    ensures ParseBody(tag, PutNumber(typeId, 4, PutPredicate(clauses, [])))
         == Ok(Parsed(if tag == OP_SUBSCRIBE then Operation.Subscribe(typeId, clauses)
           else Operation.SubscribePermanent(typeId, clauses), []))
  {
    Widths();
    NumberRoundTrip(typeId, 4, PutPredicate(clauses, []));
    PredicateRoundTrip(clauses, []);
  }

  lemma OperationRoundTrip(op: Operation)
    requires ValidOperation(op)
    ensures ParseOperation(OperationBytes(op)) == Ok(op)
  {
    match op {
      case SetEnvironment(attributes) =>
        ByteRoundTrip(OP_ENVIRONMENT, PutByte(|attributes|, PutAttributes(attributes, [])));
        EnvironmentRoundTrip(attributes);
      case Subscribe(typeId, clauses) =>
        ByteRoundTrip(OP_SUBSCRIBE, PutNumber(typeId, 4, PutPredicate(clauses, [])));
        SubscriptionRoundTrip(OP_SUBSCRIBE, typeId, clauses);
      case SubscribePermanent(typeId, clauses) =>
        ByteRoundTrip(OP_SUBSCRIBE_PERMANENT, PutNumber(typeId, 4, PutPredicate(clauses, [])));
        SubscriptionRoundTrip(OP_SUBSCRIBE_PERMANENT, typeId, clauses);
      case Publish(typeId, clauses, value) =>
        ByteRoundTrip(OP_PUBLISH, PutNumber(typeId, 4, PutPredicate(clauses, PutSized(value, []))));
        PublicationRoundTrip(typeId, clauses, value);
      case PublicationResponse(typeId, publisher, value) =>
        ByteRoundTrip(OP_RESPONSE, PutNumber(typeId, 4, PutNumber(publisher, 16, PutSized(value, []))));
        ResponseRoundTrip(typeId, publisher, value);
    }
  }

  lemma BodyCanonical(tag: byte, s: seq<byte>)
    requires ParseBody(tag, s).Ok? && ParseBody(tag, s).value.rest == []
    ensures var op := ParseBody(tag, s).value.value; ValidOperation(op) && OperationBytes(op) == PutByte(tag, s)
  {
    if tag == OP_ENVIRONMENT {
      EnvironmentCanonical(s);
    } else {
      NumberCanonical(s, 4);
      var t := ParseU32(s).value.rest;
      if tag == OP_RESPONSE {
        NumberCanonical(t, 16);
        SizedCanonical(ParseU128(t).value.rest, MAX_VALUE_BYTES);
      } else {
        PredicateCanonical(t);
        if tag == OP_PUBLISH {
          SizedCanonical(ParsePredicate(t).value.rest, MAX_VALUE_BYTES);
        }
      }
    }
  }

  /** Parsing succeeds on exactly the canonical bytes of the valid operations, and gives them back. */
  lemma ParsingIsCanonical(input: seq<byte>, op: Operation)
    ensures ParseOperation(input) == Ok(op) <==> ValidOperation(op) && OperationBytes(op) == input
  {
    if ValidOperation(op) {
      OperationRoundTrip(op);
    }
    if ParseOperation(input) == Ok(op) {
      ByteCanonical(input);
      BodyCanonical(input[0], input[1..]);
    }
  }
}
