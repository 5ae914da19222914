/** How long the encodings of operations get, and what follows for frames. */
module PayloadSizes {
  import opened Bytes
  import opened Types
  import opened Payload

  /** Longest encodings, from the limits on attributes, clauses, byte strings and values. */
  function Longest(op: Operation): nat {
    match op
    case SetEnvironment(_) => 1106
    case Subscribe(_, _) => 566
    case SubscribePermanent(_, _) => 566
    case Publish(_, _, _) => 3640
    case PublicationResponse(_, _, _) => 3095
  }

  lemma ValueLength(v: Value, rest: seq<byte>)
    requires ValueFits(v)
    ensures |rest| + 2 <= |PutValue(v, rest)| <= |rest| + 67
    ensures v.Octets? && |v.octets| == MAX_ATTRIBUTE_BYTES ==> |PutValue(v, rest)| == |rest| + 67
  {
  }

  lemma {:induction false} AttributesLength(attributes: seq<Attribute>, rest: seq<byte>)
    requires AttributesFit(attributes)
    ensures |rest| <= |PutAttributes(attributes, rest)| <= |rest| + 69 * |attributes|
    ensures (forall a :: a in attributes ==> a.value.Octets? && |a.value.octets| == MAX_ATTRIBUTE_BYTES)
        ==> |PutAttributes(attributes, rest)| == |rest| + 69 * |attributes|
  {
    if attributes != [] {
      AttributesLength(attributes[1..], rest);
      ValueLength(attributes[0].value, PutAttributes(attributes[1..], rest));
    }
  }

  lemma {:induction false} ClausesLength(clauses: seq<Clause>, rest: seq<byte>)
    requires forall c :: c in clauses ==> ValueFits(c.value)
    ensures |rest| <= |PutClauses(clauses, rest)| <= |rest| + 70 * |clauses|
    ensures (forall c :: c in clauses ==> c.value.Octets? && |c.value.octets| == MAX_ATTRIBUTE_BYTES)
        ==> |PutClauses(clauses, rest)| == |rest| + 70 * |clauses|
  {
    if clauses != [] {
      ClausesLength(clauses[1..], rest);
      ValueLength(clauses[0].value, PutClauses(clauses[1..], rest));
    }
  }

  /** No valid operation is longer than the bound of its kind. */
  lemma OperationLength(op: Operation)
    requires ValidOperation(op)
    ensures |OperationBytes(op)| <= Longest(op)
  {
    match op {
      case SetEnvironment(attributes) => AttributesLength(attributes, []);
      case Subscribe(_, clauses) => ClausesLength(clauses, []);
      case SubscribePermanent(_, clauses) => ClausesLength(clauses, []);
      case Publish(_, clauses, value) => ClausesLength(clauses, PutSized(value, []));
      case PublicationResponse(_, _, _) =>
    }
  }

  function Filled(length: nat): (octets: seq<byte>)
    ensures |octets| == length
  {
    seq(length, _ => 0)
  }

  /** One operation of each kind that reaches its bound. */
  function LongestOperations(): seq<Operation> {
    var octets := Octets(Filled(MAX_ATTRIBUTE_BYTES));
    var clauses := seq(MAX_CLAUSES, _ => Clause(0, Eq, octets));
    [Operation.SetEnvironment(seq(MAX_ATTRIBUTES, i requires 0 <= i < MAX_ATTRIBUTES => Attribute(i, octets))),
     Operation.Subscribe(0, clauses), Operation.SubscribePermanent(0, clauses),
     Operation.Publish(0, clauses, Filled(MAX_VALUE_BYTES)),
       Operation.PublicationResponse(0, 0, Filled(MAX_VALUE_BYTES))]
  }

  /** The bounds are exact. */
  lemma BoundsAreReached(op: Operation)
    requires op in LongestOperations()
    ensures ValidOperation(op) && |OperationBytes(op)| == Longest(op)
  {
    match op {
      case SetEnvironment(attributes) => AttributesLength(attributes, []);
      case Subscribe(_, clauses) => ClausesLength(clauses, []);
      case SubscribePermanent(_, clauses) => ClausesLength(clauses, []);
      case Publish(_, clauses, value) => ClausesLength(clauses, PutSized(value, []));
      case PublicationResponse(_, _, _) =>
    }
  }

  /** Whatever parses fits the plaintext of a frame, so that sealing it yields a frame within the
      limit; and the response to a parsed publication is valid and fits as well. */
  lemma ParsedFitsFrame(input: seq<byte>, publisher: AgentId)
    requires ParseOperation(input).Ok?
    ensures |input| <= Longest(ParseOperation(input).value) <= MAX_PLAINTEXT_LEN
    ensures HEADER_LEN + |input| + TAG_LEN + SIGNATURE_LEN <= MAX_FRAME_LEN
    ensures var op := ParseOperation(input).value; op.Publish? ==>
      var response := Operation.PublicationResponse(op.typeId, publisher, op.value);
      ValidOperation(response) && |OperationBytes(response)| <= 3095
  {
    var op := ParseOperation(input).value;
    ParsingIsCanonical(input, op);
    OperationLength(op);
    if op.Publish? {
      OperationLength(Operation.PublicationResponse(op.typeId, publisher, op.value));
    }
  }
}
