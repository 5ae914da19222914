/** The parser as a cursor that moves over the input in place, and the borrowed views it returns. */
module PayloadCursor {
  import opened Bytes
  import opened Types
  import opened Parsing
  import opened Payload

  datatype EnvironmentRef = EnvironmentRef(bytes: seq<byte>, count: byte)

  datatype PredicateRef = PredicateRef(bytes: seq<byte>, count: byte)

  datatype OperationRef =
    | EnvironmentOp(environment: EnvironmentRef)
    | SubscribeOp(typeId: TypeId, filter: PredicateRef)
    | SubscribePermanentOp(typeId: TypeId, filter: PredicateRef)
    | PublishOp(typeId: TypeId, filter: PredicateRef, value: seq<byte>)
    | ResponseOp(typeId: TypeId, publisher: AgentId, value: seq<byte>)

  function EnvironmentView(attributes: seq<Attribute>): EnvironmentRef
    requires |attributes| < 256
  {
    EnvironmentRef(PutAttributes(attributes, []), |attributes|)
  }

  function PredicateView(clauses: seq<Clause>): PredicateRef
    requires |clauses| < 256
  {
    PredicateRef(PutClauses(clauses, []), |clauses|)
  }

  /** The counts of a view are single bytes. */
  predicate Viewable(op: Operation) {
    match op
    case SetEnvironment(attributes) => |attributes| < 256
    case PublicationResponse(_, _, _) => true
    case _ => |op.clauses| < 256
  }

  /** The view of an operation that borrows the bytes of its attributes or clauses. */
  function View(op: Operation): OperationRef
    requires Viewable(op)
  {
    match op
    case SetEnvironment(attributes) => EnvironmentOp(EnvironmentView(attributes))
    case Subscribe(typeId, clauses) => SubscribeOp(typeId, PredicateView(clauses))
    case SubscribePermanent(typeId, clauses) => SubscribePermanentOp(typeId, PredicateView(clauses))
    case Publish(typeId, clauses, value) => PublishOp(typeId, PredicateView(clauses), value)
    case PublicationResponse(typeId, publisher, value) => ResponseOp(typeId, publisher, value)
  }

  /** A cursor that stood before `s` has done what the parser does on `s`: returned the same value
      and moved to the same rest, or failed with the same error. */
  ghost predicate Did<T>(p: Parse<T>, r: Result<T, Error>, rest: seq<byte>) {
    match p
    case Ok(parsed) => r == Ok(parsed.value) && rest == parsed.rest
    case Err(error) => r == Err(error)
  }

  class Cursor {
    const input: seq<byte>
    var position: nat

    ghost predicate Valid()
      reads this
    {
      position <= |input| <= U64_MAX
    }

    ghost function Rest(): seq<byte>
      requires Valid()
      reads this
    {
      input[position..]
    }

    constructor (input: seq<byte>)
      requires |input| <= U64_MAX
      ensures Valid() && Rest() == input && this.input == input && position == 0
    {
      this.input := input;
      position := 0;
    }

    method Take(length: nat) returns (r: Result<seq<byte>, Error>)
      requires Valid()
      modifies this
      ensures Valid() && position >= old(position)
      ensures Did(Parsing.Take(old(Rest()), length), r, Rest())
    {
      var end := position + length;
      if end > U64_MAX || end > |input| {
        return Err(Malformed);
      }
      var bytes := input[position..end];
      assert Rest()[..length] == bytes && Rest()[length..] == input[end..];
      position := end;
      return Ok(bytes);
    }

    method U8() returns (r: Result<byte, Error>)
      requires Valid()
      modifies this
      ensures Valid() && position >= old(position) && Did(ParseU8(old(Rest())), r, Rest())
    {
      var bytes :- Take(1);
      return Ok(bytes[0]);
    }

    method U16() returns (r: Result<u16, Error>)
      requires Valid()
      modifies this
      ensures Valid() && position >= old(position) && Did(ParseU16(old(Rest())), r, Rest())
    {
      Widths();
      var bytes :- Take(2);
      return Ok(FromBigEndian(bytes));
    }

    method U32() returns (r: Result<u32, Error>)
      requires Valid()
      modifies this
      ensures Valid() && position >= old(position) && Did(ParseU32(old(Rest())), r, Rest())
    {
      Widths();
      var bytes :- Take(4);
      return Ok(FromBigEndian(bytes));
    }

    method U64() returns (r: Result<u64, Error>)
      requires Valid()
      modifies this
      ensures Valid() && position >= old(position) && Did(ParseU64(old(Rest())), r, Rest())
    {
      Widths();
      var bytes :- Take(8);
      return Ok(FromBigEndian(bytes));
    }

    method U128() returns (r: Result<u128, Error>)
      requires Valid()
      modifies this
      ensures Valid() && position >= old(position) && Did(ParseU128(old(Rest())), r, Rest())
    {
      Widths();
      var bytes :- Take(16);
      return Ok(FromBigEndian(bytes));
    }

    method SizedBytes(maximum: nat) returns (r: Result<seq<byte>, Error>)
      requires Valid()
      modifies this
      ensures Valid() && position >= old(position) && Did(ParseSized(old(Rest()), maximum), r, Rest())
    {
      var length :- U16();
      if length > maximum {
        return Err(Oversized);
      }
      r := Take(length);
    }

    method Value() returns (r: Result<Payload.Value, Error>)
      requires Valid()
      modifies this
      ensures Valid() && position >= old(position) && Did(ParseValue(old(Rest())), r, Rest())
    {
      var tag :- U8();
      if tag == 1 {
        var bit :- U8();
        if bit == 0 {
          return Ok(Bool(false));
        } else if bit == 1 {
          return Ok(Bool(true));
        }
        return Err(Malformed);
      } else if tag == 2 {
        var number :- U64();
        return Ok(I64(Signed(number)));
      } else if tag == 3 {
        var octets :- SizedBytes(MAX_ATTRIBUTE_BYTES);
        return Ok(Octets(octets));
      }
      return Err(Malformed);
    }

    method Operator() returns (r: Result<Payload.Operator, Error>)
      requires Valid()
      modifies this
      ensures Valid() && position >= old(position) && Did(ParseOperator(old(Rest())), r, Rest())
    {
      var value :- U8();
      match value {
        case 1 => return Ok(Eq);
        case 2 => return Ok(Ne);
        case 3 => return Ok(Lt);
        case 4 => return Ok(Le);
        case 5 => return Ok(Gt);
        case 6 => return Ok(Ge);
        case _ => return Err(Malformed);
      }
    }

    method Clause(ghost done: seq<Payload.Clause>) returns (r: Result<Payload.Clause, Error>)
      requires Valid()
      modifies this
      ensures Valid() && position >= old(position) && Did(ParseClause(old(Rest()), done), r, Rest())
    {
      var attribute :- U16();
      var operator :- Operator();
      var value :- Value();
      return Ok(Payload.Clause(attribute, operator, value));
    }

    /** A predicate: its clauses are checked, and the view keeps their bytes. */
    method Predicate() returns (r: Result<PredicateRef, Error>)
      requires Valid()
      modifies this
      ensures Valid()
      ensures match ParsePredicate(old(Rest()))
              case Ok(p) => |p.value| < 256 && r == Ok(PredicateView(p.value)) && Rest() == p.rest
              case Err(error) => r == Err(error)
    {
      var count :- U8();
      if count > MAX_CLAUSES {
        return Err(Oversized);
      }
      var start := position;
      assert Rest() == input[start..];
      var checked; ghost var done;
      checked, done := CheckClauses(count);
      if checked.Err? {
        return Err(checked.error);
      }
      BorrowedClauses(input[start..], count, done, Rest());
      assert input[start..position] == input[start..][..position - start];
      return Ok(PredicateRef(input[start..position], count));
    }

    /** The loop over a predicate. */
    method CheckClauses(count: nat) returns (r: Result<(), Error>, ghost done: seq<Payload.Clause>)
      requires Valid() && count <= MAX_CLAUSES
      modifies this
      ensures Valid() && position >= old(position)
      ensures match ParseMany(ParseClause, old(Rest()), count, [])
              case Ok(p) => r == Ok(()) && done == p.value && Rest() == p.rest
              case Err(error) => r == Err(error)
    {
      hide ParseClause;
      ghost var start := Rest();
      done := [];
      for i := 0 to count
        invariant Valid() && position >= old(position)
        invariant ParseMany(ParseClause, start, count, []) == ParseMany(ParseClause, Rest(), count - i, done)
      {
        var clause := Clause(done);
        if clause.Err? {
          return Err(clause.error), done;
        }
        done := done + [clause.value];
      }
      return Ok(()), done;
    }

    /** An environment: duplicate identifiers are found through the array of those seen so far. */
    method Environment() returns (r: Result<EnvironmentRef, Error>)
      requires Valid()
      modifies this
      ensures Valid()
      ensures match ParseEnvironment(old(Rest()))
              case Ok(p) => |p.value| < 256 && r == Ok(EnvironmentView(p.value)) && Rest() == p.rest
              case Err(error) => r == Err(error)
    {
      var count :- U8();
      if count > MAX_ATTRIBUTES {
        return Err(Oversized);
      }
      var start := position;
      assert Rest() == input[start..];
      var checked; ghost var done;
      checked, done := CheckAttributes(count);
      if checked.Err? {
        return Err(checked.error);
      }
      BorrowedAttributes(input[start..], count, done, Rest());
      assert input[start..position] == input[start..][..position - start];
      return Ok(EnvironmentRef(input[start..position], count));
    }

    /** The loop over an environment. */
    method CheckAttributes(count: nat) returns (r: Result<(), Error>, ghost done: seq<Attribute>)
      requires Valid() && count <= MAX_ATTRIBUTES
      modifies this
      ensures Valid() && position >= old(position)
      ensures match ParseMany(ParseAttribute, old(Rest()), count, [])
              case Ok(p) => r == Ok(()) && done == p.value && Rest() == p.rest
              case Err(error) => r == Err(error)
    {
      hide ParseAttribute;
      ghost var start := Rest();
      var ids: array<u16> := new u16[MAX_ATTRIBUTES](_ => 0);
      done := [];
      for i := 0 to count
        invariant Valid() && position >= old(position)
        invariant ids[..i] == Ids(done)
        invariant ParseMany(ParseAttribute, start, count, []) == ParseMany(ParseAttribute, Rest(), count - i, done)
      {
        var attribute := NextAttribute(ids, i, done);
        if attribute.Err? {
          return Err(attribute.error), done;
        }
        done := done + [attribute.value];
      }
      return Ok(()), done;
    }

    /** One round of the loop over an environment. */
    method NextAttribute(ids: array<u16>, index: nat, ghost done: seq<Attribute>) returns (r: Result<Attribute, Error>)
      requires Valid() && index < ids.Length && ids[..index] == Ids(done)
      modifies this, ids
      ensures Valid() && position >= old(position) && Did(ParseAttribute(old(Rest()), done), r, Rest())
      ensures r.Ok? ==> ids[..index + 1] == Ids(done + [r.value])
    {
      var id :- U16();
      var known := Contains(ids, index, id);
      if known {
        return Err(Malformed);
      }
      ids[index] := id;
      var value :- Value();
      return Ok(Attribute(id, value));
    }
  }

  method Contains(ids: array<u16>, length: nat, id: u16) returns (known: bool)
    requires length <= ids.Length
    ensures known <==> id in ids[..length]
  {
    known := false;
    for i := 0 to length
      invariant !known && forall k :: 0 <= k < i ==> ids[k] != id
    {
      if ids[i] == id {
        return true;
      }
    }
  }

  method ParseOperation(input: seq<byte>) returns (r: Result<OperationRef, Error>)
    requires |input| <= U64_MAX
    ensures match Payload.ParseOperation(input)
            case Ok(op) => ValidOperation(op) && Viewable(op) && r == Ok(View(op))
            case Err(error) => r == Err(error)
  {
    if Payload.ParseOperation(input).Ok? {
      ParsingIsCanonical(input, Payload.ParseOperation(input).value);
    }
    var cursor := new Cursor(input);
    var tag :- cursor.U8();
    var operation :- ParseBody(cursor, tag);
    if cursor.position != |input| {
      return Err(Malformed);
    }
    return Ok(operation);
  }

  /** What follows the tag of an operation. */
  method ParseBody(cursor: Cursor, tag: byte) returns (r: Result<OperationRef, Error>)
    requires cursor.Valid()
    modifies cursor
    ensures cursor.Valid()
    ensures match Payload.ParseBody(tag, old(cursor.Rest()))
            case Ok(p) => Viewable(p.value) && r == Ok(View(p.value)) && cursor.Rest() == p.rest
            case Err(error) => r == Err(error)
  {
    match tag {
      case 1 =>
        var environment :- cursor.Environment();
        return Ok(EnvironmentOp(environment));
      case 5 =>
        var typeId :- cursor.U32();
        var clauses :- cursor.Predicate();
        return Ok(SubscribeOp(typeId, clauses));
      case 2 =>
        var typeId :- cursor.U32();
        var clauses :- cursor.Predicate();
        return Ok(SubscribePermanentOp(typeId, clauses));
      case 3 =>
        var typeId :- cursor.U32();
        var clauses :- cursor.Predicate();
        var value :- cursor.SizedBytes(MAX_VALUE_BYTES);
        return Ok(PublishOp(typeId, clauses, value));
      case 4 =>
        var typeId :- cursor.U32();
        var publisher :- cursor.U128();
        var value :- cursor.SizedBytes(MAX_VALUE_BYTES);
        return Ok(ResponseOp(typeId, publisher, value));
      case _ => return Err(Malformed);
    }
  }

  // ----- the bytes passed over by a counted run are the bytes of its items -----

  lemma PutClauseExtends(c: Clause, rest: seq<byte>)
    ensures PutClause(c, rest) == PutClause(c, []) + rest
  {
  }

  lemma PutAttributeExtends(a: Attribute, rest: seq<byte>)
    ensures PutAttribute(a, rest) == PutAttribute(a, []) + rest
  {
  }

  lemma ClausesPutInFront()
    ensures PutsInFront(PutClause)
  {
    forall c, rest ensures PutClause(c, rest) == PutClause(c, []) + rest {
      PutClauseExtends(c, rest);
    }
  }

  lemma AttributesPutInFront()
    ensures PutsInFront(PutAttribute)
  {
    forall a, rest ensures PutAttribute(a, rest) == PutAttribute(a, []) + rest {
      PutAttributeExtends(a, rest);
    }
  }

  /** For any codec of items: a successful run has passed over the bytes of its items alone. */
  lemma Borrowed<T(!new)>(put: (T, seq<byte>) -> seq<byte>, parse: (seq<byte>, seq<T>) -> Parse<T>,
                          good: (T, seq<T>) -> bool,
                          s: seq<byte>, count: nat, items: seq<T>, rest: seq<byte>)
    requires PutsInFront(put) && Canonical(put, parse, good)
    requires ParseMany(parse, s, count, []) == Ok(Parsed(items, rest))
    ensures |items| == count && |rest| <= |s| && s[..|s| - |rest|] == PutMany(put, items, [])
  {
    var found := ManyCanonical(put, parse, good, s, count, []);
    assert [] + found == found;
    ManyExtends(put, items, rest);
    assert s == PutMany(put, items, []) + rest;
  }

  lemma BorrowedClauses(s: seq<byte>, count: nat, clauses: seq<Clause>, rest: seq<byte>)
    requires ParseMany(ParseClause, s, count, []) == Ok(Parsed(clauses, rest))
    ensures |clauses| == count && |rest| <= |s| && s[..|s| - |rest|] == PutClauses(clauses, [])
  {
    ClauseCodec();
    ClausesPutInFront();
    Borrowed(PutClause, ParseClause, GoodClause, s, count, clauses, rest);
  }

  lemma BorrowedAttributes(s: seq<byte>, count: nat, attributes: seq<Attribute>, rest: seq<byte>)
    requires ParseMany(ParseAttribute, s, count, []) == Ok(Parsed(attributes, rest))
    ensures |attributes| == count && |rest| <= |s| && s[..|s| - |rest|] == PutAttributes(attributes, [])
  {
    AttributeCodec();
    AttributesPutInFront();
    Borrowed(PutAttribute, ParseAttribute, GoodAttribute, s, count, attributes, rest);
  }
}
