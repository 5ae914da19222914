/** The encoders: a writer that fills a buffer in place. */
module PayloadWriter {
  import opened Bytes
  import opened Types
  import opened Parsing
  import opened Payload
  import opened PayloadCursor

  /** What encoding an operation into a buffer of this capacity yields. */
  function Verdict(op: Operation, capacity: nat): Result<nat, Error> {
    if op.SetEnvironment? && |op.attributes| <= MAX_ATTRIBUTES && !UniqueIds(op.attributes) then Err(Malformed)
    else if ValidOperation(op) && |OperationBytes(op)| <= capacity then Ok(|OperationBytes(op)|)
    else Err(Oversized)
  }

  /** The bytes were appended, if they may be written and there is room; the only error is `Oversized`. */
  ghost predicate Appended(before: seq<byte>, after: seq<byte>, bytes: seq<byte>, allowed: bool, capacity: nat,
                           r: Result<(), Error>)
  {
    if allowed && |before| + |bytes| <= capacity then r == Ok(()) && after == before + bytes
    else r == Err(Oversized)
  }

  /** Nothing from the index on has changed. */
  ghost predicate KeptFrom(index: nat, before: seq<byte>, after: seq<byte>) {
    |before| == |after| && forall k :: index <= k < |after| ==> after[k] == before[k]
  }

  class Writer {
    const output: array<byte>
    var position: nat

    ghost predicate Valid()
      reads this
    {
      position <= output.Length <= U64_MAX
    }

    ghost function Written(): seq<byte>
      requires Valid()
      reads this, output
    {
      output[..position]
    }

    constructor (output: array<byte>)
      requires output.Length <= U64_MAX
      ensures Valid() && this.output == output && Written() == []
    {
      this.output := output;
      position := 0;
    }

    method Raw(value: seq<byte>) returns (r: Result<(), Error>)
      requires Valid()
      modifies this, output
      ensures Valid() && Appended(old(Written()), Written(), value, true, output.Length, r)
      ensures position >= old(position) && KeptFrom(position, old(output[..]), output[..])
    {
      var end := position + |value|;
      if end > U64_MAX || end > output.Length {
        return Err(Oversized);
      }
      forall i | 0 <= i < |value| {
        output[position + i] := value[i];
      }
      position := end;
      return Ok(());
    }

    method U8(value: byte) returns (r: Result<(), Error>)
      requires Valid()
      modifies this, output
      ensures Valid() && Appended(old(Written()), Written(), PutByte(value, []), true, output.Length, r)
      ensures position >= old(position) && KeptFrom(position, old(output[..]), output[..])
    {
      r := Raw([value]);
    }

    method Number(value: nat, width: nat) returns (r: Result<(), Error>)
      requires Valid()
      modifies this, output
      ensures Valid() && Appended(old(Written()), Written(), PutNumber(value, width, []), true, output.Length, r)
      ensures position >= old(position) && KeptFrom(position, old(output[..]), output[..])
    {
      r := Raw(BigEndian(value, width));
    }

    method SizedBytes(value: seq<byte>, maximum: nat) returns (r: Result<(), Error>)
      requires Valid() && maximum <= 0xFFFF
      modifies this, output
      ensures Valid() && Appended(old(Written()), Written(), PutSized(value, []), |value| <= maximum, output.Length, r)
      ensures position >= old(position) && KeptFrom(position, old(output[..]), output[..])
    {
      if |value| > maximum {
        return Err(Oversized);
      }
      ghost var before := Written();
      var length :- Number(|value|, 2);
      var bytes :- Raw(value);
      assert before + PutSized(value, []) == before + PutNumber(|value|, 2, []) + value;
      return Ok(());
    }

    method Value(v: Payload.Value) returns (r: Result<(), Error>)
      requires Valid()
      modifies this, output
      ensures Valid() && Appended(old(Written()), Written(), PutValue(v, []), ValueFits(v), output.Length, r)
      ensures position >= old(position) && KeptFrom(position, old(output[..]), output[..])
    {
      hide BigEndian;
      match v {
        case Bool(bit) =>
          Joined(Written(), 1, PutByte(if bit then 1 else 0, []));
          var tag :- U8(1);
          r := U8(if bit then 1 else 0);
        case I64(number) =>
          Joined(Written(), 2, PutNumber(Unsigned(number), 8, []));
          var tag :- U8(2);
          r := Number(Unsigned(number), 8);
        case Octets(octets) =>
          Joined(Written(), 3, PutSized(octets, []));
          var tag :- U8(3);
          r := SizedBytes(octets, MAX_ATTRIBUTE_BYTES);
      }
    }

    method Attribute(a: Payload.Attribute) returns (r: Result<(), Error>)
      requires Valid()
      modifies this, output
      ensures Valid() && Appended(old(Written()), Written(), PutAttribute(a, []), ValueFits(a.value), output.Length, r)
      ensures position >= old(position) && KeptFrom(position, old(output[..]), output[..])
    {
      ghost var before := Written();
      assert before + PutAttribute(a, []) == before + PutNumber(a.id, 2, []) + PutValue(a.value, []);
      var id :- Number(a.id, 2);
      r := Value(a.value);
    }

    method Clause(c: Payload.Clause) returns (r: Result<(), Error>)
      requires Valid()
      modifies this, output
      ensures Valid() && Appended(old(Written()), Written(), PutClause(c, []), ValueFits(c.value), output.Length, r)
      ensures position >= old(position) && KeptFrom(position, old(output[..]), output[..])
    {
      ghost var before := Written();
      assert before + PutClause(c, [])
           == before + PutNumber(c.attribute, 2, []) + PutByte(OperatorByte(c.operator), []) + PutValue(c.value, []);
      var attribute :- Number(c.attribute, 2);
      var operator :- U8(OperatorByte(c.operator));
      r := Value(c.value);
    }

    method Attributes(attributes: seq<Payload.Attribute>) returns (r: Result<(), Error>)
      requires Valid()
      modifies this, output
      ensures Valid()
      ensures Appended(old(Written()), Written(), PutAttributes(attributes, []), AttributesFit(attributes),
        output.Length, r)
      ensures position >= old(position) && KeptFrom(position, old(output[..]), output[..])
    {
      hide PutAttribute, ValueFits;
      ghost var before := Written();
      AttributesPutInFront();
      for i := 0 to |attributes|
        invariant Valid() && Written() == before + PutAttributes(attributes[..i], [])
        invariant AttributesFit(attributes[..i])
        invariant position >= old(position) && KeptFrom(position, old(output[..]), output[..])
      {
        ManySplit(PutAttribute, before, attributes, i);
        var written :- Attribute(attributes[i]);
      }
      assert attributes[..|attributes|] == attributes;
      return Ok(());
    }

    method Predicate(clauses: seq<Payload.Clause>) returns (r: Result<(), Error>)
      requires Valid()
      modifies this, output
      ensures Valid()
      ensures |clauses| <= MAX_CLAUSES ==>
        Appended(old(Written()), Written(), PutPredicate(clauses, []), ClausesFit(clauses), output.Length, r)
      ensures |clauses| > MAX_CLAUSES ==> r == Err(Oversized)
      ensures position >= old(position) && KeptFrom(position, old(output[..]), output[..])
    {
      hide PutMany, ClausesFit;
      if |clauses| > MAX_CLAUSES {
        return Err(Oversized);
      }
      assert Written() + PutPredicate(clauses, []) == Written() + PutByte(|clauses|, []) + PutClauses(clauses, []);
      var count :- U8(|clauses|);
      r := Clauses(clauses);
    }

    /** The loop over a predicate. */
    method Clauses(clauses: seq<Payload.Clause>) returns (r: Result<(), Error>)
      requires Valid() && |clauses| <= MAX_CLAUSES
      modifies this, output
      ensures Valid()
      ensures Appended(old(Written()), Written(), PutClauses(clauses, []), ClausesFit(clauses), output.Length, r)
      ensures position >= old(position) && KeptFrom(position, old(output[..]), output[..])
    {
      hide PutClause, ValueFits;
      ghost var before := Written();
      ClausesPutInFront();
      for i := 0 to |clauses|
        invariant Valid() && Written() == before + PutClauses(clauses[..i], [])
        invariant ClausesFit(clauses[..i])
        invariant position >= old(position) && KeptFrom(position, old(output[..]), output[..])
      {
        ManySplit(PutClause, before, clauses, i);
        var written :- Clause(clauses[i]);
      }
      assert clauses[..|clauses|] == clauses;
      return Ok(());
    }
  }

  /** Every pair is compared. */
  method EnsureUnique(attributes: seq<Attribute>) returns (r: Result<(), Error>)
    ensures r == if UniqueIds(attributes) then Ok(()) else Err(Malformed)
  {
    for i := 0 to |attributes|
      invariant UniqueIds(attributes[..i])
    {
      for k := 0 to i
        invariant forall j :: 0 <= j < k ==> attributes[j].id != attributes[i].id
      {
        if attributes[k].id == attributes[i].id {
          return Err(Malformed);
        }
      }
    }
    assert attributes[..|attributes|] == attributes;
    return Ok(());
  }

  method EncodeEnvironment(output: array<byte>, attributes: seq<Attribute>) returns (r: Result<nat, Error>)
    requires output.Length <= U64_MAX
    modifies output
    ensures r == Verdict(Operation.SetEnvironment(attributes), output.Length)
    ensures r.Ok? ==> output[..r.value] == OperationBytes(Operation.SetEnvironment(attributes))
    ensures r.Ok? ==> KeptFrom(r.value, old(output[..]), output[..])
  {
    hide PutMany;
    if |attributes| > MAX_ATTRIBUTES {
      return Err(Oversized);
    }
    var unique :- EnsureUnique(attributes);
    var writer := new Writer(output);
    assert PutByte(OP_ENVIRONMENT, PutByte(|attributes|, PutAttributes(attributes, [])))
        == [] + PutByte(OP_ENVIRONMENT, []) + PutByte(|attributes|, []) + PutAttributes(attributes, []);
    var tag :- writer.U8(OP_ENVIRONMENT);
    var count :- writer.U8(|attributes|);
    var written :- writer.Attributes(attributes);
    return Ok(writer.position);
  }

  function HeadBytes(tag: byte, typeId: TypeId, clauses: seq<Clause>): seq<byte>
    requires |clauses| <= MAX_CLAUSES
  {
    PutByte(tag, PutNumber(typeId, 4, PutPredicate(clauses, [])))
  }

  /** The tag, the type and the clauses, with which three operations begin. */
  method PutHead(writer: Writer, tag: byte, typeId: TypeId, clauses: seq<Clause>) returns (r: Result<(), Error>)
    requires writer.Valid()
    modifies writer, writer.output
    ensures writer.Valid()
    ensures |clauses| <= MAX_CLAUSES ==>
      Appended(old(writer.Written()), writer.Written(), HeadBytes(tag, typeId, clauses),
               ClausesFit(clauses), writer.output.Length, r)
    ensures |clauses| > MAX_CLAUSES ==> r == Err(Oversized)
    ensures writer.position >= old(writer.position)
    ensures KeptFrom(writer.position, old(writer.output[..]), writer.output[..])
  {
    hide PutMany;
    ghost var before := writer.Written();
    if |clauses| <= MAX_CLAUSES {
      assert before + PutByte(tag, PutNumber(typeId, 4, PutPredicate(clauses, [])))
          == before + PutByte(tag, []) + PutNumber(typeId, 4, []) + PutPredicate(clauses, []);
    }
    var first :- writer.U8(tag);
    var number :- writer.Number(typeId, 4);
    r := writer.Predicate(clauses);
  }

  method EncodeSubscribe(output: array<byte>, typeId: TypeId, clauses: seq<Clause>) returns (r: Result<nat, Error>)
    requires output.Length <= U64_MAX
    modifies output
    ensures r == Verdict(Operation.Subscribe(typeId, clauses), output.Length)
    ensures r.Ok? ==> output[..r.value] == OperationBytes(Operation.Subscribe(typeId, clauses))
    ensures r.Ok? ==> KeptFrom(r.value, old(output[..]), output[..])
  {
    hide PutPredicate;
    var writer := new Writer(output);
    var head :- PutHead(writer, OP_SUBSCRIBE, typeId, clauses);
    return Ok(writer.position);
  }

  method EncodeSubscribePermanent(output: array<byte>, typeId: TypeId, clauses: seq<Clause>)
    returns (r: Result<nat, Error>)
    requires output.Length <= U64_MAX
    modifies output
    ensures r == Verdict(Operation.SubscribePermanent(typeId, clauses), output.Length)
    ensures r.Ok? ==> output[..r.value] == OperationBytes(Operation.SubscribePermanent(typeId, clauses))
    ensures r.Ok? ==> KeptFrom(r.value, old(output[..]), output[..])
  {
    hide PutPredicate;
    var writer := new Writer(output);
    var head :- PutHead(writer, OP_SUBSCRIBE_PERMANENT, typeId, clauses);
    return Ok(writer.position);
  }

  method EncodePublish(output: array<byte>, typeId: TypeId, clauses: seq<Clause>, value: seq<byte>)
    returns (r: Result<nat, Error>)
    requires output.Length <= U64_MAX
    modifies output
    ensures r == Verdict(Operation.Publish(typeId, clauses, value), output.Length)
    ensures r.Ok? ==> output[..r.value] == OperationBytes(Operation.Publish(typeId, clauses, value))
    ensures r.Ok? ==> KeptFrom(r.value, old(output[..]), output[..])
  {
    hide OperationBytes, HeadBytes, PutSized;
    if |value| > MAX_VALUE_BYTES {
      return Err(Oversized);
    }
    var writer := new Writer(output);
    if ClausesFit(clauses) {
      PublicationSplits(typeId, clauses, value);
    }
    var head :- PutHead(writer, OP_PUBLISH, typeId, clauses);
    var sized :- writer.SizedBytes(value, MAX_VALUE_BYTES);
    return Ok(writer.position);
  }

  method EncodeResponse(output: array<byte>, typeId: TypeId, publisher: AgentId, value: seq<byte>)
    returns (r: Result<nat, Error>)
    requires output.Length <= U64_MAX
    modifies output
    ensures r == Verdict(Operation.PublicationResponse(typeId, publisher, value), output.Length)
    ensures r.Ok? ==> output[..r.value] == OperationBytes(Operation.PublicationResponse(typeId, publisher, value))
    ensures r.Ok? ==> KeptFrom(r.value, old(output[..]), output[..])
  {
    hide OperationBytes, PutByte, PutNumber, PutSized;
    if |value| > MAX_VALUE_BYTES {
      return Err(Oversized);
    }
    var writer := new Writer(output);
    ResponseSplits(typeId, publisher, value);
    var tag :- writer.U8(OP_RESPONSE);
    var number :- writer.Number(typeId, 4);
    var agent :- writer.Number(publisher, 16);
    var sized :- writer.SizedBytes(value, MAX_VALUE_BYTES);
    return Ok(writer.position);
  }

  // ----- the bytes of an operation, piece by piece -----

  lemma Joined(before: seq<byte>, tag: byte, body: seq<byte>)
    ensures before + PutByte(tag, body) == before + PutByte(tag, []) + body
  {
  }

  lemma PublicationSplits(typeId: TypeId, clauses: seq<Clause>, value: seq<byte>)
    requires ClausesFit(clauses) && |value| <= MAX_VALUE_BYTES
    ensures OperationBytes(Operation.Publish(typeId, clauses, value))
         == HeadBytes(OP_PUBLISH, typeId, clauses) + PutSized(value, [])
  {
    ClausesPutInFront();
    ManyExtends(PutClause, clauses, PutSized(value, []));
  }

  lemma ResponseSplits(typeId: TypeId, publisher: AgentId, value: seq<byte>)
    requires |value| <= MAX_VALUE_BYTES
    ensures OperationBytes(Operation.PublicationResponse(typeId, publisher, value))
         == [] + PutByte(OP_RESPONSE, []) + PutNumber(typeId, 4, []) + PutNumber(publisher, 16, [])
           + PutSized(value, [])
  {
  }

  /** The bytes of the first `i` items, of item `i`, and of the others. */
  lemma ManySplit<T(!new)>(put: (T, seq<byte>) -> seq<byte>, before: seq<byte>, items: seq<T>, i: nat)
    requires PutsInFront(put) && i < |items|
    ensures before + PutMany(put, items[..i + 1], []) == before + PutMany(put, items[..i], []) + put(items[i], [])
    ensures |PutMany(put, items[..i + 1], [])| == |PutMany(put, items[..i], [])| + |put(items[i], [])|
    ensures |PutMany(put, items, [])| >= |PutMany(put, items[..i + 1], [])|
  {
    ManyAppend(put, items[..i], [items[i]]);
    assert items[..i] + [items[i]] == items[..i + 1];
    assert PutMany(put, [items[i]], []) == put(items[i], []);
    ManyAppend(put, items[..i + 1], items[i + 1..]);
    assert items[..i + 1] + items[i + 1..] == items;
  }

  lemma {:induction false} ManyAppend<T(!new)>(put: (T, seq<byte>) -> seq<byte>, a: seq<T>, b: seq<T>)
    requires PutsInFront(put)
    ensures PutMany(put, a + b, []) == PutMany(put, a, []) + PutMany(put, b, [])
  {
    if a == [] {
      assert a + b == b;
    } else {
      ManyAppend(put, a[1..], b);
      assert (a + b)[1..] == a[1..] + b && (a + b)[0] == a[0];
      assert put(a[0], PutMany(put, a[1..], []) + PutMany(put, b, []))
           == put(a[0], []) + PutMany(put, a[1..], []) + PutMany(put, b, []);
    }
  }
}
