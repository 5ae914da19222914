/** Predicates over environments: what they mean, and their evaluation by walking the bytes. */
module Evaluation {
  import opened Bytes
  import opened Types
  import opened Parsing
  import opened Payload
  import opened PayloadCursor

  // ----- meaning -----

  predicate SameType(a: Value, b: Value) {
    (a.Bool? && b.Bool?) || (a.I64? && b.I64?) || (a.Octets? && b.Octets?)
  }

  /** A common prefix of length `k` after which `a` ends or has the smaller byte. */
  predicate BytesPrecede(a: seq<byte>, b: seq<byte>) {
    exists k :: 0 <= k <= |a| && SplitAt(a, b, k)
  }

  predicate SplitAt(a: seq<byte>, b: seq<byte>, k: nat)
    requires k <= |a|
  {
    k < |b| && a[..k] == b[..k] && (k == |a| || a[k] < b[k])
  }

  predicate Precedes(a: Value, b: Value)
    requires SameType(a, b)
  {
    match a
    case Bool(bit) => !bit && b.bit
    case I64(number) => number < b.number
    case Octets(octets) => BytesPrecede(octets, b.octets)
  }

  /** The comparison of a clause; values of different types meet no operator, not even `Ne`. */
  predicate Meets(lhs: Value, operator: Operator, rhs: Value) {
    && SameType(lhs, rhs)
    && match operator
       case Eq => lhs == rhs
       case Ne => lhs != rhs
       case Lt => Precedes(lhs, rhs)
       case Le => lhs == rhs || Precedes(lhs, rhs)
       case Gt => Precedes(rhs, lhs)
       case Ge => lhs == rhs || Precedes(rhs, lhs)
  }

  predicate ClauseHolds(attributes: seq<Attribute>, c: Clause) {
    exists a :: a in attributes && a.id == c.attribute && Meets(a.value, c.operator, c.value)
  }

  /** A conjunction: every clause finds its attribute, of the same type, and the comparison holds. */
  predicate Satisfies(attributes: seq<Attribute>, clauses: seq<Clause>) {
    forall c :: c in clauses ==> ClauseHolds(attributes, c)
  }

  /** The value of an attribute, if present. */
  function Lookup(attributes: seq<Attribute>, wanted: AttributeId): Option<Value> {
    if attributes == [] then None
    else if attributes[0].id == wanted then Some(attributes[0].value)
    else Lookup(attributes[1..], wanted)
  }

  lemma {:induction false} LookupIsMembership(attributes: seq<Attribute>, wanted: AttributeId, v: Value)
    requires UniqueIds(attributes)
    ensures Lookup(attributes, wanted) == Some(v) <==> Attribute(wanted, v) in attributes
  {
    if attributes != [] {
      LookupIsMembership(attributes[1..], wanted, v);
      Uncons(attributes);
      if Attribute(wanted, v) in attributes[1..] {
        var i :| 0 <= i < |attributes| - 1 && attributes[1..][i] == Attribute(wanted, v);
        assert attributes[0].id != attributes[i + 1].id;
      }
    }
  }

  // ----- comparison -----

  function Order(lhs: Value, rhs: Value): Option<Ordering> {
    match (lhs, rhs)
    case (Bool(a), Bool(b)) => Some(CompareInts(if a then 1 else 0, if b then 1 else 0))
    case (I64(a), I64(b)) => Some(CompareInts(a, b))
    case (Octets(a), Octets(b)) => Some(CompareBytes(a, b))
    case _ => None
  }

  predicate Compare(lhs: Value, operator: Operator, rhs: Value) {
    var ordering := Order(lhs, rhs);
    ordering.Some? &&
    match operator
    case Eq => ordering.value == Equal
    case Ne => ordering.value != Equal
    case Lt => ordering.value == Less
    case Le => ordering.value == Less || ordering.value == Equal
    case Gt => ordering.value == Greater
    case Ge => ordering.value == Greater || ordering.value == Equal
  }

  lemma {:induction false} CompareBytesPrecedes(a: seq<byte>, b: seq<byte>)
    ensures CompareBytes(a, b) == Less <==> BytesPrecede(a, b)
  {
    if a == [] || b == [] {
      assert a == [] && b != [] ==> SplitAt(a, b, 0);
    } else if a[0] != b[0] {
      forall k: nat | 0 < k <= |a| ensures !SplitAt(a, b, k) {
        SplitAgrees(a, b, k);
      }
      assert SplitAt(a, b, 0) <==> a[0] < b[0];
    } else {
      CompareBytesPrecedes(a[1..], b[1..]);
      if BytesPrecede(a[1..], b[1..]) {
        var k :| 0 <= k <= |a| - 1 && SplitAt(a[1..], b[1..], k);
        SplitShifts(a, b, k);
      }
      if BytesPrecede(a, b) {
        var k :| 0 <= k <= |a| && SplitAt(a, b, k);
        SplitShifts(a, b, k - 1);
      }
    }
  }

  lemma SplitAgrees(a: seq<byte>, b: seq<byte>, k: nat)
    requires 0 < k <= |a| && b != []
    ensures SplitAt(a, b, k) ==> a[0] == b[0]
  {
  }

  lemma SplitShifts(a: seq<byte>, b: seq<byte>, k: nat)
    requires a != [] && b != [] && a[0] == b[0] && k < |a|
    ensures SplitAt(a[1..], b[1..], k) <==> SplitAt(a, b, k + 1)
  {
    if k < |b| - 1 {
      assert a[..k + 1] == [a[0]] + a[1..][..k] && b[..k + 1] == [b[0]] + b[1..][..k];
      assert a[..k + 1][1..] == a[1..][..k] && b[..k + 1][1..] == b[1..][..k];
    }
  }

  /** The comparison of the code is the comparison meant. */
  lemma CompareIsMeets(lhs: Value, operator: Operator, rhs: Value)
    ensures Compare(lhs, operator, rhs) <==> Meets(lhs, operator, rhs)
  {
    if lhs.Octets? && rhs.Octets? {
      CompareBytesTotal(lhs.octets, rhs.octets);
      CompareBytesPrecedes(lhs.octets, rhs.octets);
      CompareBytesPrecedes(rhs.octets, lhs.octets);
    }
  }

  /** On values of one type, exactly one of less, equal and greater holds, and less is transitive. */
  lemma ComparisonIsTotalOrder(a: Value, b: Value, c: Value)
    requires SameType(a, b) && SameType(b, c)
    ensures Compare(a, Lt, b) <==> !Compare(a, Ge, b)
    ensures Compare(a, Le, b) && Compare(b, Le, a) <==> a == b
    ensures Compare(a, Lt, b) <==> Compare(b, Gt, a)
    ensures Compare(a, Lt, b) && Compare(b, Lt, c) ==> Compare(a, Lt, c)
  {
    if a.Octets? {
      CompareBytesTotal(a.octets, b.octets);
      if CompareBytes(a.octets, b.octets) == Less && CompareBytes(b.octets, c.octets) == Less {
        CompareBytesTransitive(a.octets, b.octets, c.octets);
      }
    }
  }

  /** The six operators on numbers. */
  lemma NumbersCompare(a: i64, b: i64)
    ensures Meets(I64(a), Eq, I64(b)) <==> a == b
    ensures Meets(I64(a), Ne, I64(b)) <==> a != b
    ensures Meets(I64(a), Lt, I64(b)) <==> a < b
    ensures Meets(I64(a), Le, I64(b)) <==> a <= b
    ensures Meets(I64(a), Gt, I64(b)) <==> a > b
    ensures Meets(I64(a), Ge, I64(b)) <==> a >= b
  {
  }

  /** The six operators on truth values, of which false is the lesser. */
  lemma TruthValuesCompare(a: bool, b: bool)
    ensures Meets(Bool(a), Eq, Bool(b)) <==> a == b
    ensures Meets(Bool(a), Ne, Bool(b)) <==> a != b
    ensures Meets(Bool(a), Lt, Bool(b)) <==> !a && b
    ensures Meets(Bool(a), Le, Bool(b)) <==> (a ==> b)
    ensures Meets(Bool(a), Gt, Bool(b)) <==> a && !b
    ensures Meets(Bool(a), Ge, Bool(b)) <==> (b ==> a)
  {
  }

  /** The six operators on byte strings. */
  lemma OctetsCompare(a: seq<byte>, b: seq<byte>)
    ensures Meets(Octets(a), Eq, Octets(b)) <==> a == b
    ensures Meets(Octets(a), Ne, Octets(b)) <==> a != b
    ensures Meets(Octets(a), Lt, Octets(b)) <==> Meets(Octets(b), Gt, Octets(a))
    ensures Meets(Octets(a), Le, Octets(b)) <==> !Meets(Octets(b), Lt, Octets(a))
    ensures Meets(Octets(a), Ge, Octets(b)) <==> !Meets(Octets(a), Lt, Octets(b))
  {
    CompareBytesTotal(a, b);
    CompareBytesPrecedes(a, b);
    CompareBytesPrecedes(b, a);
  }

  /** A byte string is less than its extensions, and the first byte that differs decides. */
  lemma FirstDifferenceDecides(common: seq<byte>, x: byte, y: byte, a: seq<byte>, b: seq<byte>)
    ensures Meets(Octets(common), Lt, Octets(common + [x] + a))
    ensures x < y ==> Meets(Octets(common + [x] + a), Lt, Octets(common + [y] + b))
  {
    var longer, other := common + [x] + a, common + [y] + b;
    assert SplitAt(common, longer, |common|);
    if x < y {
      assert longer[..|common|] == other[..|common|] && SplitAt(longer, other, |common|);
    }
  }

  /** Values of different types meet no operator. */
  lemma TypesDoNotMix(lhs: Value, operator: Operator, rhs: Value)
    ensures Meets(lhs, operator, rhs) || Meets(rhs, operator, lhs) ==>
      (lhs.Bool? <==> rhs.Bool?) && (lhs.I64? <==> rhs.I64?) && (lhs.Octets? <==> rhs.Octets?)
  {
  }

  // ----- walking the bytes -----

  /** What looking up an attribute in raw bytes yields; `None` also where the bytes do not parse. */
  function Scan(s: seq<byte>, count: nat, wanted: AttributeId): Option<Value>
    decreases count
  {
    if count == 0 then None
    else
      var attribute := ParseAttribute(s, []);
      if attribute.Err? then None
      else if attribute.value.value.id == wanted then Some(attribute.value.value.value)
      else Scan(attribute.value.rest, count - 1, wanted)
  }

  /** What evaluating raw clauses yields; false also where the bytes do not parse. */
  predicate Evaluates(s: seq<byte>, count: nat, environment: EnvironmentRef)
    decreases count
  {
    count == 0 ||
    (var clause := ParseClause(s, []);
     && clause.Ok?
     && var Clause(attribute, operator, rhs) := clause.value.value;
        var lhs := Scan(environment.bytes, environment.count, attribute);
        && lhs.Some? && Compare(lhs.value, operator, rhs)
        && Evaluates(clause.value.rest, count - 1, environment))
  }

  lemma EvaluatesFirst(s: seq<byte>, count: nat, environment: EnvironmentRef)
    ensures count == 0 ==> Evaluates(s, count, environment)
    ensures count > 0 ==>
      var clause := ParseClause(s, []);
      Evaluates(s, count, environment) <==>
        && clause.Ok?
        && var lhs := Scan(environment.bytes, environment.count, clause.value.value.attribute);
           && lhs.Some? && Compare(lhs.value, clause.value.value.operator, clause.value.value.value)
           && Evaluates(clause.value.rest, count - 1, environment)
  {
    hide ParseClause, Scan, Compare;
  }

  /** An identifier and its value, or `None` where either does not parse. */
  method NextAttribute(cursor: Cursor) returns (next: Option<Attribute>)
    requires cursor.Valid()
    modifies cursor
    ensures cursor.Valid()
    ensures match ParseAttribute(old(cursor.Rest()), [])
            case Ok(p) => next == Some(p.value) && cursor.Rest() == p.rest
            case Err(_) => next == None
  {
    var id := cursor.U16();
    if id.Err? {
      return None;
    }
    var value := cursor.Value();
    if value.Err? {
      return None;
    }
    return Some(Attribute(id.value, value.value));
  }

  method Get(environment: EnvironmentRef, wanted: AttributeId) returns (found: Option<Value>)
    requires |environment.bytes| <= U64_MAX
    ensures found == Scan(environment.bytes, environment.count, wanted)
  {
    hide ParseAttribute;
    var cursor := new Cursor(environment.bytes);
    for i := 0 to environment.count
      invariant cursor.Valid()
      invariant Scan(environment.bytes, environment.count, wanted) == Scan(cursor.Rest(), environment.count - i, wanted)
    {
      var attribute := NextAttribute(cursor);
      if attribute.None? {
        return None;
      }
      if attribute.value.id == wanted {
        return Some(attribute.value.value);
      }
    }
    return None;
  }

  method Evaluate(p: PredicateRef, environment: EnvironmentRef) returns (holds: bool)
    requires |p.bytes| <= U64_MAX && |environment.bytes| <= U64_MAX
    ensures holds == Evaluates(p.bytes, p.count, environment)
  {
    hide ParseClause, Scan, Compare, Evaluates;
    var cursor := new Cursor(p.bytes);
    for i := 0 to p.count
      invariant cursor.Valid()
      invariant Evaluates(p.bytes, p.count, environment) == Evaluates(cursor.Rest(), p.count - i, environment)
    {
      EvaluatesFirst(cursor.Rest(), p.count - i, environment);
      var clause := cursor.Clause([]);
      if clause.Err? {
        return false;
      }
      var lhs := Get(environment, clause.value.attribute);
      if lhs.None? {
        return false;
      }
      if !Compare(lhs.value, clause.value.operator, clause.value.value) {
        return false;
      }
    }
    EvaluatesFirst(cursor.Rest(), 0, environment);
    return true;
  }

  /** The iterator over a parsed environment: `left` are the attributes it has still to yield. */
  class EnvironmentIter {
    const cursor: Cursor
    var remaining: nat
    ghost var left: seq<Attribute>

    ghost predicate Valid()
      reads this, cursor
    {
      && cursor.Valid() && remaining == |left| && AttributesFit(left)
      && cursor.Rest() == PutAttributes(left, [])
    }

    constructor (environment: EnvironmentRef, ghost attributes: seq<Attribute>)
      requires |attributes| < 256 && environment == EnvironmentView(attributes)
      requires AttributesFit(attributes) && |environment.bytes| <= U64_MAX
      ensures Valid() && left == attributes && fresh(cursor)
    {
      cursor := new Cursor(environment.bytes);
      remaining := environment.count;
      left := attributes;
    }

    method Next() returns (next: Option<Attribute>)
      requires Valid()
      modifies this, cursor
      ensures Valid()
      ensures old(left) == [] ==> next == None && left == []
      ensures old(left) != [] ==> next == Some(old(left)[0]) && left == old(left)[1..]
    {
      if remaining == 0 {
        return None;
      }
      AttributeRoundTrip(left[0], [], PutAttributes(left[1..], []));
      next := NextAttribute(cursor);
      if next.None? {
        return None;
      }
      remaining := remaining - 1;
      left := left[1..];
    }
  }

  lemma {:induction false} ScanFinds(attributes: seq<Attribute>, rest: seq<byte>, wanted: AttributeId)
    requires AttributesFit(attributes)
    ensures Scan(PutAttributes(attributes, rest), |attributes|, wanted) == Lookup(attributes, wanted)
  {
    if attributes != [] {
      AttributeRoundTrip(attributes[0], [], PutAttributes(attributes[1..], rest));
      ScanFinds(attributes[1..], rest, wanted);
    }
  }

  lemma ClauseHoldsByLookup(attributes: seq<Attribute>, c: Clause)
    requires UniqueIds(attributes)
    ensures ClauseHolds(attributes, c) <==>
      var lhs := Lookup(attributes, c.attribute); lhs.Some? && Compare(lhs.value, c.operator, c.value)
  {
    forall v ensures Lookup(attributes, c.attribute) == Some(v) <==> Attribute(c.attribute, v) in attributes {
      LookupIsMembership(attributes, c.attribute, v);
    }
    forall v ensures Compare(v, c.operator, c.value) <==> Meets(v, c.operator, c.value) {
      CompareIsMeets(v, c.operator, c.value);
    }
    forall a | a in attributes && a.id == c.attribute ensures a == Attribute(c.attribute, a.value) {
    }
  }

  lemma {:induction false} EvaluatesClauses(attributes: seq<Attribute>, clauses: seq<Clause>, rest: seq<byte>)
    requires ValidOperation(Operation.SetEnvironment(attributes))
    requires forall c :: c in clauses ==> ValueFits(c.value)
    ensures Evaluates(PutClauses(clauses, rest), |clauses|, EnvironmentView(attributes)) <==>
      Satisfies(attributes, clauses)
  {
    if clauses != [] {
      var c := clauses[0];
      Uncons(clauses);
      ClauseRoundTrip(c, [], PutClauses(clauses[1..], rest));
      ScanFinds(attributes, [], c.attribute);
      ClauseHoldsByLookup(attributes, c);
      EvaluatesClauses(attributes, clauses[1..], rest);
    }
  }

  /** On what the parser returns, evaluating the bytes decides whether the decoded attributes
      satisfy the decoded clauses. */
  lemma EvaluationIsMeaning(attributes: seq<Attribute>, clauses: seq<Clause>)
    requires ValidOperation(Operation.SetEnvironment(attributes)) && ClausesFit(clauses)
    ensures var p := PredicateView(clauses);
      Evaluates(p.bytes, p.count, EnvironmentView(attributes)) <==> Satisfies(attributes, clauses)
  {
    EvaluatesClauses(attributes, clauses, []);
  }
}
