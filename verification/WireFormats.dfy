/** The bytes of operations and snapshots written out, tag by tag and number by number. */
module WireFormats {
  import opened Bytes
  import opened Types
  import opened Parsing
  import opened Payload
  import opened SortedMaps
  import opened Store
  import opened Snapshot
  import opened SnapshotTheorems
  import Writing = PayloadWriter

  function Concat<T>(bytes: T -> seq<byte>, items: seq<T>): seq<byte> {
    if items == [] then [] else bytes(items[0]) + Concat(bytes, items[1..])
  }

  ghost predicate Prints<T(!new)>(put: (T, seq<byte>) -> seq<byte>, bytes: T -> seq<byte>) {
    forall item, rest :: put(item, rest) == bytes(item) + rest
  }

  lemma {:induction false} ManyPrints<T(!new)>(put: (T, seq<byte>) -> seq<byte>, bytes: T -> seq<byte>, items: seq<T>,
                                               rest: seq<byte>)
    requires Prints(put, bytes)
    ensures PutMany(put, items, rest) == Concat(bytes, items) + rest
  {
    if items != [] {
      ManyPrints(put, bytes, items[1..], rest);
      assert put(items[0], Concat(bytes, items[1..]) + rest) == bytes(items[0]) + (Concat(bytes, items[1..]) + rest);
    }
  }

  // ----- operations -----

  /** A length before its bytes, the high byte first. */
  function Sized(bytes: seq<byte>): seq<byte>
    requires |bytes| < 0x1_0000
  {
    [|bytes| / 256, |bytes| % 256] + bytes
  }

  /** Negative numbers in two's complement. */
  function ValueBytes(v: Value): seq<byte> {
    match v
    case Bool(bit) => [1, if bit then 1 else 0]
    case I64(number) => [2] + BigEndian(if number < 0 then 0x1_0000_0000_0000_0000 + number else number, 8)
    case Octets(octets) => [3, |octets| / 256 % 256, |octets| % 256] + octets
  }

  function AttributeBytes(a: Attribute): seq<byte> { [a.id / 256, a.id % 256] + ValueBytes(a.value) }

  function ClauseBytes(c: Clause): seq<byte> {
    var operator: byte :=
      match c.operator case Eq => 1 case Ne => 2 case Lt => 3 case Le => 4 case Gt => 5 case Ge => 6;
    [c.attribute / 256, c.attribute % 256, operator] + ValueBytes(c.value)
  }

  lemma ShortNumber(number: nat)
    ensures BigEndian(number, 2) == [number / 256 % 256, number % 256]
  {
    assert BigEndian(number / 256, 1) == BigEndian(number / 256 / 256, 0) + [number / 256 % 256];
  }

  lemma ItemsPrint()
    ensures Prints(PutAttribute, AttributeBytes) && Prints(PutClause, ClauseBytes)
  {
    forall a: Attribute, rest: seq<byte> ensures PutAttribute(a, rest) == AttributeBytes(a) + rest {
      ShortNumber(a.id);
      ValuePrints(a.value, rest);
    }
    forall c: Clause, rest: seq<byte> ensures PutClause(c, rest) == ClauseBytes(c) + rest {
      ShortNumber(c.attribute);
      ValuePrints(c.value, rest);
    }
  }

  lemma ValuePrints(v: Value, rest: seq<byte>)
    ensures PutValue(v, rest) == ValueBytes(v) + rest
  {
    if v.Octets? {
      ShortNumber(|v.octets|);
    }
  }

  function PredicateBytes(clauses: seq<Clause>): seq<byte>
    requires |clauses| <= 8
  {
    [|clauses|] + Concat(ClauseBytes, clauses)
  }

  lemma PredicatePrints(clauses: seq<Clause>, rest: seq<byte>)
    requires |clauses| <= 8
    ensures PutPredicate(clauses, rest) == PredicateBytes(clauses) + rest
  {
    hide PutMany, Concat, PutClause, ClauseBytes;
    ItemsPrint();
    ManyPrints(PutClause, ClauseBytes, clauses, rest);
  }

  lemma SizedPrints(value: seq<byte>)
    requires |value| <= 3072
    ensures PutSized(value, []) == Sized(value)
  {
    hide BigEndian;
    ShortNumber(|value|);
  }

  /** The canonical bytes of every operation. */
  lemma OperationFormat(op: Operation)
    requires ValidOperation(op)
    ensures match op
      case SetEnvironment(attributes) =>
        |attributes| <= 16 && OperationBytes(op) == [1, |attributes|] + Concat(AttributeBytes, attributes)
      case Subscribe(typeId, clauses) =>
        |clauses| <= 8 && OperationBytes(op) == [5] + (BigEndian(typeId, 4) + PredicateBytes(clauses))
      case SubscribePermanent(typeId, clauses) =>
        |clauses| <= 8 && OperationBytes(op) == [2] + (BigEndian(typeId, 4) + PredicateBytes(clauses))
      case Publish(typeId, clauses, value) =>
        |clauses| <= 8 && |value| <= 3072
        && OperationBytes(op) == [3] + (BigEndian(typeId, 4) + (PredicateBytes(clauses) + Sized(value)))
      case PublicationResponse(typeId, publisher, value) =>
        |value| <= 3072
        && OperationBytes(op) == [4] + (BigEndian(typeId, 4) + (BigEndian(publisher, 16) + Sized(value)))
  {
    hide BigEndian, PutMany, Concat, PutAttribute, PutClause, AttributeBytes, ClauseBytes, PredicateBytes, PutPredicate;
    match op {
      case SetEnvironment(attributes) =>
        ItemsPrint();
        ManyPrints(PutAttribute, AttributeBytes, attributes, []);
        assert [1] + ([|attributes|] + Concat(AttributeBytes, attributes))
          == [1, |attributes|] + Concat(AttributeBytes, attributes);
      case Subscribe(typeId, clauses) =>
        PredicatePrints(clauses, []);
      case SubscribePermanent(typeId, clauses) =>
        PredicatePrints(clauses, []);
      case Publish(typeId, clauses, value) =>
        SizedPrints(value);
        PredicatePrints(clauses, PutSized(value, []));
      case PublicationResponse(typeId, publisher, value) =>
        SizedPrints(value);
    }
  }

  /** Which operations can be encoded: at most sixteen attributes with distinct identifiers, eight clauses,
      64 bytes in an attribute and 3072 in a value. */
  lemma EncodableIsExact(op: Operation)
    ensures ValidOperation(op) <==>
      match op
      case SetEnvironment(attributes) =>
        && |attributes| <= 16
        && (forall i, j :: 0 <= i < j < |attributes| ==> attributes[i].id != attributes[j].id)
        && forall a :: a in attributes && a.value.Octets? ==> |a.value.octets| <= 64
      case Subscribe(_, clauses) => Bounded(clauses)
      case SubscribePermanent(_, clauses) => Bounded(clauses)
      case Publish(_, clauses, value) => Bounded(clauses) && |value| <= 3072
      case PublicationResponse(_, _, value) => |value| <= 3072
  {
  }

  predicate Bounded(clauses: seq<Clause>) {
    |clauses| <= 8 && forall c :: c in clauses && c.value.Octets? ==> |c.value.octets| <= 64
  }

  /** Counts beyond the bounds are oversized, whatever follows them. */
  lemma CountsAreBounded(tag: byte, typeId: u32, count: byte, rest: seq<byte>)
    ensures count > 16 ==> ParseOperation([1, count] + rest) == Err(Oversized)
    ensures count > 8 && tag in {2, 3, 5} ==>
      ParseOperation([tag] + (BigEndian(typeId, 4) + ([count] + rest))) == Err(Oversized)
  {
    hide BigEndian, ParseMany;
    Widths();
    NumberRoundTrip(typeId, 4, [count] + rest);
    assert ([1, count] + rest)[1..] == [count] + rest;
  }

  /** Lengths beyond the bound on values are oversized, whatever follows them. */
  lemma LengthsAreBounded(typeId: u32, publisher: u128, length: u16, rest: seq<byte>)
    requires length > 3072
    ensures ParseOperation([4] + (BigEndian(typeId, 4) + (BigEndian(publisher, 16) + (BigEndian(length, 2) + rest))))
      == Err(Oversized)
    ensures ParseOperation([3] + (BigEndian(typeId, 4) + ([0] + (BigEndian(length, 2) + rest)))) == Err(Oversized)
  {
    hide BigEndian;
    Widths();
    var sized := PutNumber(length, 2, rest);
    NumberRoundTrip(length, 2, rest);
    NumberRoundTrip(publisher, 16, sized);
    NumberRoundTrip(typeId, 4, PutNumber(publisher, 16, sized));
    NumberRoundTrip(typeId, 4, [0] + sized);
  }

  /** So are byte strings in attributes. */
  lemma OctetsAreBounded(count: byte, id: u16, length: u16, rest: seq<byte>)
    requires 0 < count <= 16 && length > 64
    ensures ParseOperation([1, count] + (BigEndian(id, 2) + ([3] + (BigEndian(length, 2) + rest)))) == Err(Oversized)
  {
    hide BigEndian;
    Widths();
    var value := [3] + PutNumber(length, 2, rest);
    NumberRoundTrip(length, 2, rest);
    NumberRoundTrip(id, 2, value);
    assert ParseValue(value) == Err(Oversized);
    assert ParseAttribute(PutNumber(id, 2, value), []) == Err(Oversized);
    var items := PutNumber(id, 2, value);
    assert ([1, count] + items)[1..] == [count] + items && ([count] + items)[1..] == items;
  }

  /** An operation is encoded exactly if it is encodable and fits the buffer. Repeated identifiers are
      malformed, and everything else is oversized. */
  lemma EncodingIsExact(op: Operation, capacity: nat)
    ensures Writing.Verdict(op, capacity).Ok? <==> ValidOperation(op) && |OperationBytes(op)| <= capacity
    ensures Writing.Verdict(op, capacity).Ok? ==> Writing.Verdict(op, capacity).value == |OperationBytes(op)|
    ensures Writing.Verdict(op, capacity) == Err(Error.Malformed) <==>
      && op.SetEnvironment? && |op.attributes| <= 16
      && exists i, j :: 0 <= i < j < |op.attributes| && op.attributes[i].id == op.attributes[j].id
    ensures Writing.Verdict(op, capacity).Err? ==>
      Writing.Verdict(op, capacity).error in {Error.Malformed, Error.Oversized}
  {
    hide OperationBytes;
  }

  // ----- snapshots -----

  /** A length before its bytes, as a number of four bytes. */
  function LongSized(bytes: seq<byte>): seq<byte> { BigEndian(|bytes|, 4) + bytes }

  function AgentBytes(e: AgentEntry): seq<byte> { BigEndian(e.key, 16) + e.value.ed25519 + e.value.x25519 }

  function EnvironmentBytes(e: EnvironmentEntry): seq<byte> { BigEndian(e.key, 16) + LongSized(e.value) }

  function SubscriptionBytes(x: Subscription): seq<byte> {
    BigEndian(x.subscriber, 16) + BigEndian(x.typeId, 4) + BigEndian(x.handler, 16) + LongSized(x.encoded)
  }

  function MarkBytes(e: ReplayItem): seq<byte> {
    BigEndian(e.key.sender, 16) + BigEndian(e.key.session, 16) + BigEndian(e.value, 8)
  }

  lemma EntriesPrint()
    ensures Prints(PutAgent, AgentBytes) && Prints(PutEnvironmentOf, EnvironmentBytes)
    ensures Prints(PutStored, SubscriptionBytes) && Prints(PutMark, MarkBytes)
  {
    hide BigEndian;
    forall e: AgentEntry, rest: seq<byte> ensures PutAgent(e, rest) == AgentBytes(e) + rest {
    }
    forall e: EnvironmentEntry, rest: seq<byte> ensures PutEnvironmentOf(e, rest) == EnvironmentBytes(e) + rest {
    }
    forall x: Subscription, rest: seq<byte> ensures PutStored(x, rest) == SubscriptionBytes(x) + rest {
    }
    forall e: ReplayItem, rest: seq<byte> ensures PutMark(e, rest) == MarkBytes(e) + rest {
    }
  }

  /** A count before its items. */
  function Section<T>(bytes: T -> seq<byte>, items: seq<T>): seq<byte> {
    BigEndian(|items|, 4) + Concat(bytes, items)
  }

  lemma CountedPrints<T(!new)>(put: (T, seq<byte>) -> seq<byte>, bytes: T -> seq<byte>, items: seq<T>, rest: seq<byte>)
    requires Prints(put, bytes)
    ensures PutCounted(put, items, rest) == Section(bytes, items) + rest
  {
    hide BigEndian;
    ManyPrints(put, bytes, items, rest);
  }

  /** A snapshot: the letters SPSTATE1, then agents, environments, subscriptions and marks. */
  lemma SnapshotFormat(s: State)
    ensures Injective(AgentRank) && Injective(KeyRank)
    ensures Encode(s) == [83, 80, 83, 84, 65, 84, 69, 49]
      + (Section(AgentBytes, Listing(s.keys, AgentRank))
      + (Section(EnvironmentBytes, Listing(s.environments, AgentRank))
      + (Section(SubscriptionBytes, Flattened(s.subscriptions))
      + Section(MarkBytes, Listing(s.replay, KeyRank)))))
  {
    RanksAreInjective();
    EntriesPrint();
    hide Prints, PutCounted, Section, PutAgent, PutEnvironmentOf, PutStored, PutMark;
    var agents, environments := Listing(s.keys, AgentRank), Listing(s.environments, AgentRank);
    var items, marks := Flattened(s.subscriptions), Listing(s.replay, KeyRank);
    hide Listing, Flattened;
    CountedPrints(PutMark, MarkBytes, marks, []);
    var last := PutCounted(PutMark, marks, []);
    assert last == Section(MarkBytes, marks);
    CountedPrints(PutStored, SubscriptionBytes, items, last);
    CountedPrints(PutEnvironmentOf, EnvironmentBytes, environments, PutCounted(PutStored, items, last));
    CountedPrints(PutAgent, AgentBytes, agents,
      PutCounted(PutEnvironmentOf, environments, PutCounted(PutStored, items, last)));
  }

  /** The sections of a snapshot hold each entry once: agents by identity, subscriptions by type,
      subscriber and handler, and marks by sender and session. */
  lemma SectionsAreSorted(s: State)
    requires GoodBuckets(s.subscriptions)
    ensures Injective(AgentRank) && Injective(KeyRank)
    ensures var agents := Listing(s.keys, AgentRank);
      |agents| == |s.keys| && forall i, j :: 0 <= i < j < |agents| ==> agents[i].key < agents[j].key
    ensures var environments := Listing(s.environments, AgentRank);
      && |environments| == |s.environments|
      && forall i, j :: 0 <= i < j < |environments| ==> environments[i].key < environments[j].key
    ensures var items := Flattened(s.subscriptions);
      && |items| == Count(s.subscriptions)
      && forall i, j :: 0 <= i < j < |items| ==> Ascending(items[i], items[j])
    ensures var marks := Listing(s.replay, KeyRank);
      && |marks| == |s.replay|
      && forall i, j :: 0 <= i < j < |marks| ==>
           || marks[i].key.sender < marks[j].key.sender
           || (marks[i].key.sender == marks[j].key.sender && marks[i].key.session < marks[j].key.session)
  {
    hide Listing, Flattened, Count;
    RanksAreInjective();
    FlattenedCount(s.subscriptions);
    FlattenedAscends(s.subscriptions);
    ListingIs(s.keys, AgentRank);
    ListingIs(s.environments, AgentRank);
    ListingIs(s.replay, KeyRank);
  }

  predicate Ascending(a: Subscription, b: Subscription) {
    || a.typeId < b.typeId
    || (a.typeId == b.typeId
        && (a.subscriber < b.subscriber || (a.subscriber == b.subscriber && a.handler < b.handler)))
  }

  lemma {:induction false} FlattenedAscends(subscriptions: Buckets)
    requires GoodBuckets(subscriptions)
    ensures forall i, j :: 0 <= i < j < |Flattened(subscriptions)| ==>
      Ascending(Flattened(subscriptions)[i], Flattened(subscriptions)[j])
    decreases |subscriptions|
  {
    RanksAreInjective();
    var items := Flattened(subscriptions);
    if subscriptions != map[] {
      var t := Least(subscriptions.Keys, TypeRank);
      var others := subscriptions - {t};
      Fewer(subscriptions, t);
      FlattenedAscends(others);
      var first, rest := subscriptions[t], Flattened(others);
      assert GoodBucket(t, first) && items == first + rest;
      hide Flattened, Stored;
      forall x | x in rest ensures t < x.typeId {
        FlattenedHolds(others, x);
        var u :| u in others && x in others[u];
        assert GoodBucket(u, others[u]);
      }
      BucketGoesFirst(t, first, rest);
    }
  }

  lemma BucketGoesFirst(t: TypeId, first: seq<Subscription>, rest: seq<Subscription>)
    requires GoodBucket(t, first) && forall x :: x in rest ==> t < x.typeId
    requires forall i, j :: 0 <= i < j < |rest| ==> Ascending(rest[i], rest[j])
    ensures forall i, j :: 0 <= i < j < |first + rest| ==> Ascending((first + rest)[i], (first + rest)[j])
  {
    hide Stored;
    var items := first + rest;
    forall i, j | 0 <= i < j < |items| ensures Ascending(items[i], items[j]) {
      if j < |first| {
        assert items[i] == first[i] && items[j] == first[j] && Before(first[i], first[j]);
        assert first[i] in first && first[j] in first;
      } else if i < |first| {
        assert items[i] == first[i] && items[j] == rest[j - |first|] && items[j] in rest && items[i] in first;
      } else {
        assert items[i] == rest[i - |first|] && items[j] == rest[j - |first|];
      }
    }
  }

  /** What is committed: a snapshot of at most 16 MiB whose counts are numbers of four bytes, if the file
      system plays along. */
  lemma CommitIsExact(next: State, writes: bool)
    ensures Verdict(next, writes).Ok? <==> Fits(next) && writes
    ensures Verdict(next, writes).Err? ==> Verdict(next, writes).error == if Fits(next) then Capacity else Oversized
  {
    FlattenedCount(next.subscriptions);
  }

  ghost predicate Fits(s: State) {
    && |s.keys| < 0x1_0000_0000 && |s.environments| < 0x1_0000_0000 && Count(s.subscriptions) < 0x1_0000_0000
    && |s.replay| < 0x1_0000_0000 && |Encode(s)| <= 16_777_216
  }
}
