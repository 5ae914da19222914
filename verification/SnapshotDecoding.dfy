/** Which bytes a snapshot may consist of, and what is read from them. */
module SnapshotDecoding {
  import opened Bytes
  import opened Types
  import opened Parsing
  import opened SortedMaps
  import opened Store
  import opened Snapshot
  import opened WireFormats

  datatype Sections = Sections(agents: seq<AgentEntry>, environments: seq<EnvironmentEntry>,
                               items: seq<Subscription>, marks: seq<ReplayItem>)

  function SnapshotBytes(t: Sections): seq<byte> {
    [83, 80, 83, 84, 65, 84, 69, 49]
    + (Section(AgentBytes, t.agents)
    + (Section(EnvironmentBytes, t.environments)
    + (Section(SubscriptionBytes, t.items)
    + Section(MarkBytes, t.marks))))
  }

  /** Within the limits; agents other than the CA with full keys, environments that parse, subscriptions
      that parse to their type and name a handler; and no agent, environment or mark twice. */
  ghost predicate Readable(t: Sections, limits: Limits) {
    && |t.agents| <= limits.agents && |t.environments| <= limits.environments
    && |t.items| <= limits.subscriptions && |t.marks| <= limits.replays
    && |t.agents| < 0x1_0000_0000 && |t.environments| < 0x1_0000_0000
    && |t.items| < 0x1_0000_0000 && |t.marks| < 0x1_0000_0000
    && DistinctKeys(t.agents) && (forall e :: e in t.agents ==> e.key != CA && FullKeys(e.value))
    && DistinctKeys(t.environments) && (forall e :: e in t.environments ==> IsEnvironment(e.value))
    && (forall x :: x in t.items ==> Stored(x) && x.handler != NO_HANDLER)
    && DistinctKeys(t.marks)
  }

  /** The last of several subscriptions of a type goes to the end of its bucket. */
  function Content(t: Sections): State {
    State(MapOf(t.agents), MapOf(t.environments), Grouped(t.items), MapOf(t.marks))
  }

  // ----- each item determines its bytes -----

  lemma BytesAreCanonical(s: seq<byte>)
    requires ParseBytes(s).Ok?
    ensures s == PutBytes(ParseBytes(s).value.value, ParseBytes(s).value.rest)
  {
    NumberCanonical(s, 4);
    var Parsed(length, rest) := ParseU32(s).value;
    TakeCanonical(rest, length);
  }

  lemma AgentIsCanonical(s: seq<byte>, done: seq<AgentEntry>)
    requires ParseAgent(s, done).Ok?
    ensures var p := ParseAgent(s, done).value; GoodAgent(p.value, done) && s == PutAgent(p.value, p.rest)
  {
    NumberCanonical(s, 16);
    var rest := ParseU128(s).value.rest;
    TakeCanonical(rest, 32);
    TakeCanonical(Take(rest, 32).value.rest, 32);
  }

  lemma EnvironmentIsCanonical(s: seq<byte>, done: seq<EnvironmentEntry>)
    requires ParseEnvironmentOf(s, done).Ok?
    ensures var p := ParseEnvironmentOf(s, done).value;
      GoodEnvironmentOf(p.value, done) && s == PutEnvironmentOf(p.value, p.rest)
  {
    hide IsEnvironment;
    NumberCanonical(s, 16);
    BytesAreCanonical(ParseU128(s).value.rest);
  }

  lemma StoredIsCanonical(s: seq<byte>, done: seq<Subscription>)
    requires ParseStored(s, done).Ok?
    ensures var p := ParseStored(s, done).value; GoodStored(p.value, done) && s == PutStored(p.value, p.rest)
  {
    hide KindOf;
    NumberCanonical(s, 16);
    var rest := ParseU128(s).value.rest;
    NumberCanonical(rest, 4);
    var last := ParseU32(rest).value.rest;
    NumberCanonical(last, 16);
    BytesAreCanonical(ParseU128(last).value.rest);
  }

  lemma MarkIsCanonical(s: seq<byte>, done: seq<ReplayItem>)
    requires ParseMark(s, done).Ok?
    ensures var p := ParseMark(s, done).value; GoodMark(p.value, done) && s == PutMark(p.value, p.rest)
  {
    NumberCanonical(s, 16);
    var rest := ParseU128(s).value.rest;
    NumberCanonical(rest, 16);
    NumberCanonical(ParseU128(rest).value.rest, 8);
  }

  lemma ItemsAreCanonical()
    ensures Canonical(PutAgent, ParseAgent, GoodAgent)
    ensures Canonical(PutEnvironmentOf, ParseEnvironmentOf, GoodEnvironmentOf)
    ensures Canonical(PutStored, ParseStored, GoodStored) && Canonical(PutMark, ParseMark, GoodMark)
  {
    hide ParseAgent, ParseEnvironmentOf, ParseStored, ParseMark, PutAgent, PutEnvironmentOf, PutStored, PutMark,
      GoodAgent, GoodEnvironmentOf, GoodStored, GoodMark;
    forall s, done | ParseAgent(s, done).Ok?
      ensures var p := ParseAgent(s, done).value; GoodAgent(p.value, done) && s == PutAgent(p.value, p.rest)
    {
      AgentIsCanonical(s, done);
    }
    forall s, done | ParseEnvironmentOf(s, done).Ok?
      ensures var p := ParseEnvironmentOf(s, done).value;
        GoodEnvironmentOf(p.value, done) && s == PutEnvironmentOf(p.value, p.rest)
    {
      EnvironmentIsCanonical(s, done);
    }
    forall s, done | ParseStored(s, done).Ok?
      ensures var p := ParseStored(s, done).value; GoodStored(p.value, done) && s == PutStored(p.value, p.rest)
    {
      StoredIsCanonical(s, done);
    }
    forall s, done | ParseMark(s, done).Ok?
      ensures var p := ParseMark(s, done).value; GoodMark(p.value, done) && s == PutMark(p.value, p.rest)
    {
      MarkIsCanonical(s, done);
    }
  }

  /** A section that is read is the bytes of good items within the limit. */
  lemma SectionIsCanonical<T(!new)>(put: (T, seq<byte>) -> seq<byte>, parse: (seq<byte>, seq<T>) -> Parse<T>,
                                    good: (T, seq<T>) -> bool, bytes: T -> seq<byte>, s: seq<byte>, maximum: nat)
    requires Canonical(put, parse, good) && Prints(put, bytes) && ParseCounted(parse, s, maximum).Ok?
    ensures var p := ParseCounted(parse, s, maximum).value;
      && |p.value| <= maximum && |p.value| < 0x1_0000_0000
      && AllGood(good, p.value, []) && s == Section(bytes, p.value) + p.rest
  {
    NumberCanonical(s, 4);
    var Parsed(count, rest) := ParseU32(s).value;
    var items := ManyCanonical(put, parse, good, rest, count, []);
    assert [] + items == items;
    hide BigEndian, PutMany;
    CountedPrints(put, bytes, items, ParseCounted(parse, s, maximum).value.rest);
  }

  /** A section of good items within the limit is read. */
  lemma SectionReadsBack<T(!new)>(put: (T, seq<byte>) -> seq<byte>, parse: (seq<byte>, seq<T>) -> Parse<T>,
                                  good: (T, seq<T>) -> bool, bytes: T -> seq<byte>, items: seq<T>, maximum: nat,
                                  rest: seq<byte>)
    requires ReadsBack(put, parse, good) && Prints(put, bytes) && AllGood(good, items, [])
    requires |items| <= maximum && |items| < 0x1_0000_0000
    ensures ParseCounted(parse, Section(bytes, items) + rest, maximum) == Ok(Parsed(items, rest))
  {
    CountedPrints(put, bytes, items, rest);
    CountedReadsBack(put, parse, good, items, maximum, rest);
  }

  // ----- good items, one after the other -----

  lemma {:induction false} GoodAreDistinct<K(!new), V(!new)>(good: (Entry<K, V>, seq<Entry<K, V>>) -> bool,
                                                              items: seq<Entry<K, V>>, done: seq<Entry<K, V>>)
    requires forall e, d :: good(e, d) ==> e.key !in KeysOf(d)
    requires AllGood(good, items, done) && DistinctKeys(done)
    ensures DistinctKeys(done + items) && forall e :: e in items ==> exists d :: good(e, d)
    decreases |items|
  {
    if items == [] {
      assert done + items == done;
    } else {
      var first, others := items[0], items[1..];
      Uncons(items);
      Regroup(done, first, others);
      assert good(first, done);
      forall i | 0 <= i < |done| ensures done[i].key != first.key {
        KeyAt(done, i);
      }
      GoodAreDistinct(good, others, done + [first]);
    }
  }

  lemma {:induction false} StoredAreEntries(items: seq<Subscription>, done: seq<Subscription>)
    requires AllGood(GoodStored, items, done)
    ensures forall x :: x in items ==> Stored(x) && x.handler != NO_HANDLER
    decreases |items|
  {
    hide Stored;
    if items != [] {
      StoredAreEntries(items[1..], done + [items[0]]);
      Uncons(items);
    }
  }

  ghost predicate GoodSections(t: Sections) {
    && AllGood(GoodAgent, t.agents, []) && AllGood(GoodEnvironmentOf, t.environments, [])
    && AllGood(GoodStored, t.items, []) && AllGood(GoodMark, t.marks, [])
  }

  lemma GoodIsReadable(t: Sections, limits: Limits)
    requires |t.agents| <= limits.agents && |t.environments| <= limits.environments
    requires |t.items| <= limits.subscriptions && |t.marks| <= limits.replays
    requires |t.agents| < 0x1_0000_0000 && |t.environments| < 0x1_0000_0000
    requires |t.items| < 0x1_0000_0000 && |t.marks| < 0x1_0000_0000
    ensures GoodSections(t) <==> Readable(t, limits)
  {
    hide IsEnvironment, Stored, AllGood;
    assert [] + t.agents == t.agents && [] + t.environments == t.environments && [] + t.marks == t.marks;
    if GoodSections(t) {
      GoodAreDistinct(GoodAgent, t.agents, []);
      GoodAreDistinct(GoodEnvironmentOf, t.environments, []);
      GoodAreDistinct(GoodMark, t.marks, []);
      StoredAreEntries(t.items, []);
    }
    if Readable(t, limits) {
      EntriesAreGood(GoodAgent, t.agents, []);
      EntriesAreGood(GoodEnvironmentOf, t.environments, []);
      EntriesAreGood(GoodMark, t.marks, []);
      StoredAreGood(t.items, []);
    }
  }

  // ----- snapshots -----

  /** Whatever is decoded consists of readable sections and nothing else, and is their content. */
  lemma DecodedIsReadable(input: seq<byte>, limits: Limits) returns (t: Sections)
    requires Decode(input, limits).Ok?
    ensures Readable(t, limits) && input == SnapshotBytes(t) && Decode(input, limits) == Ok(Content(t))
  {
    ItemsAreCanonical();
    EntriesPrint();
    hide Canonical, Prints, ParseCounted, Section, Readable, AllGood, MapOf, Grouped, ParseAgent, ParseEnvironmentOf,
      ParseStored, ParseMark, PutAgent, PutEnvironmentOf, PutStored, PutMark;
    TakeCanonical(input, 8);
    var rest := Take(input, 8).value.rest;
    SectionIsCanonical(PutAgent, ParseAgent, GoodAgent, AgentBytes, rest, limits.agents);
    var agents := ParseCounted(ParseAgent, rest, limits.agents).value;
    SectionIsCanonical(PutEnvironmentOf, ParseEnvironmentOf, GoodEnvironmentOf, EnvironmentBytes, agents.rest,
      limits.environments);
    var environments := ParseCounted(ParseEnvironmentOf, agents.rest, limits.environments).value;
    SectionIsCanonical(PutStored, ParseStored, GoodStored, SubscriptionBytes, environments.rest, limits.subscriptions);
    var items := ParseCounted(ParseStored, environments.rest, limits.subscriptions).value;
    SectionIsCanonical(PutMark, ParseMark, GoodMark, MarkBytes, items.rest, limits.replays);
    var marks := ParseCounted(ParseMark, items.rest, limits.replays).value;
    t := Sections(agents.value, environments.value, items.value, marks.value);
    GoodIsReadable(t, limits);
    assert Section(MarkBytes, t.marks) + [] == Section(MarkBytes, t.marks);
  }

  /** Readable sections are decoded, and to their content. */
  lemma ReadableIsDecoded(t: Sections, limits: Limits)
    requires Readable(t, limits)
    ensures Decode(SnapshotBytes(t), limits) == Ok(Content(t))
  {
    GoodIsReadable(t, limits);
    CodecsReadBack();
    EntriesPrint();
    hide ReadsBack, Prints, ParseCounted, Section, AllGood, MapOf, Grouped, ParseAgent, ParseEnvironmentOf,
      ParseStored, ParseMark, PutAgent, PutEnvironmentOf, PutStored, PutMark, Stored, IsEnvironment, DistinctKeys;
    var marks := Section(MarkBytes, t.marks);
    var items := Section(SubscriptionBytes, t.items) + marks;
    var environments := Section(EnvironmentBytes, t.environments) + items;
    TakeRoundTrip(STATE_MAGIC, Section(AgentBytes, t.agents) + environments);
    SectionReadsBack(PutAgent, ParseAgent, GoodAgent, AgentBytes, t.agents, limits.agents, environments);
    SectionReadsBack(PutEnvironmentOf, ParseEnvironmentOf, GoodEnvironmentOf, EnvironmentBytes, t.environments,
      limits.environments, items);
    SectionReadsBack(PutStored, ParseStored, GoodStored, SubscriptionBytes, t.items, limits.subscriptions, marks);
    SectionReadsBack(PutMark, ParseMark, GoodMark, MarkBytes, t.marks, limits.replays, []);
    assert marks + [] == marks;
  }

  ghost predicate Reads(t: Sections, limits: Limits, input: seq<byte>, s: State) {
    Readable(t, limits) && input == SnapshotBytes(t) && s == Content(t)
  }

  /** The decoder reads exactly the bytes of readable sections, and from them their content. */
  lemma DecodingIsExact(input: seq<byte>, limits: Limits, s: State)
    ensures Decode(input, limits) == Ok(s) <==> exists t :: Reads(t, limits, input, s)
  {
    hide Decode, Readable, SnapshotBytes, Content;
    if Decode(input, limits) == Ok(s) {
      var t := DecodedIsReadable(input, limits);
      assert Reads(t, limits, input, s);
    }
    if exists t :: Reads(t, limits, input, s) {
      var t :| Reads(t, limits, input, s);
      ReadableIsDecoded(t, limits);
    }
  }
}
