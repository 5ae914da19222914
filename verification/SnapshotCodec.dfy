/** Writing and reading a snapshot step by step. */
module SnapshotCodec {
  import opened Bytes
  import opened Types
  import opened Parsing
  import opened PayloadCursor
  import opened PayloadWriter
  import opened SortedMaps
  import opened Replay
  import opened Store
  import opened Snapshot

  // ----- writing -----

  /** The count of a section, and its items pushed one by one. */
  method AppendCounted<T(!new)>(output: seq<byte>, put: (T, seq<byte>) -> seq<byte>, items: seq<T>)
    returns (next: seq<byte>)
    requires PutsInFront(put)
    ensures next == output + PutCounted(put, items, [])
  {
    next := output + BigEndian(|items|, 4);
    ghost var counted := next;
    for i := 0 to |items|
      invariant next == counted + PutMany(put, items[..i], [])
    {
      ManySplit(put, counted, items, i);
      next := next + put(items[i], []);
    }
    assert items[..|items|] == items;
  }

  /** `Oversized` is the error of a count that does not fit 32 bits. */
  method EncodeState(s: State) returns (r: Result<seq<byte>, Error>)
    ensures r == if Countable(s) then Ok(Encode(s)) else Err(Oversized)
  {
    hide PutAgent, PutEnvironmentOf, PutStored, PutMark, Listing, Flattened, PutCounted;
    if !Countable(s) {
      return Err(Oversized);
    }
    RanksAreInjective();
    AgentsPutInFront();
    EnvironmentsPutInFront();
    StoredPutInFront();
    MarksPutInFront();
    var output := AppendCounted(STATE_MAGIC, PutAgent, Listing(s.keys, AgentRank));
    output := AppendCounted(output, PutEnvironmentOf, Listing(s.environments, AgentRank));
    output := AppendCounted(output, PutStored, Flattened(s.subscriptions));
    output := AppendCounted(output, PutMark, Listing(s.replay, KeyRank));
    SectionsJoin(s);
    return Ok(output);
  }

  lemma AgentsPutInFront()
    ensures PutsInFront(PutAgent)
  {
  }

  lemma EnvironmentsPutInFront()
    ensures PutsInFront(PutEnvironmentOf)
  {
  }

  lemma StoredPutInFront()
    ensures PutsInFront(PutStored)
  {
  }

  lemma MarksPutInFront()
    ensures PutsInFront(PutMark)
  {
  }

  lemma CountedExtends<T(!new)>(put: (T, seq<byte>) -> seq<byte>, items: seq<T>, rest: seq<byte>)
    requires PutsInFront(put)
    ensures PutCounted(put, items, rest) == PutCounted(put, items, []) + rest
  {
    ManyExtends(put, items, rest);
  }

  lemma Join(magic: seq<byte>, a: seq<byte>, b: seq<byte>, c: seq<byte>, d: seq<byte>)
    ensures magic + (a + (b + (c + d))) == magic + a + b + c + d
  {
  }

  /** The four sections one after the other. */
  lemma SectionsJoin(s: State)
    ensures Injective(AgentRank) && Injective(KeyRank)
    ensures Encode(s) == STATE_MAGIC
      + PutCounted(PutAgent, Listing(s.keys, AgentRank), [])
      + PutCounted(PutEnvironmentOf, Listing(s.environments, AgentRank), [])
      + PutCounted(PutStored, Flattened(s.subscriptions), [])
      + PutCounted(PutMark, Listing(s.replay, KeyRank), [])
  {
    hide PutAgent, PutEnvironmentOf, PutStored, PutMark, Listing, Flattened, PutCounted;
    RanksAreInjective();
    AgentsPutInFront();
    EnvironmentsPutInFront();
    StoredPutInFront();
    var marks := PutCounted(PutMark, Listing(s.replay, KeyRank), []);
    var items := PutCounted(PutStored, Flattened(s.subscriptions), marks);
    var environments := PutCounted(PutEnvironmentOf, Listing(s.environments, AgentRank), items);
    CountedExtends(PutStored, Flattened(s.subscriptions), marks);
    CountedExtends(PutEnvironmentOf, Listing(s.environments, AgentRank), items);
    CountedExtends(PutAgent, Listing(s.keys, AgentRank), environments);
    Join(STATE_MAGIC, PutCounted(PutAgent, Listing(s.keys, AgentRank), []),
      PutCounted(PutEnvironmentOf, Listing(s.environments, AgentRank), []),
      PutCounted(PutStored, Flattened(s.subscriptions), []), marks);
  }

  // ----- reading -----

  method ReadCount(cursor: Cursor, maximum: nat) returns (r: Result<nat, Error>)
    requires cursor.Valid()
    modifies cursor
    ensures cursor.Valid() && Did(ParseCount(old(cursor.Rest()), maximum), r, cursor.Rest())
  {
    var count :- cursor.U32();
    if count > maximum {
      return Err(Capacity);
    }
    return Ok(count);
  }

  method ReadBytes(cursor: Cursor) returns (r: Result<seq<byte>, Error>)
    requires cursor.Valid()
    modifies cursor
    ensures cursor.Valid() && Did(ParseBytes(old(cursor.Rest())), r, cursor.Rest())
  {
    var length :- ReadCount(cursor, MAX_PLAINTEXT_LEN);
    r := cursor.Take(length);
  }

  method ReadAgent(cursor: Cursor, keys: map<AgentId, PublicKeys>, ghost done: seq<AgentEntry>)
    returns (r: Result<AgentEntry, Error>)
    requires cursor.Valid() && forall a :: a in keys <==> a in KeysOf(done)
    modifies cursor
    ensures cursor.Valid() && Did(ParseAgent(old(cursor.Rest()), done), r, cursor.Rest())
  {
    var agent :- cursor.U128();
    if agent == CA {
      return Err(Malformed);
    }
    var ed25519 :- cursor.Take(32);
    var x25519 :- cursor.Take(32);
    if agent in keys {
      return Err(Malformed);
    }
    return Ok(Entry(agent, PublicKeys(ed25519, x25519)));
  }

  method ReadAgents(cursor: Cursor, limit: nat) returns (r: Result<map<AgentId, PublicKeys>, Error>)
    requires cursor.Valid()
    modifies cursor
    ensures cursor.Valid() && Section(ParseCounted(ParseAgent, old(cursor.Rest()), limit), MapOf, r, cursor.Rest())
  {
    hide ParseAgent;
    var count :- ReadCount(cursor, limit);
    ghost var start, done: seq<AgentEntry> := cursor.Rest(), [];
    var keys: map<AgentId, PublicKeys> := map[];
    for i := 0 to count
      invariant cursor.Valid() && keys == MapOf(done) && forall a :: a in keys <==> a in KeysOf(done)
      invariant ParseMany(ParseAgent, start, count, []) == ParseMany(ParseAgent, cursor.Rest(), count - i, done)
    {
      var e :- ReadAgent(cursor, keys, done);
      OneMoreEntry(done, e);
      keys := keys[e.key := e.value];
      done := done + [e];
    }
    return Ok(keys);
  }

  method ReadEnvironment(cursor: Cursor, environments: map<AgentId, seq<byte>>, ghost done: seq<EnvironmentEntry>)
    returns (r: Result<EnvironmentEntry, Error>)
    requires cursor.Valid() && forall a :: a in environments <==> a in KeysOf(done)
    modifies cursor
    ensures cursor.Valid() && Did(ParseEnvironmentOf(old(cursor.Rest()), done), r, cursor.Rest())
  {
    hide IsEnvironment;
    var agent :- cursor.U128();
    var encoded :- ReadBytes(cursor);
    if !IsEnvironment(encoded) || agent in environments {
      return Err(Malformed);
    }
    return Ok(Entry(agent, encoded));
  }

  method ReadEnvironments(cursor: Cursor, limit: nat) returns (r: Result<map<AgentId, seq<byte>>, Error>)
    requires cursor.Valid()
    modifies cursor
    ensures cursor.Valid()
    ensures Section(ParseCounted(ParseEnvironmentOf, old(cursor.Rest()), limit), MapOf, r, cursor.Rest())
  {
    hide ParseEnvironmentOf;
    var count :- ReadCount(cursor, limit);
    ghost var start, done: seq<EnvironmentEntry> := cursor.Rest(), [];
    var environments: map<AgentId, seq<byte>> := map[];
    for i := 0 to count
      invariant cursor.Valid() && environments == MapOf(done) && forall a :: a in environments <==> a in KeysOf(done)
      invariant ParseMany(ParseEnvironmentOf, start, count, [])
        == ParseMany(ParseEnvironmentOf, cursor.Rest(), count - i, done)
    {
      var e :- ReadEnvironment(cursor, environments, done);
      OneMoreEntry(done, e);
      environments := environments[e.key := e.value];
      done := done + [e];
    }
    return Ok(environments);
  }

  method ReadStored(cursor: Cursor, ghost done: seq<Subscription>) returns (r: Result<Subscription, Error>)
    requires cursor.Valid()
    modifies cursor
    ensures cursor.Valid() && Did(ParseStored(old(cursor.Rest()), done), r, cursor.Rest())
  {
    hide KindOf;
    var subscriber :- cursor.U128();
    var typeId :- cursor.U32();
    var handler :- cursor.U128();
    var encoded :- ReadBytes(cursor);
    var kind := KindOf(encoded);
    if kind.None? || kind.value.1 != typeId {
      return Err(Malformed);
    }
    if handler == NO_HANDLER {
      return Err(Malformed);
    }
    return Ok(Subscription(subscriber, typeId, handler, kind.value.0, encoded));
  }

  /** Each subscription is pushed to the bucket of its type. */
  method ReadSubscriptions(cursor: Cursor, limit: nat) returns (r: Result<Buckets, Error>)
    requires cursor.Valid()
    modifies cursor
    ensures cursor.Valid() && Section(ParseCounted(ParseStored, old(cursor.Rest()), limit), Grouped, r, cursor.Rest())
  {
    hide ParseStored, Grouped;
    NothingStored();
    var count :- ReadCount(cursor, limit);
    ghost var start, done: seq<Subscription> := cursor.Rest(), [];
    var subscriptions: Buckets := map[];
    for i := 0 to count
      invariant cursor.Valid() && subscriptions == Grouped(done)
      invariant ParseMany(ParseStored, start, count, []) == ParseMany(ParseStored, cursor.Rest(), count - i, done)
    {
      var x :- ReadStored(cursor, done);
      OneMoreStored(done, x);
      var bucket := if x.typeId in subscriptions then subscriptions[x.typeId] else [];
      subscriptions := subscriptions[x.typeId := bucket + [x]];
      done := done + [x];
    }
    return Ok(subscriptions);
  }

  method ReadMark(cursor: Cursor, marks: Entries, ghost done: seq<ReplayItem>) returns (r: Result<ReplayItem, Error>)
    requires cursor.Valid() && forall k :: k in marks <==> k in KeysOf(done)
    modifies cursor
    ensures cursor.Valid() && Did(ParseMark(old(cursor.Rest()), done), r, cursor.Rest())
  {
    var sender :- cursor.U128();
    var session :- cursor.U128();
    var expires :- cursor.U64();
    if Key(sender, session) in marks {
      return Err(Malformed);
    }
    return Ok(Entry(Key(sender, session), expires));
  }

  method ReadMarks(cursor: Cursor, limit: nat) returns (r: Result<Entries, Error>)
    requires cursor.Valid()
    modifies cursor
    ensures cursor.Valid() && Section(ParseCounted(ParseMark, old(cursor.Rest()), limit), MapOf, r, cursor.Rest())
  {
    hide ParseMark;
    var count :- ReadCount(cursor, limit);
    ghost var start, done: seq<ReplayItem> := cursor.Rest(), [];
    var marks: Entries := map[];
    for i := 0 to count
      invariant cursor.Valid() && marks == MapOf(done) && forall k :: k in marks <==> k in KeysOf(done)
      invariant ParseMany(ParseMark, start, count, []) == ParseMany(ParseMark, cursor.Rest(), count - i, done)
    {
      var e :- ReadMark(cursor, marks, done);
      OneMoreEntry(done, e);
      marks := marks[e.key := e.value];
      done := done + [e];
    }
    return Ok(marks);
  }

  /** A section was read as its parser does, and its items collected. */
  ghost predicate Section<T, U>(p: Parse<seq<T>>, collect: seq<T> -> U, r: Result<U, Error>, rest: seq<byte>) {
    if p.Ok? then r == Ok(collect(p.value.value)) && rest == p.value.rest else r == Err(p.error)
  }

  lemma OneMoreEntry<K, V>(done: seq<Entry<K, V>>, e: Entry<K, V>)
    ensures MapOf(done + [e]) == MapOf(done)[e.key := e.value]
    ensures KeysOf(done + [e]) == KeysOf(done) + [e.key]
  {
  }

  lemma NothingStored()
    ensures Grouped([]) == map[]
  {
  }

  lemma OneMoreStored(done: seq<Subscription>, x: Subscription)
    ensures Grouped(done + [x]) == Grouped(done)[x.typeId := BucketOf(Grouped(done), x.typeId) + [x]]
  {
  }

  method DecodeState(input: seq<byte>, limits: Limits) returns (r: Result<State, Error>)
    requires |input| <= U64_MAX
    ensures r == Decode(input, limits)
  {
    hide ParseCounted, MapOf, Grouped;
    var cursor := new Cursor(input);
    var magic :- cursor.Take(8);
    if magic != STATE_MAGIC {
      return Err(Malformed);
    }
    var keys :- ReadAgents(cursor, limits.agents);
    var environments :- ReadEnvironments(cursor, limits.environments);
    var subscriptions :- ReadSubscriptions(cursor, limits.subscriptions);
    var marks :- ReadMarks(cursor, limits.replays);
    if cursor.position != |input| {
      return Err(Malformed);
    }
    return Ok(State(keys, environments, subscriptions, marks));
  }
}
