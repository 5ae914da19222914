/** The binary snapshot of the store: its bytes, its decoder, and that every valid state reloads. */
module Snapshot {
  import opened Bytes
  import opened Types
  import opened Parsing
  import opened PayloadSizes
  import opened SortedMaps
  import opened Replay
  import opened Store

  const STATE_MAGIC: seq<byte> := [83, 80, 83, 84, 65, 84, 69, 49]
  const MAX_SNAPSHOT: nat := 16 * 1024 * 1024

  type AgentEntry = Entry<AgentId, PublicKeys>
  type EnvironmentEntry = Entry<AgentId, seq<byte>>
  type ReplayItem = Entry<Key, u64>

  // ----- orders -----

  function AgentRank(a: AgentId): nat { a }

  function TypeRank(t: TypeId): nat { t }

  function KeyRank(k: Key): nat { k.sender * 0x1_0000_0000_0000_0000_0000_0000_0000_0000 + k.session }

  lemma RanksAreInjective()
    ensures Injective(AgentRank) && Injective(TypeRank) && Injective(KeyRank)
  {
  }

  // ----- bytes -----

  function PutBytes(bytes: seq<byte>, rest: seq<byte>): seq<byte> { PutNumber(|bytes|, 4, bytes + rest) }

  function PutAgent(e: AgentEntry, rest: seq<byte>): seq<byte> {
    PutNumber(e.key, 16, e.value.ed25519 + (e.value.x25519 + rest))
  }

  function PutEnvironmentOf(e: EnvironmentEntry, rest: seq<byte>): seq<byte>
  {
    PutNumber(e.key, 16, PutBytes(e.value, rest))
  }

  function PutStored(x: Subscription, rest: seq<byte>): seq<byte> {
    PutNumber(x.subscriber, 16, PutNumber(x.typeId, 4, PutNumber(x.handler, 16, PutBytes(x.encoded, rest))))
  }

  function PutMark(e: ReplayItem, rest: seq<byte>): seq<byte> {
    PutNumber(e.key.sender, 16, PutNumber(e.key.session, 16, PutNumber(e.value, 8, rest)))
  }

  function PutCounted<T>(put: (T, seq<byte>) -> seq<byte>, items: seq<T>, rest: seq<byte>): seq<byte> {
    PutNumber(|items|, 4, PutMany(put, items, rest))
  }

  /** The buckets one after the other, in the order of their types. */
  function Flattened(subscriptions: Buckets): seq<Subscription>
    decreases |subscriptions|
  {
    RanksAreInjective();
    if |subscriptions| == 0 then []
    else
      var t := Least(subscriptions.Keys, TypeRank);
      Fewer(subscriptions, t);
      subscriptions[t] + Flattened(subscriptions - {t})
  }

  function Encode(s: State): seq<byte> {
    RanksAreInjective();
    STATE_MAGIC
    + PutCounted(PutAgent, Listing(s.keys, AgentRank),
      PutCounted(PutEnvironmentOf, Listing(s.environments, AgentRank),
      PutCounted(PutStored, Flattened(s.subscriptions),
      PutCounted(PutMark, Listing(s.replay, KeyRank), []))))
  }

  /** The counts of the snapshot are 32-bit numbers. */
  predicate Countable(s: State) {
    && |s.keys| < 0x1_0000_0000 && |s.environments| < 0x1_0000_0000
    && |Flattened(s.subscriptions)| < 0x1_0000_0000 && |s.replay| < 0x1_0000_0000
  }

  /** What a commit returns; `writes` says whether the file system plays along. */
  function Verdict(next: State, writes: bool): Result<(), Error> {
    if !Countable(next) || |Encode(next)| > MAX_SNAPSHOT then Err(Oversized)
    else if !writes then Err(Capacity)
    else Ok(())
  }

  // ----- decoding -----

  function ParseCount(s: seq<byte>, maximum: nat): Parse<nat> {
    var Parsed(count, rest) :- ParseU32(s);
    if count > maximum then Err(Capacity) else Ok(Parsed(count, rest))
  }

  function ParseBytes(s: seq<byte>): Parse<seq<byte>> {
    var Parsed(length, rest) :- ParseCount(s, MAX_PLAINTEXT_LEN);
    Take(rest, length)
  }

  function ParseKeys(s: seq<byte>): Parse<PublicKeys> {
    var Parsed(ed25519, rest) :- Take(s, 32);
    var Parsed(x25519, rest) :- Take(rest, 32);
    Ok(Parsed(PublicKeys(ed25519, x25519), rest))
  }

  function ParseAgent(s: seq<byte>, done: seq<AgentEntry>): Parse<AgentEntry> {
    var Parsed(agent, rest) :- ParseU128(s);
    if agent == CA then Err(Malformed)
    else
      var Parsed(keys, rest) :- ParseKeys(rest);
      if agent in KeysOf(done) then Err(Malformed) else Ok(Parsed(Entry(agent, keys), rest))
  }

  function ParseEnvironmentOf(s: seq<byte>, done: seq<EnvironmentEntry>): Parse<EnvironmentEntry> {
    var Parsed(agent, rest) :- ParseU128(s);
    var Parsed(encoded, rest) :- ParseBytes(rest);
    if !IsEnvironment(encoded) || agent in KeysOf(done) then Err(Malformed) else Ok(Parsed(Entry(agent, encoded), rest))
  }

  /** The kind of a subscription is that of its encoded operation. */
  function ParseStored(s: seq<byte>, done: seq<Subscription>): Parse<Subscription> {
    var Parsed(subscriber, rest) :- ParseU128(s);
    var Parsed(typeId, rest) :- ParseU32(rest);
    var Parsed(handler, rest) :- ParseU128(rest);
    var Parsed(encoded, rest) :- ParseBytes(rest);
    var kind := KindOf(encoded);
    if kind == None || kind.value.1 != typeId || handler == NO_HANDLER then Err(Malformed)
    else Ok(Parsed(Subscription(subscriber, typeId, handler, kind.value.0, encoded), rest))
  }

  function ParseMark(s: seq<byte>, done: seq<ReplayItem>): Parse<ReplayItem> {
    var Parsed(sender, rest) :- ParseU128(s);
    var Parsed(session, rest) :- ParseU128(rest);
    var Parsed(expires, rest) :- ParseU64(rest);
    var key := Key(sender, session);
    if key in KeysOf(done) then Err(Malformed) else Ok(Parsed(Entry(key, expires), rest))
  }

  function ParseCounted<T>(parse: (seq<byte>, seq<T>) -> Parse<T>, s: seq<byte>, maximum: nat): Parse<seq<T>> {
    var Parsed(count, rest) :- ParseCount(s, maximum);
    ParseMany(parse, rest, count, [])
  }

  /** Each subscription is pushed to the bucket of its type. */
  function Grouped(items: seq<Subscription>): Buckets {
    if items == [] then map[]
    else
      var front, x := Grouped(items[..|items| - 1]), items[|items| - 1];
      front[x.typeId := BucketOf(front, x.typeId) + [x]]
  }

  function Decode(input: seq<byte>, limits: Limits): Result<State, Error> {
    var Parsed(magic, rest) :- Take(input, 8);
    if magic != STATE_MAGIC then Err(Malformed)
    else
      var Parsed(agents, rest) :- ParseCounted(ParseAgent, rest, limits.agents);
      var Parsed(environments, rest) :- ParseCounted(ParseEnvironmentOf, rest, limits.environments);
      var Parsed(items, rest) :- ParseCounted(ParseStored, rest, limits.subscriptions);
      var Parsed(marks, rest) :- ParseCounted(ParseMark, rest, limits.replays);
      if rest != [] then Err(Malformed)
      else Ok(State(MapOf(agents), MapOf(environments), Grouped(items), MapOf(marks)))
  }

  // ----- each item is read back -----

  predicate GoodAgent(e: AgentEntry, done: seq<AgentEntry>)
  {
    e.key != CA && FullKeys(e.value) && e.key !in KeysOf(done)
  }

  predicate GoodEnvironmentOf(e: EnvironmentEntry, done: seq<EnvironmentEntry>)
  {
    IsEnvironment(e.value) && e.key !in KeysOf(done)
  }

  predicate GoodStored(x: Subscription, done: seq<Subscription>) { GoodEntry(x.typeId, x) }

  predicate GoodMark(e: ReplayItem, done: seq<ReplayItem>) { e.key !in KeysOf(done) }

  lemma BytesReadBack(bytes: seq<byte>, rest: seq<byte>)
    requires |bytes| <= MAX_PLAINTEXT_LEN
    ensures ParseBytes(PutBytes(bytes, rest)) == Ok(Parsed(bytes, rest))
  {
    Widths();
    NumberRoundTrip(|bytes|, 4, bytes + rest);
    TakeRoundTrip(bytes, rest);
  }

  lemma AgentReadsBack(e: AgentEntry, done: seq<AgentEntry>, rest: seq<byte>)
    requires GoodAgent(e, done)
    ensures ParseAgent(PutAgent(e, rest), done) == Ok(Parsed(e, rest))
  {
    Widths();
    NumberRoundTrip(e.key, 16, e.value.ed25519 + (e.value.x25519 + rest));
    TakeRoundTrip(e.value.ed25519, e.value.x25519 + rest);
    TakeRoundTrip(e.value.x25519, rest);
  }

  lemma EnvironmentIsShort(encoded: seq<byte>)
    requires IsEnvironment(encoded)
    ensures |encoded| <= 1106
  {
    ParsedFitsFrame(encoded, 0);
  }

  lemma StoredIsShort(x: Subscription)
    requires Stored(x)
    ensures |x.encoded| <= 566
  {
    ParsedFitsFrame(x.encoded, 0);
  }

  lemma EnvironmentReadsBack(e: EnvironmentEntry, done: seq<EnvironmentEntry>, rest: seq<byte>)
    requires GoodEnvironmentOf(e, done)
    ensures ParseEnvironmentOf(PutEnvironmentOf(e, rest), done) == Ok(Parsed(e, rest))
  {
    hide IsEnvironment;
    Widths();
    EnvironmentIsShort(e.value);
    NumberRoundTrip(e.key, 16, PutBytes(e.value, rest));
    BytesReadBack(e.value, rest);
  }

  /** A stored entry is read, unless it names no handler. */
  lemma StoredIsRead(x: Subscription, done: seq<Subscription>, rest: seq<byte>)
    requires Stored(x)
    ensures ParseStored(PutStored(x, rest), done) == if x.handler != NO_HANDLER then Ok(Parsed(x, rest))
      else Err(Malformed)
  {
    hide KindOf;
    Widths();
    StoredIsShort(x);
    var tail := PutNumber(x.handler, 16, PutBytes(x.encoded, rest));
    NumberRoundTrip(x.subscriber, 16, PutNumber(x.typeId, 4, tail));
    NumberRoundTrip(x.typeId, 4, tail);
    NumberRoundTrip(x.handler, 16, PutBytes(x.encoded, rest));
    BytesReadBack(x.encoded, rest);
  }

  lemma StoredReadsBack(x: Subscription, done: seq<Subscription>, rest: seq<byte>)
    requires GoodStored(x, done)
    ensures ParseStored(PutStored(x, rest), done) == Ok(Parsed(x, rest))
  {
    hide Stored, ParseStored, PutStored;
    StoredIsRead(x, done, rest);
  }

  lemma MarkReadsBack(e: ReplayItem, done: seq<ReplayItem>, rest: seq<byte>)
    requires GoodMark(e, done)
    ensures ParseMark(PutMark(e, rest), done) == Ok(Parsed(e, rest))
  {
    Widths();
    var tail := PutNumber(e.value, 8, rest);
    NumberRoundTrip(e.key.sender, 16, PutNumber(e.key.session, 16, tail));
    NumberRoundTrip(e.key.session, 16, tail);
    NumberRoundTrip(e.value, 8, rest);
  }

  lemma CodecsReadBack()
    ensures ReadsBack(PutAgent, ParseAgent, GoodAgent)
    ensures ReadsBack(PutEnvironmentOf, ParseEnvironmentOf, GoodEnvironmentOf)
    ensures ReadsBack(PutStored, ParseStored, GoodStored) && ReadsBack(PutMark, ParseMark, GoodMark)
  {
    hide ParseAgent, ParseEnvironmentOf, ParseStored, ParseMark, PutAgent, PutEnvironmentOf, PutStored, PutMark,
      GoodAgent, GoodEnvironmentOf, GoodStored, GoodMark;
    forall e, done, rest | GoodAgent(e, done) ensures ParseAgent(PutAgent(e, rest), done) == Ok(Parsed(e, rest)) {
      AgentReadsBack(e, done, rest);
    }
    forall e, done, rest | GoodEnvironmentOf(e, done)
      ensures ParseEnvironmentOf(PutEnvironmentOf(e, rest), done) == Ok(Parsed(e, rest))
    {
      EnvironmentReadsBack(e, done, rest);
    }
    forall x, done, rest | GoodStored(x, done) ensures ParseStored(PutStored(x, rest), done) == Ok(Parsed(x, rest)) {
      StoredReadsBack(x, done, rest);
    }
    forall e, done, rest | GoodMark(e, done) ensures ParseMark(PutMark(e, rest), done) == Ok(Parsed(e, rest)) {
      MarkReadsBack(e, done, rest);
    }
  }

  lemma CountedReadsBack<T(!new)>(put: (T, seq<byte>) -> seq<byte>, parse: (seq<byte>, seq<T>) -> Parse<T>,
                                  good: (T, seq<T>) -> bool,
                                  items: seq<T>, maximum: nat, rest: seq<byte>)
    requires ReadsBack(put, parse, good) && AllGood(good, items, []) && |items| <= maximum && |items| < 0x1_0000_0000
    ensures ParseCounted(parse, PutCounted(put, items, rest), maximum) == Ok(Parsed(items, rest))
  {
    Widths();
    NumberRoundTrip(|items|, 4, PutMany(put, items, rest));
    ManyRoundTrip(put, parse, good, items, [], rest);
    assert [] + items == items;
  }

  /** Entries with distinct keys are good one after the other, if they are good when their key is new. */
  lemma {:induction false} EntriesAreGood<K(!new), V(!new)>(good: (Entry<K, V>, seq<Entry<K, V>>) -> bool,
                                                            items: seq<Entry<K, V>>, done: seq<Entry<K, V>>)
    requires DistinctKeys(done + items)
    requires forall e, d :: e in items && e.key !in KeysOf(d) ==> good(e, d)
    ensures AllGood(good, items, done)
    decreases |items|
  {
    if items != [] {
      var first, others := items[0], items[1..];
      Uncons(items);
      Regroup(done, first, others);
      KeyIsNew(done, first, others);
      EntriesAreGood(good, others, done + [first]);
    }
  }

  lemma KeyIsNew<K(!new), V>(done: seq<Entry<K, V>>, first: Entry<K, V>, others: seq<Entry<K, V>>)
    requires DistinctKeys(done + ([first] + others))
    ensures first.key !in KeysOf(done)
  {
    var all := done + ([first] + others);
    forall i | 0 <= i < |done| ensures KeysOf(done)[i] != first.key {
      KeyAt(done, i);
      assert all[i].key != all[|done|].key;
    }
  }

  lemma {:induction false} StoredAreGood(items: seq<Subscription>, done: seq<Subscription>)
    requires forall x :: x in items ==> GoodEntry(x.typeId, x)
    ensures AllGood(GoodStored, items, done)
    decreases |items|
  {
    if items != [] {
      StoredAreGood(items[1..], done + [items[0]]);
    }
  }
}
