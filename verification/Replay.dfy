/** Replay protection: what marking a session does, what it guarantees over whole runs, and the two
    caches that implement it. */
module Replay {
  import opened Bytes
  import opened Types

  datatype Key = Key(sender: AgentId, session: SessionId)

  type Entries = map<Key, u64>

  function Expiry(now: u64, ttl: u64): u64 { if now + ttl > U64_MAX then U64_MAX else now + ttl }

  /** The entries that have not expired. */
  function Live(entries: Entries, now: u64): Entries {
    map key | key in entries && entries[key] > now :: entries[key]
  }

  datatype Marked = Marked(result: Result<(), Error>, entries: Entries)

  function Mark(entries: Entries, key: Key, now: u64, maximum: nat, ttl: u64): Marked {
    var live := Live(entries, now);
    if key in live then Marked(Err(Error.Replay), live)
    else if |live| >= maximum then Marked(Err(Capacity), live)
    else Marked(Ok(()), live[key := Expiry(now, ttl)])
  }

  // ----- what a mark does, in numbers -----

  /** The time comes before `ttl` has passed since `start`, and before the last moment of the clock. */
  predicate Within(start: u64, ttl: u64, time: u64) { time < start + ttl && time < 0xFFFF_FFFF_FFFF_FFFF }

  /** A session that is known and has not expired is a replay; otherwise it is marked if fewer than
      `maximum` sessions have not expired, until `ttl` from now or the last moment of the clock. The
      other sessions stay exactly if they have not expired. */
  lemma MarkIsExact(entries: Entries, key: Key, now: u64, maximum: nat, ttl: u64)
    ensures var m, unexpired := Mark(entries, key, now, maximum, ttl), set k | k in entries && entries[k] > now;
      && (m.result == Err(Error.Replay) <==> key in unexpired)
      && (m.result == Err(Capacity) <==> key !in unexpired && |unexpired| >= maximum)
      && (m.result.Ok? <==> key !in unexpired && |unexpired| < maximum)
      && (m.result.Ok? ==>
            key in m.entries && m.entries[key]
              == if now + ttl > 0xFFFF_FFFF_FFFF_FFFF then 0xFFFF_FFFF_FFFF_FFFF else now + ttl)
      && forall k :: !(k == key && m.result.Ok?) ==>
           (k in m.entries <==> k in unexpired) && (k in unexpired ==> m.entries[k] == entries[k])
  {
    var unexpired := set k | k in entries && entries[k] > now;
    assert Live(entries, now).Keys == unexpired;
  }

  /** Two calls of one session, with nothing in between: the second is a replay exactly if it comes
      before the time to live has passed and before the last moment of the clock. After that it is
      accepted if there is room. */
  lemma SecondCall(entries: Entries, key: Key, now: u64, later: u64, maximum: nat, ttl: u64)
    requires Mark(entries, key, now, maximum, ttl).result.Ok?
    ensures var first := Mark(entries, key, now, maximum, ttl).entries;
      var second := Mark(first, key, later, maximum, ttl).result;
      && (second == Err(Error.Replay) <==> later < now + ttl && later < 0xFFFF_FFFF_FFFF_FFFF)
      && (second.Ok? <==>
            && (later >= now + ttl || later == 0xFFFF_FFFF_FFFF_FFFF)
            && |set k | k in first && first[k] > later| < maximum)
  {
    var first := Mark(entries, key, now, maximum, ttl).entries;
    MarkIsExact(first, key, later, maximum, ttl);
  }

  // ----- runs -----

  datatype Call = Call(key: Key, now: u64)

  /** The entries after a run that starts empty. */
  function After(calls: seq<Call>, maximum: nat, ttl: u64): Entries {
    if calls == [] then map[]
    else
      var last := calls[|calls| - 1];
      Mark(After(calls[..|calls| - 1], maximum, ttl), last.key, last.now, maximum, ttl).entries
  }

  /** The result of call `i` of the run. */
  function ResultOf(calls: seq<Call>, i: nat, maximum: nat, ttl: u64): Result<(), Error>
    requires i < |calls|
  {
    Mark(After(calls[..i], maximum, ttl), calls[i].key, calls[i].now, maximum, ttl).result
  }

  ghost predicate ClockNeverGoesBack(calls: seq<Call>) {
    forall i, j :: 0 <= i <= j < |calls| ==> calls[i].now <= calls[j].now
  }

  /** Call `i` was accepted for the key, and all calls after it and before `n` came within its time to live. */
  ghost predicate Holds(calls: seq<Call>, i: nat, n: nat, key: Key, maximum: nat, ttl: u64)
    requires i < n <= |calls|
  {
    && calls[i].key == key && ResultOf(calls, i, maximum, ttl).Ok?
    && forall k :: i < k < n ==> Within(calls[i].now, ttl, calls[k].now)
  }

  /** One of the first `m` calls holds the key up to call `n`. */
  ghost predicate Held(calls: seq<Call>, m: nat, n: nat, key: Key, maximum: nat, ttl: u64)
    requires m <= n <= |calls|
  {
    exists i :: 0 <= i < m && Holds(calls, i, n, key, maximum, ttl)
  }

  lemma PrefixHolds(calls: seq<Call>, k: nat, i: nat, key: Key, maximum: nat, ttl: u64)
    requires i < k <= |calls|
    ensures Holds(calls[..k], i, k, key, maximum, ttl) <==> Holds(calls, i, k, key, maximum, ttl)
  {
    assert calls[..k][..i] == calls[..i];
  }

  /** What the last call of a run does. */
  lemma LastCall(calls: seq<Call>, maximum: nat, ttl: u64) returns (front: seq<Call>, before: Entries, marked: Marked)
    requires calls != []
    ensures front == calls[..|calls| - 1] && before == After(front, maximum, ttl)
    ensures marked == Mark(before, calls[|calls| - 1].key, calls[|calls| - 1].now, maximum, ttl)
    ensures After(calls, maximum, ttl) == marked.entries && ResultOf(calls, |calls| - 1, maximum, ttl) == marked.result
  {
    front := calls[..|calls| - 1];
    before := After(front, maximum, ttl);
    marked := Mark(before, calls[|calls| - 1].key, calls[|calls| - 1].now, maximum, ttl);
  }

  lemma {:induction false} HeldIsEntry(calls: seq<Call>, i: nat, key: Key, maximum: nat, ttl: u64)
    requires i < |calls| && Holds(calls, i, |calls|, key, maximum, ttl)
    ensures key in After(calls, maximum, ttl) && After(calls, maximum, ttl)[key] == Expiry(calls[i].now, ttl)
  {
    hide After, ResultOf;
    var front, before, marked := LastCall(calls, maximum, ttl);
    if i < |front| {
      PrefixHolds(calls, |front|, i, key, maximum, ttl);
      HeldIsEntry(front, i, key, maximum, ttl);
    }
  }

  lemma {:induction false} EntryIsHeld(calls: seq<Call>, key: Key, maximum: nat, ttl: u64) returns (i: nat)
    requires key in After(calls, maximum, ttl)
    ensures i < |calls| && Holds(calls, i, |calls|, key, maximum, ttl)
  {
    assert calls != [];
    hide After, ResultOf;
    var front, before, marked := LastCall(calls, maximum, ttl);
    if marked.result.Ok? && calls[|front|].key == key {
      i := |front|;
    } else {
      i := EntryIsHeld(front, key, maximum, ttl);
      HeldIsEntry(front, i, key, maximum, ttl);
      PrefixHolds(calls, |front|, i, key, maximum, ttl);
    }
  }

  /** Whatever the clock does, the entries are those of the accepted calls at whose expiry or later
      no call has come since. */
  lemma EntriesAreHeld(calls: seq<Call>, key: Key, maximum: nat, ttl: u64)
    ensures key in After(calls, maximum, ttl) <==> Held(calls, |calls|, |calls|, key, maximum, ttl)
    ensures forall i :: 0 <= i < |calls| && Holds(calls, i, |calls|, key, maximum, ttl) ==>
      && key in After(calls, maximum, ttl)
      && After(calls, maximum, ttl)[key] == Expiry(calls[i].now, ttl)
      && forall time :: Within(calls[i].now, ttl, time) <==> time < After(calls, maximum, ttl)[key]
  {
    hide After, Holds;
    forall i | 0 <= i < |calls| && Holds(calls, i, |calls|, key, maximum, ttl)
      ensures key in After(calls, maximum, ttl) && After(calls, maximum, ttl)[key] == Expiry(calls[i].now, ttl)
    {
      HeldIsEntry(calls, i, key, maximum, ttl);
    }
    if key in After(calls, maximum, ttl) {
      var i := EntryIsHeld(calls, key, maximum, ttl);
    }
  }

  /** Whatever the clock does, a call is rejected as a replay exactly if an earlier call of the same
      session was accepted, and every call since, this one included, came before its expiry. */
  lemma ReplayIsExact(calls: seq<Call>, j: nat, maximum: nat, ttl: u64)
    requires j < |calls|
    ensures ResultOf(calls, j, maximum, ttl) == Err(Error.Replay) <==>
      Held(calls, j, j + 1, calls[j].key, maximum, ttl)
  {
    var key := calls[j].key;
    EntriesAreHeld(calls[..j], key, maximum, ttl);
    forall i | 0 <= i < j
      ensures Holds(calls, i, j + 1, key, maximum, ttl) <==>
        Holds(calls[..j], i, j, key, maximum, ttl) && Within(calls[i].now, ttl, calls[j].now)
    {
      PrefixHolds(calls, j, i, key, maximum, ttl);
    }
  }

  predicate BothAccepted(calls: seq<Call>, i: nat, j: nat, maximum: nat, ttl: u64)
    requires i < |calls| && j < |calls|
  {
    ResultOf(calls, i, maximum, ttl).Ok? && ResultOf(calls, j, maximum, ttl).Ok?
  }

  /** No session is accepted twice within the time to live, but at the last moment of the clock. */
  ghost predicate Spaced(calls: seq<Call>, maximum: nat, ttl: u64) {
    forall i, j :: 0 <= i < j < |calls| && calls[i].key == calls[j].key && BothAccepted(calls, i, j, maximum, ttl) ==>
      calls[j].now >= calls[i].now + ttl || calls[j].now == 0xFFFF_FFFF_FFFF_FFFF
  }

  /** While the clock does not go back, a call is rejected as a replay exactly if an earlier call of
      the session was accepted and has not expired. */
  lemma MonotoneClock(calls: seq<Call>, maximum: nat, ttl: u64)
    requires ClockNeverGoesBack(calls)
    ensures forall j :: 0 <= j < |calls| ==>
      (ResultOf(calls, j, maximum, ttl) == Err(Error.Replay) <==> Unexpired(calls, j, maximum, ttl))
    ensures Spaced(calls, maximum, ttl)
  {
    forall j | 0 <= j < |calls|
      ensures ResultOf(calls, j, maximum, ttl) == Err(Error.Replay) <==> Unexpired(calls, j, maximum, ttl)
    {
      ReplayIsExact(calls, j, maximum, ttl);
      forall i | 0 <= i < j && Accepted(calls, i, calls[j].key, maximum, ttl)
        ensures Holds(calls, i, j + 1, calls[j].key, maximum, ttl) <==> Within(calls[i].now, ttl, calls[j].now)
      {
      }
    }
    forall i, j | 0 <= i < j < |calls| && calls[i].key == calls[j].key && BothAccepted(calls, i, j, maximum, ttl)
      ensures calls[j].now >= calls[i].now + ttl || calls[j].now == 0xFFFF_FFFF_FFFF_FFFF
    {
      assert Accepted(calls, i, calls[j].key, maximum, ttl);
    }
  }

  predicate Accepted(calls: seq<Call>, i: nat, key: Key, maximum: nat, ttl: u64)
    requires i < |calls|
  {
    calls[i].key == key && ResultOf(calls, i, maximum, ttl).Ok?
  }

  /** An earlier call of the session of call `j` was accepted, and its expiry is still to come. */
  ghost predicate Unexpired(calls: seq<Call>, j: nat, maximum: nat, ttl: u64)
    requires j < |calls|
  {
    exists i :: 0 <= i < j && Accepted(calls, i, calls[j].key, maximum, ttl) && Within(calls[i].now, ttl, calls[j].now)
  }

  /** A cache with room for two sessions accepts one again before its expiry if the clock goes back:
      a call of another session at the expiry drops the entry. */
  lemma ClockMatters(key: Key, other: Key, maximum: nat, ttl: u64)
    requires key != other && maximum >= 2
    ensures !Spaced([Call(key, 1), Call(other, Expiry(1, ttl)), Call(key, 0)], maximum, ttl)
  {
    var e := Expiry(1, ttl);
    var calls := [Call(key, 1), Call(other, e), Call(key, 0)];
    assert calls[..0] == [] && calls[..1] == [calls[0]] && calls[..2] == [calls[0], calls[1]];
    assert calls[..1][..0] == [] && calls[..2][..1] == calls[..1];
    assert After(calls[..1], maximum, ttl) == map[key := e];
    assert Live(map[key := e], e) == map[];
    assert After(calls[..2], maximum, ttl) == map[other := Expiry(e, ttl)];
    assert Live(map[other := Expiry(e, ttl)], 0) == map[other := Expiry(e, ttl)];
    assert BothAccepted(calls, 0, 2, maximum, ttl);
  }

  /** Some entry stays for as long. */
  ghost predicate Outlived(entries: Entries, expires: u64) {
    exists key :: key in entries && entries[key] >= expires
  }

  predicate Single(entries: Entries) { forall a, b :: a in entries && b in entries ==> a == b }

  /** With room for one entry, a session is accepted only when nothing is live, and what the cache
      holds then lasts at least as long as what it held. */
  lemma OnlyEntry(entries: Entries, key: Key, now: u64, maximum: nat, ttl: u64, expires: u64)
    requires maximum <= 1 && Single(entries)
    ensures var m := Mark(entries, key, now, maximum, ttl);
      && Single(m.entries)
      && (m.result.Ok? ==> m.entries == map[key := Expiry(now, ttl)])
      && (m.result.Ok? && Outlived(entries, expires) ==> expires <= now)
      && (maximum == 1 && Outlived(entries, expires) ==> Outlived(m.entries, expires))
  {
    var live, m := Live(entries, now), Mark(entries, key, now, maximum, ttl);
    if m.result.Ok? {
      assert live == map[];
      assert forall k :: k in entries ==> k !in live;
      assert key in m.entries;
    } else if maximum == 1 && Outlived(entries, expires) {
      var k :| k in entries && entries[k] >= expires;
      var l :| l in live;
      assert k in m.entries;
    }
  }

  /** A cache of one session never lets go of the latest expiry. */
  lemma {:induction false} AlwaysSingle(calls: seq<Call>, maximum: nat, ttl: u64)
    requires maximum <= 1
    ensures Single(After(calls, maximum, ttl))
  {
    if calls != [] {
      hide After, ResultOf, Mark;
      var front, before, marked := LastCall(calls, maximum, ttl);
      AlwaysSingle(front, maximum, ttl);
      OnlyEntry(before, calls[|front|].key, calls[|front|].now, maximum, ttl, 0);
    }
  }

  /** In a cache of one session, something outlasts every accepted call from then on. */
  lemma {:induction false} OutlastsCall(calls: seq<Call>, i: nat, maximum: nat, ttl: u64)
    requires maximum <= 1 && i < |calls| && ResultOf(calls, i, maximum, ttl).Ok?
    ensures Outlived(After(calls, maximum, ttl), Expiry(calls[i].now, ttl))
  {
    hide After, Mark;
    var front, before, marked := LastCall(calls, maximum, ttl);
    var last := calls[|front|];
    AlwaysSingle(front, maximum, ttl);
    OnlyEntry(before, last.key, last.now, maximum, ttl, Expiry(calls[i].now, ttl));
    if i < |front| {
      assert front[..i] == calls[..i];
      NoneWithoutRoom(calls[..i], calls[i], maximum, ttl);
      OutlastsCall(front, i, maximum, ttl);
    } else {
      assert last.key in marked.entries;
    }
  }

  lemma NoneWithoutRoom(calls: seq<Call>, last: Call, maximum: nat, ttl: u64)
    ensures Mark(After(calls, maximum, ttl), last.key, last.now, maximum, ttl).result.Ok? ==> maximum > 0
  {
  }

  lemma SingleEntrySpaces(calls: seq<Call>, i: nat, j: nat, maximum: nat, ttl: u64)
    requires maximum <= 1 && i < j < |calls| && BothAccepted(calls, i, j, maximum, ttl)
    ensures calls[j].now >= Expiry(calls[i].now, ttl)
  {
    var before := calls[..j];
    assert before[..i] == calls[..i];
    assert ResultOf(before, i, maximum, ttl) == ResultOf(calls, i, maximum, ttl);
    hide After, Mark;
    AlwaysSingle(before, maximum, ttl);
    OutlastsCall(before, i, maximum, ttl);
    OnlyEntry(After(before, maximum, ttl), calls[j].key, calls[j].now, maximum, ttl, Expiry(calls[i].now, ttl));
  }

  /** Over all runs, no session is accepted twice within the time to live exactly if the cache holds
      at most one session; a larger cache relies on a clock that does not go back. */
  lemma SpacingIsExact(maximum: nat, ttl: u64)
    ensures (forall calls: seq<Call> :: Spaced(calls, maximum, ttl)) <==> maximum <= 1
  {
    if maximum >= 2 {
      ClockMatters(Key(0, 0), Key(0, 1), maximum, ttl);
    } else {
      forall calls: seq<Call> ensures Spaced(calls, maximum, ttl) {
        forall i, j | 0 <= i < j < |calls| && calls[i].key == calls[j].key && BothAccepted(calls, i, j, maximum, ttl)
          ensures calls[j].now >= calls[i].now + ttl || calls[j].now == 0xFFFF_FFFF_FFFF_FFFF
        {
          SingleEntrySpaces(calls, i, j, maximum, ttl);
        }
      }
    }
  }

  /** The run without the calls that it rejects as replays. */
  function WithoutReplays(calls: seq<Call>, maximum: nat, ttl: u64): seq<Call> {
    if calls == [] then []
    else
      var n := |calls| - 1;
      var front := WithoutReplays(calls[..n], maximum, ttl);
      if ResultOf(calls, n, maximum, ttl) == Err(Error.Replay) then front else front + [calls[n]]
  }

  /** The results of the calls that are not rejected as replays. */
  function OtherResults(calls: seq<Call>, maximum: nat, ttl: u64): seq<Result<(), Error>> {
    if calls == [] then []
    else
      var n := |calls| - 1;
      var front := OtherResults(calls[..n], maximum, ttl);
      var result := ResultOf(calls, n, maximum, ttl);
      if result == Err(Error.Replay) then front else front + [result]
  }

  /** The results of all calls. */
  function Results(calls: seq<Call>, maximum: nat, ttl: u64): seq<Result<(), Error>> {
    seq(|calls|, i requires 0 <= i < |calls| => ResultOf(calls, i, maximum, ttl))
  }

  lemma LiveTwice(entries: Entries, before: u64, now: u64)
    requires before <= now
    ensures Live(Live(entries, before), now) == Live(entries, now)
  {
  }

  lemma ResultsExtend(calls: seq<Call>, last: Call, maximum: nat, ttl: u64)
    ensures Results(calls + [last], maximum, ttl)
         == Results(calls, maximum, ttl) + [Mark(After(calls, maximum, ttl), last.key, last.now, maximum, ttl).result]
  {
    var all := calls + [last];
    assert all[..|calls|] == calls;
    forall i | 0 <= i < |calls| ensures ResultOf(all, i, maximum, ttl) == ResultOf(calls, i, maximum, ttl) {
      assert all[..i] == calls[..i];
    }
  }

  lemma AfterExtends(calls: seq<Call>, last: Call, maximum: nat, ttl: u64)
    ensures After(calls + [last], maximum, ttl)
         == Mark(After(calls, maximum, ttl), last.key, last.now, maximum, ttl).entries
  {
  }

  /** Marking depends on the live entries only. */
  lemma MarkByLive(a: Entries, b: Entries, before: u64, key: Key, now: u64, maximum: nat, ttl: u64)
    requires before <= now && Live(a, before) == Live(b, before)
    ensures Mark(a, key, now, maximum, ttl) == Mark(b, key, now, maximum, ttl)
  {
    LiveTwice(a, before, now);
    LiveTwice(b, before, now);
  }

  /** Deleting the rejected replays changes no other result, and no entry that is live at any later time. */
  lemma {:induction false} ReplaysLeaveNoTrace(calls: seq<Call>, now: u64, maximum: nat, ttl: u64)
    requires ClockNeverGoesBack(calls) && (calls != [] ==> calls[|calls| - 1].now <= now)
    ensures Results(WithoutReplays(calls, maximum, ttl), maximum, ttl) == OtherResults(calls, maximum, ttl)
    ensures Live(After(calls, maximum, ttl), now) == Live(After(WithoutReplays(calls, maximum, ttl), maximum, ttl), now)
  {
    if calls != [] {
      var n := |calls| - 1;
      var front, last := calls[..n], calls[n];
      var kept := WithoutReplays(front, maximum, ttl);
      ReplaysLeaveNoTrace(front, last.now, maximum, ttl);
      MarkByLive(After(front, maximum, ttl), After(kept, maximum, ttl), last.now, last.key, last.now, maximum, ttl);
      if ResultOf(calls, n, maximum, ttl) == Err(Error.Replay) {
        LiveTwice(After(front, maximum, ttl), last.now, now);
        LiveTwice(After(kept, maximum, ttl), last.now, now);
      } else {
        ResultsExtend(kept, last, maximum, ttl);
        AfterExtends(kept, last, maximum, ttl);
      }
    }
  }
}

/** The ordered map of the CA and the array with holes of the Agents. */
module ReplayCaches {
  import opened Bytes
  import opened Types
  import opened Replay

  class ReplayCache {
    var entries: Entries
    const maximum: nat
    const ttl: u64

    constructor (maximum: nat, ttl: u64)
      ensures entries == map[] && this.maximum == maximum && this.ttl == ttl
    {
      entries, this.maximum, this.ttl := map[], maximum, ttl;
    }

    method CheckAndMark(key: Key, now: u64) returns (r: Result<(), Error>)
      modifies this`entries
      ensures Marked(r, entries) == Mark(old(entries), key, now, maximum, ttl)
      ensures r == Err(Error.Replay) <==> key in old(entries) && old(entries)[key] > now
      ensures r.Ok? ==> key in entries && forall time :: Within(now, ttl, time) <==> time < entries[key]
    {
      entries := map k | k in entries && entries[k] > now :: entries[k];
      if key in entries {
        return Err(Error.Replay);
      }
      if |entries| >= maximum {
        return Err(Capacity);
      }
      var expires := Expiry(now, ttl);
      entries := entries[key := expires];
      return Ok(());
    }
  }

  datatype ReplayEntry = ReplayEntry(key: Key, expires: u64)

  type Slots = seq<Option<ReplayEntry>>

  predicate DistinctKeys(slots: Slots) {
    forall i, j :: 0 <= i < j < |slots| && slots[i].Some? && slots[j].Some? ==> slots[i].value.key != slots[j].value.key
  }

  /** The occupied slots as a map. */
  function Contents(slots: Slots): Entries {
    if slots == [] then map[]
    else
      var front := Contents(slots[..|slots| - 1]);
      match slots[|slots| - 1]
      case None => front
      case Some(e) => front[e.key := e.expires]
  }

  function Occupied(slots: Slots): nat {
    if slots == [] then 0
    else Occupied(slots[..|slots| - 1]) + if slots[|slots| - 1].Some? then 1 else 0
  }

  lemma {:induction false} ContentsHold(slots: Slots)
    requires DistinctKeys(slots)
    ensures forall i :: 0 <= i < |slots| && slots[i].Some? ==>
      slots[i].value.key in Contents(slots) && Contents(slots)[slots[i].value.key] == slots[i].value.expires
    ensures forall key :: key in Contents(slots) ==>
      exists i :: 0 <= i < |slots| && slots[i].Some? && slots[i].value.key == key
  {
    if slots == [] {
    } else {
      var n := |slots| - 1;
      var front := slots[..n];
      ContentsHold(front);
      assert forall i :: 0 <= i < n ==> front[i] == slots[i];
      if slots[n].Some? {
        assert slots[n].value.key == slots[n].value.key && slots[n].Some?;
      }
    }
  }

  /** The size of the map is the number of occupied slots. */
  lemma {:induction false} ContentsCount(slots: Slots)
    requires DistinctKeys(slots)
    ensures |Contents(slots)| == Occupied(slots) <= |slots|
    ensures Occupied(slots) == |slots| <==> forall i :: 0 <= i < |slots| ==> slots[i].Some?
  {
    if slots == [] {
    } else {
      var n := |slots| - 1;
      var front := slots[..n];
      ContentsCount(front);
      ContentsHold(front);
      assert forall i :: 0 <= i < n ==> front[i] == slots[i];
      if slots[n].Some? {
        assert slots[n].value.key !in Contents(front);
      }
    }
  }

  lemma ContentsAre(slots: Slots)
    requires DistinctKeys(slots)
    ensures |Contents(slots)| == Occupied(slots) <= |slots|
    ensures Occupied(slots) == |slots| <==> forall i :: 0 <= i < |slots| ==> slots[i].Some?
    ensures forall i :: 0 <= i < |slots| && slots[i].Some? ==>
      slots[i].value.key in Contents(slots) && Contents(slots)[slots[i].value.key] == slots[i].value.expires
    ensures forall key :: key in Contents(slots) ==>
      exists i :: 0 <= i < |slots| && slots[i].Some? && slots[i].value.key == key
  {
    hide Contents, Occupied;
    ContentsHold(slots);
    ContentsCount(slots);
  }

  /** The map of the slots is determined by what they hold. */
  lemma ContentsUnique(slots: Slots, entries: Entries)
    requires DistinctKeys(slots)
    requires forall i :: 0 <= i < |slots| && slots[i].Some? ==>
      slots[i].value.key in entries && entries[slots[i].value.key] == slots[i].value.expires
    requires forall key :: key in entries ==>
      exists i :: 0 <= i < |slots| && slots[i].Some? && slots[i].value.key == key
    ensures Contents(slots) == entries
  {
    ContentsAre(slots);
  }

  class FixedReplayCache {
    const slots: array<Option<ReplayEntry>>
    const ttl: u64

    ghost predicate Valid()
      reads slots
    {
      DistinctKeys(slots[..])
    }

    ghost function Entries(): Entries
      reads slots
    {
      Contents(slots[..])
    }

    constructor (size: nat, ttl: u64)
      ensures Valid() && Entries() == map[] && slots.Length == size && this.ttl == ttl && fresh(slots)
    {
      slots := new Option<ReplayEntry>[size](_ => None);
      this.ttl := ttl;
      new;
      ContentsUnique(slots[..], map[]);
    }

    /** Returns what the map of capacity `slots.Length` returns, and holds what it holds. */
    method CheckAndMark(key: Key, now: u64) returns (r: Result<(), Error>)
      requires Valid()
      modifies slots
      ensures Valid()
      ensures Marked(r, Entries()) == Mark(old(Entries()), key, now, slots.Length, ttl)
      ensures r == Err(Error.Replay) <==> key in old(Entries()) && old(Entries())[key] > now
      ensures r.Ok? ==> key in Entries() && forall time :: Within(now, ttl, time) <==> time < Entries()[key]
    {
      Expire(now);
      ContentsAre(slots[..]);
      var known := Find(key);
      if known {
        return Err(Error.Replay);
      }
      var vacant := FindVacant();
      if vacant == slots.Length {
        return Err(Capacity);
      }
      ghost var before := slots[..];
      slots[vacant] := Some(ReplayEntry(key, Expiry(now, ttl)));
      Filled(before, vacant, ReplayEntry(key, Expiry(now, ttl)));
      assert slots[..] == before[vacant := slots[vacant]];
      return Ok(());
    }

    /** Clears the expired slots. */
    method Expire(now: u64)
      requires Valid()
      modifies slots
      ensures Valid() && Entries() == Live(old(Entries()), now)
    {
      ghost var before := slots[..];
      for i := 0 to slots.Length
        invariant forall k :: 0 <= k < i ==>
          slots[k] == if before[k].Some? && before[k].value.expires <= now then None else before[k]
        invariant forall k :: i <= k < slots.Length ==> slots[k] == before[k]
      {
        if slots[i].Some? && slots[i].value.expires <= now {
          slots[i] := None;
        }
      }
      Expired(before, slots[..], now);
    }

    method Find(key: Key) returns (known: bool)
      requires Valid()
      ensures known <==> key in Entries()
    {
      ContentsAre(slots[..]);
      for i := 0 to slots.Length
        invariant forall k :: 0 <= k < i && slots[k].Some? ==> slots[k].value.key != key
      {
        if slots[i].Some? && slots[i].value.key == key {
          return true;
        }
      }
      return false;
    }

    /** The first empty slot, or the number of slots. */
    method FindVacant() returns (vacant: nat)
      ensures vacant <= slots.Length && (vacant < slots.Length ==> slots[vacant].None?)
      ensures forall k :: 0 <= k < vacant ==> slots[k].Some?
    {
      vacant := 0;
      while vacant < slots.Length && slots[vacant].Some?
        invariant vacant <= slots.Length
        invariant forall k :: 0 <= k < vacant ==> slots[k].Some?
      {
        vacant := vacant + 1;
      }
    }
  }

  lemma Expired(before: Slots, after: Slots, now: u64)
    requires DistinctKeys(before) && |after| == |before|
    requires forall k :: 0 <= k < |after| ==>
      after[k] == if before[k].Some? && before[k].value.expires <= now then None else before[k]
    ensures DistinctKeys(after) && Contents(after) == Live(Contents(before), now)
  {
    ContentsAre(before);
    var live := Live(Contents(before), now);
    forall key | key in live ensures exists i :: 0 <= i < |after| && after[i].Some? && after[i].value.key == key {
      var i :| 0 <= i < |before| && before[i].Some? && before[i].value.key == key;
      assert after[i] == before[i];
    }
    ContentsUnique(after, live);
  }

  lemma Filled(slots: Slots, vacant: nat, entry: ReplayEntry)
    requires DistinctKeys(slots) && vacant < |slots| && slots[vacant].None? && entry.key !in Contents(slots)
    ensures var after := slots[vacant := Some(entry)];
      DistinctKeys(after) && Contents(after) == Contents(slots)[entry.key := entry.expires]
  {
    ContentsAre(slots);
    var after, entries := slots[vacant := Some(entry)], Contents(slots)[entry.key := entry.expires];
    forall key | key in entries ensures exists i :: 0 <= i < |after| && after[i].Some? && after[i].value.key == key {
      if key == entry.key {
        assert after[vacant].value.key == key;
      } else {
        var i :| 0 <= i < |slots| && slots[i].Some? && slots[i].value.key == key;
        assert after[i] == slots[i];
      }
    }
    ContentsUnique(after, entries);
  }
}
