/** The two bounded collections that each daemon keeps across sessions. */
module LinkQueues {
  import opened Bytes
  import opened Types
  import opened LinkProtocol
  import opened LinkCodec

  datatype Entry = Entry(id: MessageId, bytes: seq<byte>)

  predicate Distinct(ids: seq<MessageId>) {
    forall i, j :: 0 <= i < j < |ids| ==> ids[i] != ids[j]
  }

  function Retain(ids: seq<MessageId>, id: MessageId): (rest: seq<MessageId>)
    ensures forall x :: x in rest <==> x in ids && x != id
  {
    if ids == [] then []
    else if ids[0] == id then Retain(ids[1..], id)
    else [ids[0]] + Retain(ids[1..], id)
  }

  function Without(entries: seq<Entry>, id: MessageId): seq<Entry> {
    if entries == [] then []
    else if entries[0].id == id then Without(entries[1..], id)
    else [entries[0]] + Without(entries[1..], id)
  }

  function EntriesOf(order: seq<MessageId>, frames: map<MessageId, seq<byte>>): (entries: seq<Entry>)
    requires forall id :: id in order ==> id in frames
    ensures |entries| == |order|
    ensures forall i :: 0 <= i < |order| ==> entries[i] == Entry(order[i], frames[order[i]])
  {
    seq(|order|, i requires 0 <= i < |order| => Entry(order[i], frames[order[i]]))
  }

  lemma {:induction false} RetainKeepsDistinct(ids: seq<MessageId>, id: MessageId)
    requires Distinct(ids)
    ensures Distinct(Retain(ids, id))
  {
    if ids != [] {
      RetainKeepsDistinct(ids[1..], id);
      assert forall x :: x in Retain(ids[1..], id) ==> x != ids[0];
    }
  }

  lemma EntriesSplit(order: seq<MessageId>, frames: map<MessageId, seq<byte>>)
    requires order != [] && forall x :: x in order ==> x in frames
    ensures EntriesOf(order, frames) == [Entry(order[0], frames[order[0]])] + EntriesOf(order[1..], frames)
    ensures EntriesOf(order, frames)[1..] == EntriesOf(order[1..], frames)
  {
  }

  lemma {:induction false} RetainIsWithout(order: seq<MessageId>, frames: map<MessageId, seq<byte>>,
                                           rest: map<MessageId, seq<byte>>, id: MessageId)
    requires (forall x :: x in order ==> x in frames) && rest == frames - {id}
    ensures EntriesOf(Retain(order, id), rest) == Without(EntriesOf(order, frames), id)
  {
    if order != [] {
      EntriesSplit(order, frames);
      RetainIsWithout(order[1..], frames, rest, id);
      if order[0] != id {
        var kept := Retain(order, id);
        assert kept == [order[0]] + Retain(order[1..], id) && kept[1..] == Retain(order[1..], id);
        EntriesSplit(kept, rest);
      }
    }
  }

  lemma RetainAbsent(ids: seq<MessageId>, id: MessageId)
    requires id !in ids
    ensures Retain(ids, id) == ids
  {
  }

  /** Sent but unacknowledged frames: a map from identifiers to encoded frames, and the order of sending. */
  class PendingFrames {
    const maximum: nat
    var frames: map<MessageId, seq<byte>>
    var order: seq<MessageId>

    ghost predicate Valid()
      reads this
    {
      Distinct(order) && forall id :: id in order <==> id in frames
    }

    /** The collection as a queue. */
    ghost function Entries(): seq<Entry>
      requires Valid()
      reads this
    {
      EntriesOf(order, frames)
    }

    lemma Cardinality()
      requires Valid()
      ensures |frames| == |order|
    {
      CountDistinct(order);
      assert frames.Keys == Elements(order);
    }

    constructor (maximum: nat)
      ensures Valid() && Entries() == [] && this.maximum == maximum
    {
      this.maximum := maximum;
      frames := map[];
      order := [];
    }

    method Insert(id: MessageId, encoded: seq<byte>) returns (r: Result<(), LinkError>)
      requires Valid()
      modifies this
      ensures Valid()
      ensures r == if id in old(order) then Err(InvalidFrame)
                   else if |old(Entries())| >= maximum then Err(QueueFull) else Ok(())
      ensures Entries() == if r.Ok? then old(Entries()) + [Entry(id, encoded)] else old(Entries())
      ensures order == if r.Ok? then old(order) + [id] else old(order)
    {
      Cardinality();
      if id in frames {
        return Err(InvalidFrame);
      }
      if |frames| >= maximum {
        return Err(QueueFull);
      }
      frames := frames[id := encoded];
      order := order + [id];
      return Ok(());
    }

    method Acknowledge(id: MessageId) returns (removed: bool)
      requires Valid()
      modifies this
      ensures Valid()
      ensures Entries() == Without(old(Entries()), id)
      ensures removed <==> id in old(order)
    {
      RetainIsWithout(order, frames, frames - {id}, id);
      RetainKeepsDistinct(order, id);
      removed := id in frames;
      if removed {
        frames := frames - {id};
        order := Retain(order, id);
      } else {
        RetainAbsent(order, id);
        assert frames - {id} == frames;
      }
    }

    /** The encoded frames in sending order. */
    method Snapshot() returns (encoded: seq<seq<byte>>)
      requires Valid()
      ensures |encoded| == |Entries()| && forall i :: 0 <= i < |encoded| ==> encoded[i] == Entries()[i].bytes
    {
      encoded := [];
      for i := 0 to |order|
        invariant |encoded| == i && forall k :: 0 <= k < i ==> encoded[k] == Entries()[k].bytes
      {
        if order[i] in frames {
          encoded := encoded + [frames[order[i]]];
        }
      }
    }

    method IsEmpty() returns (empty: bool)
      requires Valid()
      ensures empty <==> Entries() == []
    {
      Cardinality();
      empty := |frames| == 0;
    }

    method IsFull() returns (full: bool)
      requires Valid()
      ensures full <==> |Entries()| >= maximum
    {
      Cardinality();
      full := |frames| >= maximum;
    }

    method FreeSlots() returns (slots: nat)
      requires Valid()
      ensures slots == if |Entries()| < maximum then maximum - |Entries()| else 0
    {
      Cardinality();
      slots := if |frames| < maximum then maximum - |frames| else 0;
    }
  }

  function Elements(ids: seq<MessageId>): set<MessageId> { set id | id in ids }

  lemma {:induction false} CountDistinct(ids: seq<MessageId>)
    requires Distinct(ids)
    ensures |Elements(ids)| == |ids|
  {
    if ids != [] {
      var front := ids[..|ids| - 1];
      var last := ids[|ids| - 1];
      CountDistinct(front);
      assert last !in front;
      assert Elements(ids) == Elements(front) + {last};
    }
  }

  /** Identifiers acquired most recently: a queue of bounded length and the same identifiers as a set. */
  class DedupWindow {
    const maximum: nat
    var order: seq<MessageId>
    var ids: set<MessageId>

    ghost predicate Valid()
      reads this
    {
      Distinct(order) && |order| <= maximum && ids == Elements(order)
    }

    constructor (maximum: nat)
      ensures Valid() && order == [] && this.maximum == maximum
    {
      this.maximum := maximum;
      order := [];
      ids := {};
    }

    method Contains(id: MessageId) returns (known: bool)
      requires Valid()
      ensures known <==> id in order
    {
      known := id in ids;
    }

    method Insert(id: MessageId) returns (r: Result<(), LinkError>)
      requires Valid()
      modifies this
      ensures Valid()
      ensures match Acquire(old(order), id, maximum)
              case None => r == Err(QueueFull) && order == old(order)
              case Some(window) => r == Ok(()) && order == window
    {
      CountDistinct(order);
      if maximum == 0 {
        return Err(QueueFull);
      }
      if id in ids {
        return Ok(());
      }
      if |ids| == maximum && |order| > 0 {
        ids := ids - {order[0]};
        order := order[1..];
      }
      order := order + [id];
      ids := ids + {id};
      return Ok(());
    }
  }
}
