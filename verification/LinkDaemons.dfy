/** The link state of the two daemons as objects, and their reactions to the events of a session
    on encoded frames, each proved to be the reaction that `LinkProtocol` gives. */
module LinkDaemons {
  import opened Bytes
  import opened Types
  import opened LinkProtocol
  import opened LinkCodec
  import opened LinkQueues

  /** Every entry holds the encoding of a frame with its own identifier. */
  predicate Faithful(entries: seq<Entry>) {
    forall e :: e in entries ==> Decode(e.bytes).Ok? && Decode(e.bytes).value.id == e.id
  }

  function FramesOf(entries: seq<Entry>): (frames: seq<Frame>)
    requires Faithful(entries)
    ensures |frames| == |entries|
    ensures forall i :: 0 <= i < |frames| ==> Decode(entries[i].bytes) == Ok(frames[i])
  {
    seq(|entries|, i requires 0 <= i < |entries| => Decode(entries[i].bytes).value)
  }

  predicate Encodings(encoded: seq<seq<byte>>, frames: seq<Frame>) {
    |encoded| == |frames| && forall i :: 0 <= i < |frames| ==> Decode(encoded[i]) == Ok(frames[i])
  }

  lemma FramesSplit(entries: seq<Entry>)
    requires entries != [] && Faithful(entries)
    ensures Faithful(entries[1..]) && FramesOf(entries) == [Decode(entries[0].bytes).value] + FramesOf(entries[1..])
  {
    hide Decode;
  }

  lemma {:induction false} WithoutIsAcknowledge(entries: seq<Entry>, id: MessageId)
    requires Faithful(entries)
    ensures Faithful(Without(entries, id))
    ensures FramesOf(Without(entries, id)) == Acknowledge(FramesOf(entries), id)
  {
    hide Decode;
    if entries == [] {
    } else {
      FramesSplit(entries);
      assert FramesOf(entries)[1..] == FramesOf(entries[1..]);
      WithoutIsAcknowledge(entries[1..], id);
      var less := Without(entries, id);
      if entries[0].id != id {
        assert less == [entries[0]] + Without(entries[1..], id) && less[1..] == Without(entries[1..], id);
        FramesSplit(less);
      }
    }
  }

  lemma AppendEntry(entries: seq<Entry>, f: Frame, bytes: seq<byte>)
    requires Faithful(entries) && Encode(f) == Ok(bytes)
    ensures Faithful(entries + [Entry(f.id, bytes)])
    ensures FramesOf(entries + [Entry(f.id, bytes)]) == FramesOf(entries) + [f]
  {
    DecodeInvertsEncode(f, bytes);
  }

  method EncodeAck(id: MessageId) returns (bytes: seq<byte>)
    ensures Decode(bytes) == Ok(AckOf(id))
  {
    DecodeInvertsEncode(AckOf(id), Encode(AckOf(id)).value);
    bytes := Encode(AckOf(id)).value;
  }

  class BrokerLink {
    const pending: PendingFrames
    const acquired: DedupWindow
    ghost const config: Config

    ghost predicate Valid()
      reads this, pending, acquired
    {
      && pending.Valid() && acquired.Valid() && Faithful(pending.Entries())
      && pending.maximum == config.brokerPending && acquired.maximum == config.brokerDedup
    }

    ghost function State(): BrokerState
      requires Valid()
      reads this, pending, acquired
    {
      BrokerState(FramesOf(pending.Entries()), acquired.order)
    }

    constructor (c: Config)
      ensures Valid() && config == c && State() == START.broker && fresh(pending) && fresh(acquired)
    {
      pending := new PendingFrames(c.brokerPending);
      acquired := new DedupWindow(c.brokerDedup);
      config := c;
    }

    /** What the broker writes when a session starts and whenever the retry timer fires. */
    method Resend() returns (sent: seq<seq<byte>>)
      requires Valid()
      ensures Encodings(sent, State().pending)
    {
      sent := pending.Snapshot();
    }

    /** The branch that takes a request from the router, under its guard. */
    method TakeRequest(id: MessageId, request: seq<byte>) returns (sent: seq<seq<byte>>)
      requires Valid() && State().pending == [] && config.brokerPending > 0
      modifies pending
      ensures Valid()
      ensures var f := Frame(Request, id, request);
        if |request| <= MAX_FRAME_LEN
        then State() == old(State()).(pending := [f]) && Encodings(sent, [f])
        else State() == old(State()) && sent == []
    {
      var f := Frame(Request, id, request);
      var encoded := Encode(f);
      if encoded.Err? {
        return [];
      }
      hide Header, Decode;
      assert pending.Entries() == [] && pending.order == [];
      AppendEntry([], f, encoded.value);
      assert [] + [Entry(id, encoded.value)] == [Entry(id, encoded.value)] && FramesOf([]) + [f] == [f];
      var inserted := pending.Insert(id, encoded.value);
      return [encoded.value];
    }

    /** `accepts` is the verdict of the router, should it be asked; `routed` is what it was given
        and accepted. */
    method Receive(bytes: seq<byte>, accepts: bool)
      returns (sent: seq<seq<byte>>, goesOn: bool, routed: Option<seq<byte>>)
      requires Valid()
      modifies pending, acquired
      ensures Valid()
      ensures Decode(bytes).Err? ==> State() == old(State()) && sent == [] && !goesOn && routed == None
      ensures Decode(bytes).Ok? ==>
        var r := BrokerReact(config, old(State()), Decode(bytes).value, accepts);
        && State() == r.state && Encodings(sent, r.sent) && goesOn == r.goesOn
        && routed == (if r.routed.Some? then Some(r.routed.value.payload) else None)
    {
      sent, goesOn, routed := [], false, None;
      var decoded := Decode(bytes);
      if decoded.Err? {
        return;
      }
      var frame := decoded.value;
      if frame.kind == Ack {
        WithoutIsAcknowledge(pending.Entries(), frame.id);
        var removed := pending.Acknowledge(frame.id);
        goesOn := true;
      } else if frame.kind == Delivery {
        var known := acquired.Contains(frame.id);
        if known {
          var ack := EncodeAck(frame.id);
          return [ack], true, None;
        }
        if !accepts {
          return;
        }
        routed := Some(frame.payload);
        var inserted := acquired.Insert(frame.id);
        if inserted.Err? {
          return;
        }
        var ack := EncodeAck(frame.id);
        sent, goesOn := [ack], true;
      }
    }
  }

  class CaLink {
    const pending: PendingFrames
    const acquired: DedupWindow
    var current: Option<MessageId>
    ghost const config: Config

    ghost predicate Valid()
      reads this, pending, acquired
    {
      && pending.Valid() && acquired.Valid() && Faithful(pending.Entries())
      && pending.maximum == config.caPending && acquired.maximum == config.caDedup
    }

    ghost function State(): CaState
      requires Valid()
      reads this, pending, acquired
    {
      CaState(FramesOf(pending.Entries()), acquired.order, current)
    }

    /** `None` is the start-up error of a pending limit below the subscription limit. */
    static method Open(c: Config) returns (link: CaLink?)
      ensures link == null <==> !c.Valid()
      ensures link != null ==> fresh(link) && link.Valid() && link.config == c && link.State() == START.ca
    {
      if c.caPending < c.maxGroup {
        return null;
      }
      link := new CaLink(c);
    }

    constructor (c: Config)
      ensures Valid() && config == c && State() == START.ca && fresh(pending) && fresh(acquired)
    {
      pending := new PendingFrames(c.caPending);
      acquired := new DedupWindow(c.caDedup);
      current := None;
      config := c;
    }

    /** What the CA writes when a session starts and whenever the retry timer fires. */
    method Resend() returns (sent: seq<seq<byte>>)
      requires Valid()
      ensures Encodings(sent, State().pending)
    {
      sent := pending.Snapshot();
    }

    /** `outcome` is what the engine answers, should it be asked, with fresh identifiers. */
    method Receive(bytes: seq<byte>, outcome: Outcome)
      returns (sent: seq<seq<byte>>, goesOn: bool, processes: bool, halts: bool)
      requires Valid() && Sendable(GroupOf(outcome))
      requires forall f :: f in GroupOf(outcome) ==> f.id !in pending.order
      modifies this, pending, acquired
      ensures Valid()
      ensures Decode(bytes).Err? ==> State() == old(State()) && sent == [] && !goesOn && !processes && !halts
      ensures Decode(bytes).Ok? ==>
        var r := CaReact(config, old(State()), Decode(bytes).value, outcome);
        && State() == r.state && Encodings(sent, r.sent)
        && goesOn == r.goesOn && processes == r.processes && halts == r.halts
    {
      sent, goesOn, processes, halts := [], false, false, false;
      var decoded := Decode(bytes);
      if decoded.Err? {
        return;
      }
      var frame := decoded.value;
      if frame.kind == Ack {
        sent := Acknowledged(frame);
        goesOn := true;
      } else if frame.kind == Request {
        sent, goesOn, processes, halts := Requested(frame, outcome);
      }
    }

    /** The branch of an Ack. */
    method Acknowledged(frame: Frame) returns (sent: seq<seq<byte>>)
      requires Valid() && frame.kind == Ack
      modifies this, pending
      ensures Valid()
      ensures var r := CaReact(config, old(State()), frame, Rejected); State() == r.state && Encodings(sent, r.sent)
    {
      sent := [];
      WithoutIsAcknowledge(pending.Entries(), frame.id);
      var removed := pending.Acknowledge(frame.id);
      var empty := pending.IsEmpty();
      if empty && current.Some? {
        var ack := EncodeAck(current.value);
        current := None;
        sent := [ack];
      }
    }

    /** The three branches of a request, in their order. */
    method Requested(frame: Frame, outcome: Outcome)
      returns (sent: seq<seq<byte>>, goesOn: bool, processes: bool, halts: bool)
      requires Valid() && frame.kind == Request && Sendable(GroupOf(outcome))
      requires forall f :: f in GroupOf(outcome) ==> f.id !in pending.order
      modifies this, pending, acquired
      ensures Valid()
      ensures var r := CaReact(config, old(State()), frame, outcome);
        && State() == r.state && Encodings(sent, r.sent)
        && goesOn == r.goesOn && processes == r.processes && halts == r.halts
    {
      sent, goesOn, processes, halts := [], false, false, false;
      if current == Some(frame.id) {
        goesOn := true;
        return;
      }
      var known := acquired.Contains(frame.id);
      if known {
        var ack := EncodeAck(frame.id);
        sent, goesOn := [ack], true;
      } else if current == None {
        processes := true;
        sent, goesOn, halts := Process(frame, outcome);
      }
    }

    /** The branch of a request that the engine has not seen. */
    method Process(frame: Frame, outcome: Outcome) returns (sent: seq<seq<byte>>, goesOn: bool, halts: bool)
      requires Valid() && Sendable(GroupOf(outcome)) && current == None && frame.id !in acquired.order
      requires forall f :: f in GroupOf(outcome) ==> f.id !in pending.order
      modifies this, pending, acquired
      ensures Valid()
      ensures var r := CaProcess(config, old(State()), frame, outcome);
        State() == r.state && Encodings(sent, r.sent) && goesOn == r.goesOn && halts == r.halts
    {
      var group := GroupOf(outcome);
      var free := pending.FreeSlots();
      if outcome.Deliveries? && |group| > free {
        return [], false, false;
      }
      var encodings := Enqueue(group);
      var inserted := acquired.Insert(frame.id);
      if inserted.Err? {
        return [], false, true;
      }
      if group == [] {
        var ack := EncodeAck(frame.id);
        return [ack], true, false;
      }
      current := Some(frame.id);
      return encodings, true, false;
    }

    method EnqueueOne(f: Frame) returns (encoded: seq<byte>)
      requires Valid() && f.kind == Delivery && |f.payload| <= MAX_FRAME_LEN
      requires |State().pending| < config.caPending && f.id !in pending.order
      modifies pending
      ensures Valid() && State() == old(State()).(pending := old(State()).pending + [f])
      ensures Decode(encoded) == Ok(f) && pending.order == old(pending.order) + [f.id]
    {
      encoded := Encode(f).value;
      DecodeInvertsEncode(f, encoded);
      AppendEntry(pending.Entries(), f, encoded);
      var inserted := pending.Insert(f.id, encoded);
    }

    /** Acquires the deliveries of a group one by one. */
    method Enqueue(group: seq<Frame>) returns (encodings: seq<seq<byte>>)
      requires Valid() && Sendable(group) && |group| <= Remaining(State().pending, config.caPending)
      requires forall f :: f in group ==> f.id !in pending.order
      modifies pending
      ensures Valid() && State() == old(State()).(pending := old(State()).pending + group)
      ensures Encodings(encodings, group)
    {
      encodings := [];
      ghost var frames := State().pending;
      for i := 0 to |group|
        invariant Valid() && FramesOf(pending.Entries()) == frames + group[..i]
        invariant NoneHeld(pending.order, group, i)
        invariant Encodings(encodings, group[..i])
      {
        StillNotHeld(pending.order, group, i);
        var encoded := EnqueueOne(group[i]);
        OneMore(frames, group, i, encodings, encoded);
        encodings := encodings + [encoded];
      }
      assert frames + group[..|group|] == frames + group;
    }
  }

  lemma OneMore(frames: seq<Frame>, group: seq<Frame>, i: nat, encodings: seq<seq<byte>>, encoded: seq<byte>)
    requires i < |group| && Encodings(encodings, group[..i]) && Decode(encoded) == Ok(group[i])
    ensures frames + group[..i] + [group[i]] == frames + group[..i + 1]
    ensures Encodings(encodings + [encoded], group[..i + 1])
  {
  }

  predicate NoneHeld(ids: seq<MessageId>, group: seq<Frame>, i: nat) {
    forall k :: i <= k < |group| ==> group[k].id !in ids
  }

  lemma StillNotHeld(ids: seq<MessageId>, group: seq<Frame>, i: nat)
    requires DistinctIds(group) && i < |group| && NoneHeld(ids, group, i)
    ensures group[i] in group && group[i].id !in ids && NoneHeld(ids + [group[i].id], group, i + 1)
  {
    forall k | i < k < |group| ensures group[k].id != group[i].id {
      assert !SameId(group, i, k);
    }
  }

  /** Deliveries with distinct identifiers that fit a link frame. */
  predicate Sendable(group: seq<Frame>) {
    DistinctIds(group) && forall f :: f in group ==> f.kind == Delivery && |f.payload| <= MAX_FRAME_LEN
  }
}
