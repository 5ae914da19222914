/** The Broker--CA link: the reaction of each daemon to one event, and the transition system
    made of both daemons, the two FIFO directions of the current TCP session, and the history of
    what was requested, processed, generated and routed. */
module LinkProtocol {
  import opened Bytes
  import opened Types

  type MessageId = u128

  datatype FrameKind = Request | Delivery | Ack | AuthChallenge | AuthResponse | AuthOk

  datatype Frame = Frame(kind: FrameKind, id: MessageId, payload: seq<byte>)

  function AckOf(id: MessageId): Frame { Frame(Ack, id, []) }

  /** `brokerPending` and `brokerDedup` are `ca_queue_depth` and `ca_dedup_depth` of brokerd;
      `caPending` and `caDedup` are `broker_pending_deliveries` and `broker_dedup_entries` of cad;
      `maxGroup` is the subscription limit of the CA store, which bounds one delivery group. */
  datatype Config = Config(brokerPending: usize, brokerDedup: usize, caPending: usize, caDedup: usize, maxGroup: usize)
  {
    /** The start-up check of cad. */
    predicate Valid() { maxGroup <= caPending }
  }

  /** Sent but unacknowledged frames in sending order, and the identifiers acquired, oldest first. */
  datatype BrokerState = BrokerState(pending: seq<Frame>, acquired: seq<MessageId>)

  datatype CaState = CaState(pending: seq<Frame>, acquired: seq<MessageId>, current: Option<MessageId>)

  function Acknowledge(pending: seq<Frame>, id: MessageId): seq<Frame> {
    if pending == [] then []
    else if pending[0].id == id then Acknowledge(pending[1..], id)
    else [pending[0]] + Acknowledge(pending[1..], id)
  }

  /** Free slots of a pending collection. */
  function Remaining(pending: seq<Frame>, maximum: nat): nat {
    if |pending| < maximum then maximum - |pending| else 0
  }

  /** The window after acquiring `id`, or `None` when the window holds nothing at all. */
  function Acquire(window: seq<MessageId>, id: MessageId, maximum: nat): Option<seq<MessageId>> {
    if maximum == 0 then None
    else if id in window then Some(window)
    else if |window| == maximum then Some(window[1..] + [id])
    else Some(window + [id])
  }

  /** What a daemon does with one received frame: its new state, the frames it writes, and
      whether the session goes on. `routed` is the delivery handed to the router, if any. */
  datatype BrokerReaction = BrokerReaction(state: BrokerState, sent: seq<Frame>, goesOn: bool, routed: Option<Frame>)

  /** `accepts` is the verdict of the router on this delivery, if it is asked. */
  function BrokerReact(c: Config, s: BrokerState, f: Frame, accepts: bool): BrokerReaction {
    match f.kind
    case Ack => BrokerReaction(s.(pending := Acknowledge(s.pending, f.id)), [], true, None)
    case Delivery =>
      if f.id in s.acquired then BrokerReaction(s, [AckOf(f.id)], true, None)
      else if !accepts then BrokerReaction(s, [], false, None)
      else (match Acquire(s.acquired, f.id, c.brokerDedup)
            case None => BrokerReaction(s, [], false, Some(f))
            case Some(window) => BrokerReaction(s.(acquired := window), [AckOf(f.id)], true, Some(f)))
    case _ => BrokerReaction(s, [], false, None)
  }

  /** Result of one call of the CA engine; deliveries carry their fresh link identifiers. */
  datatype Outcome = Accepted | Deliveries(group: seq<Frame>) | Rejected

  function GroupOf(outcome: Outcome): seq<Frame> {
    if outcome.Deliveries? then outcome.group else []
  }

  /** `halts` is an error that ends the cad process; `processes` says that the engine was called;
      `overflows` is the QueueFull branch, which forgets an already processed request. */
  datatype CaReaction =
    CaReaction(state: CaState, sent: seq<Frame>, goesOn: bool, processes: bool, halts: bool, overflows: bool)

  function CaReact(c: Config, s: CaState, f: Frame, outcome: Outcome): CaReaction {
    match f.kind
    case Ack =>
      var rest := Acknowledge(s.pending, f.id);
      if rest == [] && s.current.Some? then
        CaReaction(s.(pending := rest, current := None), [AckOf(s.current.value)], true, false, false, false)
      else CaReaction(s.(pending := rest), [], true, false, false, false)
    case Request =>
      if s.current == Some(f.id) then CaReaction(s, [], true, false, false, false)
      else if f.id in s.acquired then CaReaction(s, [AckOf(f.id)], true, false, false, false)
      else if s.current.Some? then CaReaction(s, [], false, false, false, false)
      else CaProcess(c, s, f, outcome)
    case _ => CaReaction(s, [], false, false, false, false)
  }

  function CaProcess(c: Config, s: CaState, f: Frame, outcome: Outcome): CaReaction {
    var group := GroupOf(outcome);
    if outcome.Deliveries? && |group| > Remaining(s.pending, c.caPending)
      then CaReaction(s, [], false, true, false, true)
    else
      match Acquire(s.acquired, f.id, c.caDedup)
      case None => CaReaction(s.(pending := s.pending + group), [], false, true, true, false)
      case Some(window) =>
        if group == [] then CaReaction(s.(acquired := window), [AckOf(f.id)], true, true, false, false)
        else CaReaction(CaState(s.pending + group, window, Some(f.id)), group, true, true, false, false)
  }

  /** History of the requests: `dequeued` were taken from the router, `processed` were given to
      the engine, `generated` are all deliveries in order, and `ends[k]` says how many deliveries
      existed once request `k` had been processed. */
  datatype Log = Log(dequeued: seq<Frame>, processed: seq<Frame>, generated: seq<Frame>, ends: seq<nat>)

  /** `toCa` and `toBroker` are the unread frames of the current session. `joinable` holds while
      the CA has opened a session that the broker has not entered yet. `routed` is the history of
      the deliveries that the router accepted. */
  datatype System = System(
    broker: BrokerState, ca: CaState,
    brokerOpen: bool, caOpen: bool, joinable: bool, caHalted: bool, overflowed: bool,
    toCa: seq<Frame>, toBroker: seq<Frame>,
    log: Log, routed: seq<Frame>)

  const START: System :=
    System(BrokerState([], []), CaState([], [], None), false, false, false, false, false, [], [], Log([], [], [], []),
      [])

  datatype Action =
    | CaOpen
    | BrokerJoin
    | Dequeue(id: MessageId, payload: seq<byte>)
    | BrokerReceive(accepts: bool)
    | BrokerRetry
    | BrokerClose
    | CaReceive(outcome: Outcome)
    | CaRetry
    | CaClose

  predicate Fresh(s: System, id: MessageId) {
    (forall f :: f in s.log.dequeued ==> f.id != id) && (forall f :: f in s.log.generated ==> f.id != id)
  }

  predicate SameId(frames: seq<Frame>, i: nat, j: nat) {
    i < |frames| && j < |frames| && frames[i].id == frames[j].id
  }

  predicate DistinctIds(frames: seq<Frame>) {
    forall i: nat, j: nat :: i < j < |frames| ==> !SameId(frames, i, j)
  }

  predicate FreshGroup(c: Config, s: System, group: seq<Frame>) {
    && |group| <= c.maxGroup
    && DistinctIds(group)
    && forall f :: f in group ==> f.kind == Delivery && Fresh(s, f.id)
  }

  predicate Enabled(c: Config, s: System, a: Action) {
    match a
    case CaOpen => !s.caOpen && !s.caHalted && !s.brokerOpen
    case BrokerJoin => s.joinable && !s.brokerOpen
    case Dequeue(id, payload) =>
      s.brokerOpen && s.broker.pending == [] && c.brokerPending > 0 && Fresh(s, id) && |payload| <= MAX_FRAME_LEN
    case BrokerReceive(_) => s.brokerOpen && s.toBroker != []
    case BrokerRetry => s.brokerOpen && s.broker.pending != []
    case BrokerClose => s.brokerOpen
    case CaReceive(outcome) => s.caOpen && s.toCa != [] && FreshGroup(c, s, GroupOf(outcome))
    case CaRetry => s.caOpen && s.ca.pending != []
    case CaClose => s.caOpen
  }

  function Step(c: Config, s: System, a: Action): System
    requires Enabled(c, s, a)
  {
    match a
    case CaOpen => s.(caOpen := true, joinable := true, toCa := [], toBroker := s.ca.pending)
    case BrokerJoin => s.(brokerOpen := true, joinable := false, toCa := s.toCa + s.broker.pending)
    case Dequeue(id, payload) =>
      var f := Frame(Request, id, payload);
      s.(broker := s.broker.(pending := [f]), toCa := s.toCa + [f], log := s.log.(dequeued := s.log.dequeued + [f]))
    case BrokerReceive(accepts) => AfterBroker(s, BrokerReact(c, s.broker, s.toBroker[0], accepts))
    case BrokerRetry => s.(toCa := s.toCa + s.broker.pending)
    case BrokerClose => CloseBroker(s)
    case CaReceive(outcome) => AfterCa(s, s.toCa[0], GroupOf(outcome), CaReact(c, s.ca, s.toCa[0], outcome))
    case CaRetry => s.(toBroker := s.toBroker + s.ca.pending)
    case CaClose => CloseCa(s)
  }

  /** Nobody reads what was in flight towards an end that has closed. */
  function CloseBroker(s: System): System { s.(brokerOpen := false, toBroker := []) }

  function CloseCa(s: System): System { s.(caOpen := false, toCa := []) }

  function AfterBroker(s: System, r: BrokerReaction): System
    requires s.toBroker != []
  {
    var next := s.(broker := r.state, toBroker := s.toBroker[1..], toCa := s.toCa + r.sent,
                   routed := if r.routed.Some? then s.routed + [r.routed.value] else s.routed);
    if r.goesOn then next else CloseBroker(next)
  }

  function AfterCa(s: System, f: Frame, group: seq<Frame>, r: CaReaction): System
    requires s.toCa != []
  {
    var next := s.(ca := r.state, toCa := s.toCa[1..], toBroker := s.toBroker + r.sent,
                   caHalted := s.caHalted || r.halts, overflowed := s.overflowed || r.overflows);
    var recorded := if !r.processes then next
                    else next.(log := Processed(s.log, f, group));
    if r.goesOn then recorded else CloseCa(recorded)
  }

  function Processed(log: Log, f: Frame, group: seq<Frame>): Log {
    log.(processed := log.processed + [f], generated := log.generated + group,
         ends := log.ends + [|log.generated| + |group|])
  }

  /** A run is the list of its actions; every state reached by one is a reachable state. */
  predicate Runs(c: Config, s: System, actions: seq<Action>)
    decreases |actions|
  {
    actions != [] ==> Enabled(c, s, actions[0]) && Runs(c, Step(c, s, actions[0]), actions[1..])
  }

  function Outcomes(c: Config, s: System, actions: seq<Action>): System
    requires Runs(c, s, actions)
    decreases |actions|
  {
    if actions == [] then s else Outcomes(c, Step(c, s, actions[0]), actions[1..])
  }
}
