# Model of the publish/subscribe back end

This project models the back end of SecurePubSub, in which Agents send signed, encrypted requests
through a broker to a Certificate Authority (CA), and the CA answers publications with sealed
deliveries that the broker routes to the subscribers. Cryptography, sockets and the file system are
ideal. Five parts are modelled, and connected to the whole path of a request and its answers.

- **The Broker--CA link** (`LinkProtocol`, `LinkInvariant`, `LinkSafety`, `LinkOrder`,
  `LinkTheorems`, `LinkReactions`, `LinkCodec`, `LinkQueues`, `LinkDaemons`). Both daemons, the two FIFO directions
  of a session and the history of requests and deliveries form a transition system; the ends close
  independently. The objects of the daemons are proved to react as that system does.
- **The CA engine and its store** (`Engine`, `EngineTheorems`, `LostClaims`, `CertificateAuthority`,
  `Store`, `StoreProofs`, `PersistentStore`, `Claims`, `Publishers`, `PublisherTheorems`, `Snapshot`,
  `SnapshotCodec`, `SnapshotTheorems`, `Replay`, `EnvironmentPolicy`, `PolicyConfiguration`,
  `ConfigurationTheorems`, `StaticPolicy`, `CaRuns`, `RequestTheorems`, `Provenance`). `Engine.Process` says what one request is answered and what it changes,
  whichever of its commits fail; the class `CertificateAuthority` computes it over the bytes that the
  store holds. `Publishers` has publications run concurrently, and `CaRuns` has the CA start, serve,
  reload, crash and start again. `RequestTheorems` says of the bytes, the signature and the clock
  alone what becomes of a request, and `Provenance` traces what the CA knows over whole runs back to
  signed requests. `ConfigurationTheorems` says of the configuration alone what the policy decides.
- **The router** (`RouterLines`, `BrokerRouter`): the deliveries waiting for an Agent, on their way
  between offline queue, captured queue and channel.
- **The operation codec and the predicate evaluator** (`Bytes`, `Parsing`, `Payload`,
  `PayloadCursor`, `PayloadWriter`, `PayloadSizes`, `Evaluation`, `Envelope`). `WireFormats` writes
  the bytes of operations and snapshots out, and `SnapshotDecoding` says which are read.
- **Two replay caches** (`Replay`, `ReplayCaches`), proved to be the same mark.

`Deployment` joins the engine to the link. `EndToEnd` and `EndToEndTheorems` join engine, link and
router: the engine decides what the CA answers, and the router what the broker accepts.

Each class is proved against a function or transition of a specification module; the theorems are
about the specification. Sixteen-byte identifiers are numbers, which `Bytes.ByteOrderIsNumericOrder`
justifies. Lengths are unbounded naturals where the source has `usize` and no step can overflow;
saturating and checked additions are written out.

Where the code departs from its documentation, or from what a caller would expect, the code is modelled
and the exact condition is proved:

- The security notes call retransmitted link frames deduplicated. The code guarantees it exactly if
  `ca_dedup_depth` of the broker is at least the largest delivery group, which no start-up check
  enforces across the two processes (`LinkTheorems.DepthIsExact`).
  The default configuration does not meet the condition (`Deployment.DefaultsRouteTwice`), and the
  engine does answer groups of the largest size (`LostClaims.GroupsCanBeFull`).
- Offline queues are documented as FIFO per Agent. `route_ca_delivery` unlocks the router before it
  stores. The order holds, and can be relied on, exactly in the runs in which no Agent registers
  while a packet for it is on its way to the store, or nothing can be stored at all
  (`RouterLines.OrderFromStartIsExact`).
- Accepted marks of a session are a time to live apart if the clock never goes back. If it does, this
  fails exactly in caches that hold more than one session (`Replay.SpacingIsExact`);
  `Replay.ReplayIsExact` says for every clock which calls are rejected.
- A publication whose later claim cannot be committed ends in an error, and the one-shots that it
  claimed before are gone without a delivery. Some failing commits do this exactly if
  the publication reaches two one-shots (`LostClaims.LossIsExact`).
- An allow-list started after an approval makes an approved environment invalid exactly if the
  approved value is another one (`EnvironmentPolicy.FirstAllowListExcludes`); the CA daemon registers
  in the order that avoids it.
- `put_subscription` accepts the empty handler, which only the engine refuses. The snapshot that it
  then commits cannot be decoded any more, and every other one can
  (`SnapshotTheorems.CommittedIsReadable`).
- Claims leave empty buckets behind which a snapshot drops; round trips hold without them.

## Model

| member | source | states |
|---|---|---|
| LinkTheorems.DepthIsExact | implementations/rust/apps/brokerd/src/main.rs:333-342 | over all runs with any disconnections, half-closed sessions and retransmissions, the router accepts every delivery at most once if and only if the deduplication depth of the broker is at least the largest group |
| LinkTheorems.RoutedOnceAndInOrder | implementations/rust/apps/brokerd/src/main.rs:286-358 | if the depth covers a group, the accepted deliveries are in every run a duplicate-free prefix of those that the CA generated |
| LinkTheorems.ShallowWindowRepeats | implementations/rust/apps/brokerd/src/main.rs:329-342 | whenever the depth is smaller than the largest group, some run routes a delivery twice |
| LinkTheorems.AckMeansRouted | implementations/rust/apps/cad/src/main.rs:327-342 | an Ack of a request on its way to the broker, in whatever session and however often repeated, says that the router has accepted all deliveries of that request and of those before it |
| LinkTheorems.IdleBrokerHasEverything | implementations/rust/apps/brokerd/src/main.rs:308-325 | whenever the broker has no outstanding request, all requests it took have been processed, and the routed deliveries are those generated, in order if the depth suffices |
| LinkTheorems.ProcessedOnceAndInOrder | implementations/rust/apps/cad/src/main.rs:336-389 | the engine is given a prefix of the dequeued requests, each once, whatever the sizes of the deduplication windows |
| LinkTheorems.GroupsNeverOverflow | implementations/rust/apps/cad/src/main.rs:343-380 | `current_request` is set exactly while deliveries are pending, and with the start-up check the QueueFull branch is not reachable |
| LinkTheorems.EveryRunCanComplete | implementations/rust/apps/brokerd/src/main.rs:254-358 | no run gets stuck: from every reachable state some continuation acknowledges the outstanding request |
| LinkTheorems.ReachableIsSafe | implementations/rust/apps/cad/src/main.rs:289-400 | every reachable state of both daemons and both directions satisfies the inductive invariant, and the ordering invariant if the depth suffices |
| LinkSafety.StepIsSafe | implementations/rust/apps/cad/src/main.rs:305-400 | every step of either daemon, of a disconnection or of a new session keeps the invariant |
| LinkSafety.EngineSeesNextRequest | implementations/rust/apps/cad/src/main.rs:343-346 | a request that reaches the engine is the one dequeued last, and finds no pending delivery |
| LinkOrder.HeadIsNext | implementations/rust/apps/brokerd/src/main.rs:333-342 | the first unknown delivery in the channel is the next one generated |
| LinkOrder.DeliveryIsOrdered | implementations/rust/apps/brokerd/src/main.rs:333-342 | receiving a delivery keeps the order of channels, pending deliveries and routed history |
| LinkTheorems.StepIsOrdered | implementations/rust/apps/brokerd/src/main.rs:286-358 | with a sufficient depth every step keeps the ordering invariant |
| LinkReactions.BrokerReactionIsExact | implementations/rust/apps/brokerd/src/main.rs:326-349 | the router is asked about exactly the deliveries not remembered; the session goes on exactly after an Ack, a remembered delivery, or one that the router accepts and the window can hold, and exactly the last two are acknowledged; what is pending and remembered afterwards |
| LinkReactions.CaReactionIsExact | implementations/rust/apps/cad/src/main.rs:327-392 | when the engine is called, when the session goes on, when the process ends, which frames are written, and what is pending, remembered and being served afterwards, each by a condition on the state before and the answer |
| LinkReactions.OnlyItIsForgotten | implementations/rust/crates/infrastructure-link/src/lib.rs:221-228 | an acknowledgement removes the frame with its identifier and nothing else |
| LinkReactions.PendingIsSentAgain | implementations/rust/apps/brokerd/src/main.rs:295-302 | entering a session, and the retry timer, write what is not acknowledged, in order |
| LinkReactions.SessionsGoOn | implementations/rust/apps/brokerd/src/main.rs:286-358 | over all runs: the broker leaves a session exactly by closing it or on a delivery that its router refuses or that a window of size zero cannot hold, and the CA exactly by closing it or on a new request with such a window; no other branch that ends a session is reached |
| LinkQueues.PendingFrames.Insert | implementations/rust/crates/infrastructure-link/src/lib.rs:208-219 | known identifiers are refused first, then a full collection; otherwise the frame goes to the end of the queue |
| LinkQueues.PendingFrames.Acknowledge | implementations/rust/crates/infrastructure-link/src/lib.rs:221-228 | the frame leaves the queue, the others keep their order; the result says whether it was there |
| LinkQueues.PendingFrames.Snapshot | implementations/rust/crates/infrastructure-link/src/lib.rs:230-236 | all held frames in the order of sending |
| LinkQueues.PendingFrames.FreeSlots | implementations/rust/crates/infrastructure-link/src/lib.rs:253-255 | the saturating difference of limit and length of the queue, although the length is that of the map |
| LinkQueues.PendingFrames.IsEmpty | implementations/rust/crates/infrastructure-link/src/lib.rs:243-245 | the map answers for the queue |
| LinkQueues.PendingFrames.IsFull | implementations/rust/crates/infrastructure-link/src/lib.rs:248-250 | likewise for a full collection |
| LinkQueues.DedupWindow.Insert | implementations/rust/crates/infrastructure-link/src/lib.rs:281-297 | set and queue together behave as a window of the most recently acquired identifiers; a window of size zero refuses |
| LinkQueues.DedupWindow.Contains | implementations/rust/crates/infrastructure-link/src/lib.rs:276-278 | the set answers for the queue |
| LinkCodec.CodecIsCanonical | implementations/rust/crates/infrastructure-link/src/lib.rs:101-153 | a link frame encodes to some bytes if and only if these decode to it, errors included |
| LinkCodec.FormatIsExact | implementations/rust/crates/infrastructure-link/src/lib.rs:121-153 | which bytes are a frame, by magic, version, kind, zeros and length; which error any others give; and which bytes hold which field |
| LinkCodec.UnsendableIsExact | implementations/rust/crates/infrastructure-link/src/lib.rs:101-118 | which frames are not encoded, and with which error |
| LinkDaemons.BrokerLink.Receive | implementations/rust/apps/brokerd/src/main.rs:326-349 | on encoded bytes, the reaction of the broker to a frame is the one of the protocol model, with the same new state and the same frames written |
| LinkDaemons.BrokerLink.TakeRequest | implementations/rust/apps/brokerd/src/main.rs:308-325 | the guarded request branch holds exactly the new request and writes it; an oversized one is dropped |
| LinkDaemons.BrokerLink.Resend | implementations/rust/apps/brokerd/src/main.rs:295-302 | session start and retry timer write exactly what is pending, in order |
| LinkDaemons.CaLink.Receive | implementations/rust/apps/cad/src/main.rs:324-392 | on encoded bytes, the reaction of the CA to a frame is the one of the protocol model |
| LinkDaemons.CaLink.Requested | implementations/rust/apps/cad/src/main.rs:336-389 | current, known, new and other requests are told apart in this order |
| LinkDaemons.CaLink.Resend | implementations/rust/apps/cad/src/main.rs:305-314 | session start and retry timer write exactly what is pending, in order |
| LinkDaemons.CaLink.Process | implementations/rust/apps/cad/src/main.rs:343-389 | the branch that calls the engine: window, pending group, `current_request` and written frames are those of the model |
| LinkDaemons.CaLink.Acknowledged | implementations/rust/apps/cad/src/main.rs:328-335 | the Ack of the request is written exactly when the last delivery of its group is acknowledged |
| LinkDaemons.CaLink.Enqueue | implementations/rust/apps/cad/src/main.rs:358-366 | the group is appended in order, each delivery encoded under its own identifier |
| LinkDaemons.CaLink.Open | implementations/rust/apps/cad/src/main.rs:266-268 | the daemon does not start if the pending limit is below the subscription limit |
| Deployment.AnswersFitTheLink | implementations/rust/apps/cad/src/main.rs:266-268 | no answer of the engine exceeds the group size that the start-up check covers, and every sealed delivery fits a frame |
| Deployment.AnswerIsPublication | implementations/rust/crates/ca-core/src/lib.rs:952-1034 | only a signed publication is answered with deliveries, in the state with its session marked; what is published has the sender of the header, the stored attributes of that sender, and type, audience and value of the content |
| Deployment.DefaultsRouteTwice | implementations/rust/apps/brokerd/src/main.rs:55-70 | the default configuration starts, and admits runs in which the router accepts a delivery twice |
| EndToEndTheorems.StoreIsFold | implementations/rust/apps/cad/src/main.rs:343-389 | in every run of engine, link and router: the state of the CA is the fold of `Engine.Process` and of the reloads over requests that the broker took, each once and in order, and it is valid |
| EndToEndTheorems.AnswersReachTheirAgents | implementations/rust/apps/brokerd/src/main.rs:333-342 | in every such run, if the depth covers a group: what the line of an Agent has accepted are the first of the answers of that fold addressed to the Agent, in order, none twice |
| EndToEndTheorems.LinesAreInOrder | implementations/rust/crates/broker-core/src/lib.rs:249-313 | in every such run each Agent is sent what its line has accepted, in order and without gaps, but for what requeues cut off at the end |
| EndToEndTheorems.IdleIsComplete | implementations/rust/apps/brokerd/src/main.rs:308-325 | whenever the broker has no outstanding request, the CA has served every request taken and every line has accepted all answers addressed to its Agent |
| EndToEndTheorems.AnswersAreAdmitted | implementations/rust/apps/cad/src/main.rs:343-366 | under fresh identifiers the link accepts every answer of the engine |
| EndToEndTheorems.StepConnects | implementations/rust/apps/cad/src/main.rs:343-389 | each step keeps store, requests, generated deliveries and accepted packets tied to the history |
| RequestTheorems.OnlySignedRequestsCount | implementations/rust/crates/ca-core/src/lib.rs:866-895 | a request that is answered with success or changes anything is an envelope for the CA from an agent of the directory, and signed; an unsigned one is refused and changes nothing |
| RequestTheorems.RefusalsInOrder | implementations/rust/crates/ca-core/src/lib.rs:872-902 | malformed frames, wrong recipients and senders, responses, and missing or unsigned senders are refused in this order, each with its error and without a change |
| RequestTheorems.MarkDecides | implementations/rust/crates/ca-core/src/lib.rs:903-910 | an authentic request is refused as a replay if its session is marked until later than now, and refused without room or without a commit; otherwise its content is served in the state with the session marked until now plus the time to live, saturating |
| RequestTheorems.EnvironmentRequest | implementations/rust/crates/ca-core/src/lib.rs:912-933 | exactly when an environment request is accepted, with which error it is refused otherwise, and that it replaces the environment of its sender and nothing else |
| RequestTheorems.SubscriptionRequest | implementations/rust/crates/ca-core/src/lib.rs:934-951 | likewise for a subscription: it takes its slot if it is of the announced kind, has a handler, its sender has a valid environment and there is room; all others stay |
| RequestTheorems.PublicationRequest | implementations/rust/crates/ca-core/src/lib.rs:952-1034 | of the frame and its content: the answer goes, by recipient and handler, to exactly the claimable subscriptions of the requested type whose clauses the stored attributes of the sender satisfy, whose subscriber satisfies the requested clauses, and which the policy authorises; each plaintext parses to the response with requested type, sender and requested value; exactly the one-shots among them are gone |
| RequestTheorems.AcceptanceIsExact | implementations/rust/crates/ca-core/src/lib.rs:866-1037 | for every frame, signature, clock and set of failing commits, under limits whose snapshots fit: the exact conditions under which the request succeeds, for each message type |
| RequestTheorems.EverythingIsRequested | implementations/rust/crates/ca-core/src/lib.rs:866-1037 | every new environment, subscription and mark is the one asked for in a signed request of its agent, and every delivery carries the value that its named publisher has asked to publish |
| Provenance.StateIsRequested | implementations/rust/apps/cad/src/main.rs:262-282 | over all runs of a CA that began without a file, with reloads, crashes and restarts: all that it knows, or its file holds, was asked for in requests that their agents have signed |
| Provenance.ServedWereSigned | implementations/rust/crates/ca-core/src/lib.rs:866-910 | in every such run, a frame that changes anything was signed by an agent then in the directory |
| Provenance.EverythingIsSigned | implementations/rust/apps/cad/src/main.rs:343-389 | in every run of engine, link and router: whatever was answered was published in a signed request of the named publisher, and whatever the CA knows was there at the start or asked for in a signed request |
| Provenance.AnsweredWereSigned | implementations/rust/crates/ca-core/src/lib.rs:866-910 | every request in the history of the CA that succeeded or changed anything was signed by an agent then in the directory |
| EngineTheorems.PublicationIsExact | implementations/rust/crates/ca-core/src/lib.rs:952-1034 | a publication that passes its checks succeeds exactly if the claim of every one-shot it reaches can be committed; then its deliveries go, in bucket order, to exactly the subscriptions reached, and exactly the one-shots among them are gone; nothing else changes |
| EngineTheorems.FailureIsExact | implementations/rust/crates/ca-core/src/lib.rs:969-1034 | a publication that fails was stopped by the first claim that could not be committed, with the error of that commit; exactly the one-shots reached before it are gone |
| LostClaims.LossIsExact | implementations/rust/crates/ca-core/src/lib.rs:1022-1034 | for limits whose snapshots fit: some failing commits make a publication fail after consuming a one-shot if and only if it reaches two one-shots |
| LostClaims.SuccessIsExact | implementations/rust/crates/ca-core/src/lib.rs:1022-1034 | for such limits a publication succeeds if and only if the file system takes the commit of each of its claims |
| LostClaims.LossHappens | implementations/rust/crates/ca-core/src/lib.rs:1022-1034 | a valid state under the default limits in which one failing commit loses a delivery |
| LostClaims.GroupsCanBeFull | implementations/rust/crates/ca-core/src/lib.rs:969-1034 | some valid state answers with as many deliveries as the limits admit subscriptions |
| EngineTheorems.DeliveryHasItsSubscription | implementations/rust/crates/ca-core/src/lib.rs:1013-1031 | every delivery names the publisher and carries recipient and handler of a subscription that was there and is reached; its content parses back |
| EngineTheorems.DeliveriesStayInDomain | implementations/rust/crates/ca-core/src/lib.rs:1001-1011 | a recipient has the same CA approvals as the publisher for every isolated attribute and meets every requirement of the type, whatever predicates and environments say |
| EngineTheorems.ProcessKeeps | implementations/rust/crates/ca-core/src/lib.rs:866-1037 | no request, however formed and whichever of its commits fail, leaves a state that breaks the store invariant or holds data of an unknown agent |
| EngineTheorems.PublishKeeps | implementations/rust/crates/ca-core/src/lib.rs:952-1034 | consuming one-shots keeps the store invariant, wherever the publication ends |
| EngineTheorems.FailureHasNoOtherEffect | implementations/rust/crates/ca-core/src/lib.rs:866-1037 | a failed request changes neither keys nor environments, subscriptions only if it is a publication, and nothing at all if it is not authentic or its mark fails |
| EngineTheorems.RepetitionIsRejected | implementations/rust/crates/ca-core/src/lib.rs:903-903 | once its mark is committed at some time, a request repeated before that time plus the time to live, and before the last second of the clock, is rejected as a replay and changes nothing |
| EngineTheorems.EnvironmentTakesEffect | implementations/rust/crates/ca-core/src/lib.rs:912-933 | an accepted environment was validated, replaces exactly the environment of its sender, and changes nothing else |
| EngineTheorems.SubscriptionTakesEffect | implementations/rust/crates/ca-core/src/lib.rs:934-951 | an accepted subscription is present under its handler and kind, in place of the one of the same slot; the sender has a valid environment; all others stay |
| EngineTheorems.ReachedIs | implementations/rust/crates/ca-core/src/lib.rs:960-1012 | the recipients are a sorted selection of the bucket: exactly the entries reached |
| EngineTheorems.RemainingIs | implementations/rust/crates/ca-core/src/lib.rs:1325-1345 | what stays of a bucket is sorted and lacks exactly the one-shots reached |
| CertificateAuthority.CertificateAuthority.Process | implementations/rust/crates/ca-core/src/lib.rs:866-910 | the object over its store and policy returns the answer and reaches the state of `Engine.Process`, for every frame and every set of failing commits, and keeps its file in step; `RequestTheorems` says what that answer is |
| CertificateAuthority.CertificateAuthority.Perform | implementations/rust/crates/ca-core/src/lib.rs:911-1037 | dispatch by envelope type and operation gives answer and state of `Engine.Perform`, which `RequestTheorems` determines for each message type |
| CertificateAuthority.CertificateAuthority.Publish | implementations/rust/crates/ca-core/src/lib.rs:969-1034 | the loop of snapshot, match, seal and claim yields the deliveries and the state of the whole publication, and ends at the first claim that cannot be committed |
| CertificateAuthority.CertificateAuthority.Consider | implementations/rust/crates/ca-core/src/lib.rs:974-1024 | walking the bytes, one entry yields a delivery exactly if it is reached |
| CertificateAuthority.CertificateAuthority.SetEnvironment | implementations/rust/crates/ca-core/src/lib.rs:915-933 | validation before replacement; the refusals are those of policy, store and commit |
| CertificateAuthority.CertificateAuthority.Subscribe | implementations/rust/crates/ca-core/src/lib.rs:938-950 | no subscription without a valid stored environment; the refusals are those of store and commit |
| CertificateAuthority.CertificateAuthority.ValidateStoredEnvironment | implementations/rust/crates/ca-core/src/lib.rs:1039-1051 | absent and invalid environments are both unauthorised |
| CertificateAuthority.CertificateAuthority.StoredEnvironment | implementations/rust/crates/ca-core/src/lib.rs:958-965 | the stored bytes always parse to the environment of the agent |
| CertificateAuthority.StoredPredicate | implementations/rust/crates/ca-core/src/lib.rs:975-993 | a stored subscription always parses to the kind and type it is stored under |
| CertificateAuthority.MakeDelivery | implementations/rust/crates/ca-core/src/lib.rs:1064-1065 | the response of an accepted publication always encodes within a frame |
| LostClaims.RoomyCommits | implementations/rust/crates/ca-core/src/lib.rs:1192-1197 | for limits whose snapshots fit, a commit of a valid state fails only if the file system does |
| LostClaims.DefaultIsRoomy | implementations/rust/crates/ca-core/src/lib.rs:133-143 | the default limits are such limits |
| Claims.ClaimsAreConserved | implementations/rust/crates/ca-core/src/lib.rs:1325-1345 | under any interleaving of claims from snapshots, registrations, reconciliations and failing commits: claims of a one-shot plus its presence never exceed its registrations plus its initial presence |
| Claims.PresenceChanges | implementations/rust/crates/ca-core/src/lib.rs:1285-1345 | no single transaction makes a one-shot present without registering it, and a claim takes it away |
| PublisherTheorems.DeliveriesHaveClaims | implementations/rust/crates/ca-core/src/lib.rs:960-1034 | in every run of concurrent publications, registrations, reconciliations and failing commits: each delivery of each publication has a successful claim of its own, later than the check that found its subscription reached |
| PublisherTheorems.DeliveriesAreConserved | implementations/rust/crates/ca-core/src/lib.rs:960-1034 | in every such run the deliveries for a one-shot over all publications, plus its presence, never exceed its registrations plus its initial presence |
| CaRuns.RunsAreSound | implementations/rust/apps/cad/src/main.rs:262-282 | over all runs of starts, reloads, requests and crashes: while the CA runs its state is valid, belongs to its directory and is what the file holds |
| CaRuns.OpensAgain | implementations/rust/crates/ca-core/src/lib.rs:1173-1190 | whatever such a run has left in the file can be opened, and is valid |
| CaRuns.RestartLosesNothing | implementations/rust/crates/ca-core/src/lib.rs:1173-1233 | a CA that stops and starts with its directory goes on with every environment, subscription and replay entry, and with the same file |
| CaRuns.RunsRejectReplays | implementations/rust/crates/ca-core/src/lib.rs:1349-1360 | once a request is marked, every later request of its session is rejected as a replay through any requests, failing commits, reloads, crashes and restarts, until the clock has shown the expiry or the keys of the agent change |
| CaRuns.ChangeIsCommitted | implementations/rust/crates/ca-core/src/lib.rs:1192-1197 | what a request changes has been committed |
| StoreProofs.ReconcileIsExact | implementations/rust/crates/ca-core/src/lib.rs:1204-1233 | the directory becomes the configured one; agents with unchanged keys keep exactly their state, all others lose theirs; everything left belongs to an agent of the directory |
| StoreProofs.PutSubscriptionKeeps | implementations/rust/crates/ca-core/src/lib.rs:1285-1313 | registration keeps the invariant: sorted buckets of the right type and kind within the limit |
| StoreProofs.ClaimedKeeps | implementations/rust/crates/ca-core/src/lib.rs:1325-1345 | so does a claim |
| StoreProofs.PutEnvironmentKeeps | implementations/rust/crates/ca-core/src/lib.rs:1265-1281 | so does an environment update |
| StoreProofs.MarkSessionKeeps | implementations/rust/crates/ca-core/src/lib.rs:1349-1360 | so does a mark |
| StoreProofs.ProvisionKeeps | implementations/rust/crates/ca-core/src/lib.rs:1246-1257 | so does provisioning |
| StoreProofs.UpsertIs | implementations/rust/crates/ca-core/src/lib.rs:1300-1311 | the bucket stays strictly sorted by subscriber and handler; the entry of the slot is replaced, all others stay |
| StoreProofs.SortedUnique | implementations/rust/crates/ca-core/src/lib.rs:1311-1311 | a sorted bucket is determined by its entries, so sorting after a push is insertion |
| StoreProofs.CountUpdated | implementations/rust/crates/ca-core/src/lib.rs:1299-1299 | the total over all buckets changes by the change of one bucket |
| PersistentStore.PersistentStore.Reopen | implementations/rust/crates/ca-core/src/lib.rs:1173-1190 | a store opened again from its file holds what it held, without empty buckets |
| PersistentStore.PersistentStore.Open | implementations/rust/crates/ca-core/src/lib.rs:1173-1190 | no file starts empty; an oversized or undecodable one is an error |
| PersistentStore.PersistentStore.Commit | implementations/rust/crates/ca-core/src/lib.rs:1192-1197 | state and file change together or not at all |
| PersistentStore.PersistentStore.ReconcileAgents | implementations/rust/crates/ca-core/src/lib.rs:1204-1233 | too many agents are a capacity error, the CA or a repeated agent malformed; otherwise one commit makes the directory the configured one, agents with unchanged keys keep exactly their state and all others lose theirs, or nothing changes |
| PersistentStore.PersistentStore.PutSubscription | implementations/rust/crates/ca-core/src/lib.rs:1285-1313 | refused as malformed exactly if the bytes are not a subscription of its kind and type, for want of capacity exactly if its slot is not taken and the store is full; otherwise it takes its slot, all others stay, and one commit decides |
| PersistentStore.PersistentStore.Claim | implementations/rust/crates/ca-core/src/lib.rs:1325-1345 | presence decides; a one-shot, and nothing else, is gone once the commit succeeds, and a permanent subscription stays |
| PersistentStore.PersistentStore.SetEnvironment | implementations/rust/crates/ca-core/src/lib.rs:1265-1281 | refused as malformed exactly if the bytes are no environment, for want of capacity exactly if the agent has none and the store is full; otherwise one commit replaces it |
| PersistentStore.PersistentStore.CheckAndMark | implementations/rust/crates/ca-core/src/lib.rs:1349-1360 | the transaction of a mark; a rejected session leaves even expired entries in place |
| PersistentStore.PersistentStore.Provision | implementations/rust/crates/ca-core/src/lib.rs:1246-1257 | the CA is refused as malformed, a new agent in a full directory for want of capacity; otherwise one commit sets the keys |
| PersistentStore.PutInBucket | implementations/rust/crates/ca-core/src/lib.rs:1300-1311 | replacing in place, or pushing and sorting, is the upsert; a full store refuses only new slots |
| PersistentStore.Directory | implementations/rust/crates/ca-core/src/lib.rs:1208-1213 | the configured agents form a map unless one is the CA or repeats |
| SnapshotTheorems.SnapshotReloads | implementations/rust/crates/ca-core/src/lib.rs:1364-1480 | for every valid state, decoding its snapshot succeeds, consumes it exactly, and gives the state without its empty buckets |
| SnapshotTheorems.CommittedIsReadable | implementations/rust/crates/ca-core/src/lib.rs:1285-1313 | the snapshot committed by an accepted registration reloads if it names a handler, and is malformed otherwise |
| SnapshotTheorems.SectionIsRead | implementations/rust/crates/ca-core/src/lib.rs:1433-1469 | a section of stored subscriptions is read exactly if each of them names its handler |
| SnapshotTheorems.ReloadedIsValid | implementations/rust/crates/ca-core/src/lib.rs:1397-1480 | the reloaded state is valid and holds the same claimable subscriptions |
| SnapshotTheorems.SnapshotLength | implementations/rust/crates/ca-core/src/lib.rs:1109-1111 | a snapshot is bounded by the limits; with the default ones it has at most 4 372 504 bytes and a commit never refuses its size |
| SnapshotTheorems.FlattenedRegroups | implementations/rust/crates/ca-core/src/lib.rs:1460-1469 | pushing the flattened subscriptions by type restores the non-empty buckets in order |
| WireFormats.SnapshotFormat | implementations/rust/crates/ca-core/src/lib.rs:1364-1394 | the bytes of a snapshot: the magic, then agents, environments, subscriptions and marks, each section with its count before it and each number in its width |
| WireFormats.SectionsAreSorted | implementations/rust/crates/ca-core/src/lib.rs:1364-1394 | the sections hold every entry once, in ascending order of identity, of type, subscriber and handler, or of sender and session |
| SnapshotDecoding.DecodingIsExact | implementations/rust/crates/ca-core/src/lib.rs:1397-1481 | the decoder accepts exactly the bytes of sections within the limits that hold agents other than the CA, environments that parse, subscriptions that parse to their type and name a handler, and no agent, environment or mark twice, with nothing behind them; it reads their content, in whatever order the entries come |
| WireFormats.CommitIsExact | implementations/rust/crates/ca-core/src/lib.rs:1192-1197 | a commit succeeds exactly if the counts are below 2^32, the snapshot has at most 16777216 bytes, and the file system takes it; which error it gives otherwise |
| SnapshotCodec.EncodeState | implementations/rust/crates/ca-core/src/lib.rs:1364-1395 | the four sections in key order; an error exactly if a count exceeds 32 bits |
| SnapshotCodec.DecodeState | implementations/rust/crates/ca-core/src/lib.rs:1397-1480 | the cursor with its loops computes the decoder, with its errors |
| SnapshotCodec.ReadAgents | implementations/rust/crates/ca-core/src/lib.rs:1402-1419 | duplicates and the CA are refused |
| SnapshotCodec.ReadEnvironments | implementations/rust/crates/ca-core/src/lib.rs:1420-1432 | only parseable environments of distinct agents |
| SnapshotCodec.ReadSubscriptions | implementations/rust/crates/ca-core/src/lib.rs:1433-1469 | kind and type from the encoded operation, the empty handler refused |
| SnapshotCodec.ReadMarks | implementations/rust/crates/ca-core/src/lib.rs:1470-1478 | distinct sessions only |
| SortedMaps.ListingRebuilds | implementations/rust/crates/ca-core/src/lib.rs:1367-1371 | a map is rebuilt from its entries in key order |
| SortedMaps.ListingIs | implementations/rust/crates/ca-core/src/lib.rs:1367-1371 | iteration lists every entry once, by ascending key |
| Replay.ReplayIsExact | implementations/rust/crates/ca-core/src/lib.rs:276-292 | whatever the clock does, a call is rejected as a replay exactly if an earlier call of the session was accepted and every call since, this one included, came before its expiry |
| Replay.ReplaysLeaveNoTrace | implementations/rust/crates/ca-core/src/lib.rs:276-292 | deleting all rejected replays from a run changes no other result and no entry that is live later |
| Replay.ClockMatters | implementations/rust/crates/ca-core/src/lib.rs:282-282 | a cache with room for two sessions accepts one again before its expiry if the clock goes back, for every maximum from two on and every time to live |
| Replay.EntriesAreHeld | implementations/rust/crates/ca-core/src/lib.rs:276-292 | whatever the clock does, the entries after any run are those of the accepted calls since which no call has come at their expiry or later, each with its expiry |
| Replay.MarkIsExact | implementations/rust/crates/ca-core/src/lib.rs:276-292 | a mark at now succeeds exactly if the session has no entry that expires later, and fewer than the maximum have; the entries are then these and the session until now plus the time to live, or the last second of the clock |
| Replay.SecondCall | implementations/rust/crates/ca-core/src/lib.rs:276-292 | a second mark of a session is a replay exactly if it comes before the first plus the time to live and before the last second of the clock; from then on it is accepted if there is room |
| Replay.MonotoneClock | implementations/rust/crates/ca-core/src/lib.rs:276-292 | if the clock never goes back, two accepted marks of a session are at least a time to live apart, or the later one is at the last second of the clock |
| Replay.SpacingIsExact | implementations/rust/crates/ca-core/src/lib.rs:276-292 | accepted marks of a session are the time to live apart in all runs, whatever the clock does, if and only if the cache holds at most one session |
| ReplayCaches.ReplayCache.CheckAndMark | implementations/rust/crates/ca-core/src/lib.rs:276-292 | the ordered map performs the specified mark: a replay is a session whose entry expires later than now, and a new entry lasts exactly for the time to live, saturating |
| ReplayCaches.FixedReplayCache.CheckAndMark | implementations/rust/crates/agent-core/src/lib.rs:93-125 | the array with holes returns the same result and holds the same entries as the map of capacity N, for every call, clock value and N, with the same replays and the same expiry |
| ReplayCaches.FixedReplayCache.Expire | implementations/rust/crates/agent-core/src/lib.rs:99-103 | clearing slots in place leaves exactly the live entries |
| ReplayCaches.ContentsAre | implementations/rust/crates/agent-core/src/lib.rs:104-117 | slots with distinct keys hold as many entries as are occupied, and are all occupied exactly when the map is full |
| EnvironmentPolicy.ValidatesExactly | implementations/rust/crates/ca-core/src/lib.rs:721-762 | an environment validates exactly if its attributes are known, well typed and allowed and its CA-issued part is what the agent is approved for |
| EnvironmentPolicy.RefusalIsExact | implementations/rust/crates/ca-core/src/lib.rs:721-762 | an environment is refused for its first attribute that breaks a rule, with the error of that rule, and for an approval that it does not carry only if there is none |
| EnvironmentPolicy.AuthorizationIsByApprovals | implementations/rust/crates/ca-core/src/lib.rs:434-449 | a delivery is authorised exactly if both environments validate and the approvals of the two agents put them in one domain |
| EnvironmentPolicy.ApprovalsValidate | implementations/rust/crates/ca-core/src/lib.rs:627-643 | under a consistent policy the environment made of an agent's approvals validates if and only if each approved value is still allowed |
| EnvironmentPolicy.AllowValueKeeps | implementations/rust/crates/ca-core/src/lib.rs:607-624 | registering an allowed value keeps approved values allowed exactly if the attribute had an allow-list before or is approved with that value only |
| EnvironmentPolicy.FirstAllowListExcludes | implementations/rust/crates/ca-core/src/lib.rs:607-643 | the first allowed value of an attribute leaves exactly those approved environments valid whose approved value, if any, is that one |
| EnvironmentPolicy.LateAllowListExcludes | implementations/rust/crates/ca-core/src/lib.rs:607-643 | an instance in which the approved environment is excluded |
| EnvironmentPolicy.RegisterRuleKeeps | implementations/rust/crates/ca-core/src/lib.rs:584-604 | registering a rule keeps the policy consistent |
| EnvironmentPolicy.ApproveKeeps | implementations/rust/crates/ca-core/src/lib.rs:627-643 | so does an approval, which is always of an allowed value |
| EnvironmentPolicy.IsolateKeeps | implementations/rust/crates/ca-core/src/lib.rs:646-665 | so does an isolation, over CA-issued attributes only |
| EnvironmentPolicy.AllowSubscriberValueKeeps | implementations/rust/crates/ca-core/src/lib.rs:672-696 | so does a subscriber requirement |
| PolicyConfiguration.BuiltPolicyAcceptsApprovals | implementations/rust/apps/cad/src/main.rs:215-259 | for every accepted configuration and every agent with at most sixteen approvals, their environment encodes and validates |
| PolicyConfiguration.StepsKeep | implementations/rust/apps/cad/src/main.rs:215-259 | any run of registration steps keeps a policy consistent, and approvals allowed if allow-lists come first |
| PolicyConfiguration.BuiltPolicyIsSound | implementations/rust/apps/cad/src/main.rs:215-259 | the steps of a configuration come in that order |
| ConfigurationTheorems.BuiltPolicyIsExact | implementations/rust/apps/cad/src/main.rs:215-259 | a configuration is accepted exactly if its attributes agree and list values of their types, its approvals and requirements are of admitted values of CA-issued attributes, and its isolations are over one to eight such attributes; the policy then holds exactly the configured rules, allow-lists and requirements, and for each key the approval and the isolation configured last |
| ConfigurationTheorems.ValidationIsConfigured | implementations/rust/apps/cad/src/main.rs:215-259 | of the configuration: an environment validates exactly if each attribute is configured, of the configured type and admitted, and its CA-issued part is what was approved last for the agent |
| ConfigurationTheorems.AuthorizationIsConfigured | implementations/rust/apps/cad/src/main.rs:215-259 | of the configuration: a delivery is authorised exactly if both environments validate, both agents have the same approvals for the isolation configured last, and the subscriber has a configured value for each requirement that names one |
| StaticPolicy.BuildPolicy | implementations/rust/apps/cad/src/main.rs:215-259 | the nested loops perform the steps of the configuration, and the first error decides; a policy is returned exactly for an acceptable configuration, and holds what is configured |
| StaticPolicy.StaticEnvironmentPolicy.ValidateEnvironment | implementations/rust/crates/ca-core/src/lib.rs:721-762 | walking the parsed bytes gives the specified verdict, with the error of the first failing check |
| StaticPolicy.StaticEnvironmentPolicy.AllowsDelivery | implementations/rust/crates/ca-core/src/lib.rs:764-788 | the two passes over isolations and requirements decide the specified predicate |
| StaticPolicy.StaticEnvironmentPolicy.AuthorizeDelivery | implementations/rust/crates/ca-core/src/lib.rs:535-551 | three checks on one policy snapshot |
| StaticPolicy.StaticEnvironmentPolicy.Register | implementations/rust/crates/ca-core/src/lib.rs:584-604 | repeating a rule is accepted, contradicting it refused |
| StaticPolicy.StaticEnvironmentPolicy.AllowValue | implementations/rust/crates/ca-core/src/lib.rs:607-624 | the step on the fields; on an error nothing changes |
| StaticPolicy.StaticEnvironmentPolicy.Approve | implementations/rust/crates/ca-core/src/lib.rs:627-643 | likewise for an approval |
| StaticPolicy.StaticEnvironmentPolicy.Isolate | implementations/rust/crates/ca-core/src/lib.rs:646-665 | likewise for an isolation |
| StaticPolicy.StaticEnvironmentPolicy.AllowSubscriberValue | implementations/rust/crates/ca-core/src/lib.rs:672-696 | likewise for a requirement |
| StaticPolicy.StaticEnvironmentPolicy.ValidateConfiguredValue | implementations/rust/crates/ca-core/src/lib.rs:698-717 | accepts exactly what an environment may carry; what could not be put on the allow-list either is a configuration error; for a CA-issued attribute the verdict is that on approving the value |
| RouterLines.DeliveredInOrder | implementations/rust/crates/broker-core/src/lib.rs:249-313 | for all runs in which nobody registers while a packet for them is in transit: transmitted, held, captured, channelled and stored packets are, in this order, what was routed, but for what a requeue cuts off at the end |
| RouterLines.OrderFromStartIsExact | implementations/rust/crates/broker-core/src/lib.rs:342-370 | for all runs of a router: the order holds throughout, and however the run might go on, if and only if nobody registers while a packet for them is in transit, or the offline depth is 0 |
| RouterLines.OrderIsExact | implementations/rust/crates/broker-core/src/lib.rs:342-370 | likewise from every state in order |
| RouterLines.DisturbanceReorders | implementations/rust/crates/broker-core/src/lib.rs:368-369 | from every state in order with a packet in transit, a registration leads to a state in which another packet has overtaken it |
| RouterLines.NothingLostOrRepeated | implementations/rust/crates/broker-core/src/lib.rs:342-370 | even if routing is interrupted before storing, no packet is lost but by a requeue, and none is sent twice |
| RouterLines.AcceptedIfRoom | implementations/rust/crates/broker-core/src/lib.rs:342-370 | a packet is accepted exactly if fewer packets than the depth wait in the queue concerned: the channel of a live receiver, or else the offline queue; it then goes to the end of that queue, and nothing else moves |
| RouterLines.AcceptanceIsExact | implementations/rust/crates/broker-core/src/lib.rs:342-370 | over all runs, everything offered is accepted in order if and only if every routing finds room |
| RouterLines.RequeueIsExact | implementations/rust/crates/broker-core/src/lib.rs:292-313 | what a disconnection stores is, oldest first, what was unsent and then stored, as much of it as the depth admits |
| RouterLines.InterruptedRoutingReorders | implementations/rust/crates/broker-core/src/lib.rs:368-369 | a registration between unlocking and storing lets a later packet overtake |
| RouterLines.StepKeepsOrder | implementations/rust/crates/broker-core/src/lib.rs:107-143 | each step but a registration with a packet in transit keeps the order |
| RouterLines.StepConserves | implementations/rust/crates/broker-core/src/lib.rs:107-143 | each step, interrupted or not, conserves the packets |
| BrokerRouter.BrokerRouter.Register | implementations/rust/crates/broker-core/src/lib.rs:249-277 | which refusal has which error, and on success the captured offline queue under a new generation |
| BrokerRouter.BrokerRouter.DisconnectAndRequeue | implementations/rust/crates/broker-core/src/lib.rs:292-313 | everything unsent goes to the front of the stored queue, of which the oldest `depth` packets stay and an overflow is reported; a stale generation changes nothing |
| BrokerRouter.BrokerRouter.RouteCaDelivery | implementations/rust/crates/broker-core/src/lib.rs:342-370 | only publication responses of the CA are routed; one for a live receiver is refused as OnlineQueueFull exactly if its channel holds the online depth, one for no receiver as OfflineQueueFull exactly if the offline queue holds the depth; all others are accepted behind what is there |
| BrokerRouter.BrokerRouter.RouteLive | implementations/rust/crates/broker-core/src/lib.rs:353-368 | the part under the lock: a live channel takes the packet behind its others, and refuses it exactly if it holds the online depth; a connection whose receiver is gone is removed and the packet is still to be stored |
| BrokerRouter.BrokerRouter.StoreDelivery | implementations/rust/crates/broker-core/src/lib.rs:368-369 | the part after unlocking: the packet is stored behind the stored ones, whether or not the Agent has registered in between |
| BrokerRouter.BrokerRouter.Unregister | implementations/rust/crates/broker-core/src/lib.rs:278-289 | ends the service of the registration with the token and of no other; a stale token ends none |
| BrokerRouter.MemoryOfflineQueueStore.Prepend | implementations/rust/crates/broker-core/src/lib.rs:125-139 | older packets in front, the newest cut off, the overflow reported |
| BrokerRouter.MemoryOfflineQueueStore.Enqueue | implementations/rust/crates/broker-core/src/lib.rs:107-118 | appended unless full; other agents untouched |
| BrokerRouter.MemoryOfflineQueueStore.TakeAll | implementations/rust/crates/broker-core/src/lib.rs:121-123 | the whole queue, at once |
| BrokerRouter.AgentRegistration.TryReceive | implementations/rust/crates/broker-core/src/lib.rs:182-186 | captured packets before live ones |
| BrokerRouter.Drain | implementations/rust/crates/broker-core/src/lib.rs:309-311 | everything of a registration, in order |
| Payload.ParsingIsCanonical | implementations/rust/crates/protocol-core/src/payload.rs:280-340 | parsing succeeds on exactly the canonical bytes of the valid operations and gives back the operation, for all five kinds |
| WireFormats.OperationFormat | implementations/rust/crates/protocol-core/src/payload.rs:199-277 | the bytes of every operation, with tag, operator and value bytes, widths and two's complement written out |
| WireFormats.EncodableIsExact | implementations/rust/crates/protocol-core/src/payload.rs:199-277 | which operations there are bytes for: at most sixteen attributes with distinct identifiers, eight clauses, 64 bytes in an attribute and 3072 in a value |
| WireFormats.EncodingIsExact | implementations/rust/crates/protocol-core/src/payload.rs:199-277 | encoding succeeds exactly on these within the buffer; repeated identifiers are malformed, everything else is oversized |
| WireFormats.CountsAreBounded | implementations/rust/crates/protocol-core/src/payload.rs:283-300 | counts of attributes or clauses beyond the bounds are oversized, whatever follows |
| WireFormats.LengthsAreBounded | implementations/rust/crates/protocol-core/src/payload.rs:403-413 | and so are lengths of values |
| WireFormats.OctetsAreBounded | implementations/rust/crates/protocol-core/src/payload.rs:403-413 | and of byte strings in attributes |
| Payload.OperationRoundTrip | implementations/rust/crates/protocol-core/src/payload.rs:199-340 | every valid operation is read back from its bytes, attributes and clauses in order |
| Payload.BodyCanonical | implementations/rust/crates/protocol-core/src/payload.rs:374-445 | what was read is what re-encoding writes, byte for byte |
| Payload.GoodAttributes | implementations/rust/crates/protocol-core/src/payload.rs:292-300 | the incremental duplicate check is uniqueness of the identifiers |
| Parsing.ManyRoundTrip | implementations/rust/crates/protocol-core/src/payload.rs:428-445 | a counted run of items is read back if each item is |
| Parsing.ManyCanonical | implementations/rust/crates/protocol-core/src/payload.rs:428-445 | a counted run read with success re-encodes to the same bytes |
| PayloadCursor.ParseOperation | implementations/rust/crates/protocol-core/src/payload.rs:280-340 | the cursor parser returns the verdict of the specification, and views that borrow exactly the bytes of the attributes or clauses |
| PayloadCursor.ParseBody | implementations/rust/crates/protocol-core/src/payload.rs:283-336 | the branch of each tag |
| PayloadCursor.Cursor.Environment | implementations/rust/crates/protocol-core/src/payload.rs:284-305 | count and duplicate checks in place |
| PayloadCursor.Cursor.Predicate | implementations/rust/crates/protocol-core/src/payload.rs:428-444 | clauses are checked and their bytes kept |
| PayloadCursor.Cursor.Value | implementations/rust/crates/protocol-core/src/payload.rs:415-426 | tag and bounds |
| PayloadCursor.Cursor.Take | implementations/rust/crates/protocol-core/src/payload.rs:384-389 | moves only on success |
| PayloadCursor.Borrowed | implementations/rust/crates/protocol-core/src/payload.rs:302-305 | the bytes passed over by a run are the bytes of its items |
| PayloadWriter.EncodeEnvironment | implementations/rust/crates/protocol-core/src/payload.rs:199-215 | the error order, the canonical bytes, and nothing written behind them |
| PayloadWriter.EncodeSubscribe | implementations/rust/crates/protocol-core/src/payload.rs:218-228 | canonical bytes exactly if valid and within the buffer |
| PayloadWriter.EncodeSubscribePermanent | implementations/rust/crates/protocol-core/src/payload.rs:231-241 | likewise |
| PayloadWriter.EncodePublish | implementations/rust/crates/protocol-core/src/payload.rs:244-259 | likewise |
| PayloadWriter.EncodeResponse | implementations/rust/crates/protocol-core/src/payload.rs:262-277 | likewise |
| PayloadWriter.EnsureUnique | implementations/rust/crates/protocol-core/src/payload.rs:362-372 | finds exactly the repeated identifiers |
| PayloadWriter.Writer.Predicate | implementations/rust/crates/protocol-core/src/payload.rs:515-527 | at most eight clauses, in order |
| PayloadWriter.Writer.Raw | implementations/rust/crates/protocol-core/src/payload.rs:464-476 | all or nothing within the buffer |
| PayloadSizes.OperationLength | implementations/rust/crates/protocol-core/src/payload.rs:199-277 | no operation is longer than 1106, 566, 3640 or 3095 bytes by its kind |
| PayloadSizes.BoundsAreReached | implementations/rust/crates/protocol-core/src/payload.rs:199-277 | these bounds are reached |
| PayloadSizes.ParsedFitsFrame | implementations/rust/crates/protocol-core/src/codec.rs:50-61 | whatever parses fits a frame when sealed, and the response to a parsed publication is valid |
| Evaluation.EvaluationIsMeaning | implementations/rust/crates/protocol-core/src/payload.rs:133-156 | on parsed inputs, walking the bytes decides whether every clause finds an attribute of its type that satisfies it |
| Evaluation.Evaluate | implementations/rust/crates/protocol-core/src/payload.rs:133-156 | the loop over the clauses |
| Evaluation.Get | implementations/rust/crates/protocol-core/src/payload.rs:66-76 | the loop over the attributes |
| Evaluation.ScanFinds | implementations/rust/crates/protocol-core/src/payload.rs:66-76 | on a parsed environment no read fails, and the attribute found is the one stored |
| Evaluation.LookupIsMembership | implementations/rust/crates/protocol-core/src/payload.rs:65-76 | looking up decides membership in the unique-identifier map |
| Evaluation.EnvironmentIter.Next | implementations/rust/crates/protocol-core/src/payload.rs:93-104 | yields the attributes in order, and no read fails |
| Evaluation.CompareIsMeets | implementations/rust/crates/protocol-core/src/payload.rs:342-360 | the comparison is equality and order of the type; different types satisfy no operator |
| Evaluation.ComparisonIsTotalOrder | implementations/rust/crates/protocol-core/src/payload.rs:342-360 | on each type the comparison is a total order |
| Evaluation.NumbersCompare | implementations/rust/crates/protocol-core/src/payload.rs:342-360 | the six operators on numbers |
| Evaluation.TruthValuesCompare | implementations/rust/crates/protocol-core/src/payload.rs:342-360 | the six operators on truth values, false being the lesser |
| Evaluation.OctetsCompare | implementations/rust/crates/protocol-core/src/payload.rs:342-360 | the operators on byte strings are those of one total order |
| Evaluation.FirstDifferenceDecides | implementations/rust/crates/protocol-core/src/payload.rs:346-346 | in which a proper prefix comes first and the first differing byte decides |
| Evaluation.TypesDoNotMix | implementations/rust/crates/protocol-core/src/payload.rs:347-351 | values of different types meet no operator |
| Evaluation.CompareBytesPrecedes | implementations/rust/crates/protocol-core/src/payload.rs:346-346 | byte strings are ordered lexicographically |
| Bytes.ByteOrderIsNumericOrder | implementations/rust/crates/protocol-core/src/types.rs:38-42 | sixteen-byte identifiers are ordered like their numbers |
| Bytes.BigEndianRoundTrip | implementations/rust/crates/protocol-core/src/payload.rs:395-401 | big-endian numbers are read back |
| Bytes.FirstByteWeighsMost | implementations/rust/crates/protocol-core/src/payload.rs:395-401 | the first byte of a number weighs most |
| Envelope.EnvelopesAreCanonical | implementations/rust/crates/protocol-core/src/codec.rs:79-124 | parsing succeeds on exactly the canonical bytes of the valid envelopes and gives them back |
| Envelope.FormatIsExact | implementations/rust/crates/protocol-core/src/codec.rs:79-124 | which bytes are an envelope, by magic, version, type, zeros and both lengths; for which others the error is Oversized and for which UnsupportedVersion, all the rest being Malformed |
| Envelope.FieldsAre | implementations/rust/crates/protocol-core/src/codec.rs:79-124 | which bytes hold which field |
| Envelope.EncodeHeader | implementations/rust/crates/protocol-core/src/codec.rs:39-76 | the in-place header, the total length, and nothing written behind the header; errors leave the buffer as it was |
| Envelope.HeaderReadsBack | implementations/rust/crates/protocol-core/src/codec.rs:79-124 | a written header passes all checks and is read back |
| Envelope.HeaderIsCanonical | implementations/rust/crates/protocol-core/src/codec.rs:79-124 | a header that passes the checks is the one that would be written |

## Left out

- Cryptography (`crypto.rs`, key loading, `authentication_mac`): whether a signature verifies and what opening a frame yields are inputs of the engine, and sealing always succeeds; link authentication is the precondition of a session.
- Sockets, time-outs, back-off and `select!` scheduling: every branch is a step that may happen at any time, and the length-delimited codec is a FIFO channel.
- Closing an end of the link drops what it has not read yet; a frame being written when a session breaks counts as written, and the reader may close before it.
- Random identifiers: fresh by assumption; a failing generator and the wrap-around of the 64-bit generation counter are not modelled.
- Crashes of either process in the link theorems: the repository documents them as loss windows, and these theorems are about the lifetime of both. Crashes of the CA are part of `CaRuns`, under limits that stay the same.
- Liveness while the queue of an Agent stays full: the session is closed at each attempt. Completion is proved possible, not inevitable.
- PersistentStore.PersistentStore.PutSubscription: keeps the invariant only without the empty handler, which the source accepts here; `SnapshotTheorems.CommittedIsReadable` says what the empty one leads to.
- BrokerRouter.BrokerRouter.RouteCaDelivery: both its parts with nothing in between; they are `RouteLive` and `StoreDelivery`, and `RouterLines` interleaves them. `EndToEnd` routes in one step.
- `MemoryStore`: the same operations without a file and without validation of what is put; only `PersistentStore` is modelled.
- `DynamicEnvironmentPolicy`: replacing the policy is one assignment, and a request of the daemon sees one policy.
- `route_agent_request` and the request channel: its requests enter the link model as arbitrary dequeued payloads, so the end-to-end theorems begin where the broker takes a request.
- File writing, `fsync` and rename in `SnapshotFile`: a commit is one step that replaces the file or leaves it.
- JSON configuration parsing: hexadecimal decoding and unknown fields; the typed configuration is the input.
- `Agent::receive`, request builders, transports, applications, use-case models and key generation: thin wiring around the modelled codecs and caches.
- The Tamarin models: symbolic security is not stated here.
