# Collaboration service: the live room and what surrounds it

A collaboration service holds one *room* per open document. The room's single run loop owns the shared
document, the registry of connected members, the durability state and the timers; a *manager* makes and
ends rooms under concurrent joins, deletions and shutdown; around it stand each connection's outbound
queue, the hub that shares subscriptions between documents, a request/reply client over a broker, the
checkpoint store behind a pointer in the metadata index, and the analytics window. This project models
them in Dafny and proves what they promise their clients.

`dafny verify dfyconfig.toml` checks the project.

## How it is modelled

- The document is a set of operations: applying an update is union, a clone is equal, the observer fires
  exactly when the set grew (`Crdt`). An undecodable update applies a part of itself before it fails.
- Parts that change state step by step are classes with the source's fields (`RoomLoop.Room`,
  `Outbound.Conn`, `Manager.Registry`, `RedisHub.Hub`, `RpcClient.Client`, `CheckpointStore.Store`,
  `SizeBudget.Budget`, `Contributions.Window`, `Lifecycle.RoomState`). Where the source is concurrent, a
  method is one critical section or one step outside it, a `Run` takes any schedule of them, and the
  class invariant is what holds in every reachable state.
- The world's choices are inputs: how many frames each connection takes (`quota`), what rate limiter, size
  check and encoder say to a command (`Oracle`), how each store replies (`Reply`: accepted, failed after or
  before it took effect). Contracts say what follows from each choice, and runs take any of them.
- Time is a clock that stands still while the loop works and never passes an armed deadline.
- `RoomNet` describes what any re-entrant broadcast may do to registry and traffic (`Casted`),
  `RoomLedger` what the room owes each session (`LedgerOk`), `RoomQueue` the command queue and the
  sessions feeding it, `RoomRules` what one frame does, `RoomSteps` what each step keeps, `RoomLoop` the
  loop itself, `RoomRuns` the results over whole runs.
- Every room history carries, per session, the frames it forwarded, which of them the queue refused, and
  the operations its client holds; a client sends only what it holds and claims only what it has.

Where code and comments disagree the code is followed: the resolver's comment that a first save of a
document without an index row creates one (such a save is refused, having no bucket); the hub's comments
on a pump racing with the loss of all subscribers (one of its two branches is unreachable); the claim
that the size estimate is never below the truth (it is, after a failed first measurement); and the
comment on schema rejections that the connection stays open (it is closed).

## Model

| member | source | states |
|---|---|---|
| `RoomRuns.Lives` | `internal/domain/service/room.go:911-935` | over any sequence of rooms restored one from the other's checkpoint, each cut off anywhere: the store never loses an operation, stays schema-valid, and every `persisted` ever said by any of them stays true; invalid stored content never becomes a room |
| `RoomRuns.AnswersStandLater` | `internal/domain/service/room.go:1592-1608` | an answer once true of a checkpoint is true of every later one |
| `RoomRuns.SingleUserRun` | `internal/domain/service/room.go:1173-1194` | over every run of a room that is single-user from the start, joins and leaves in any order, at most one registered member may write |
| `RoomRuns.ReadersStayReaders` | `internal/domain/service/room.go:1173-1194` | over every run, whatever was decided about the document in between, no session whose join asked to read is ever registered as a writer |
| `RoomRuns.ClientAgreesExactly` | `internal/domain/service/room.go:2115-2149` | a synchronised client never lacks an operation of the server, and equals it if and only if the server has everything the client made |
| `RoomRuns.DrainedQueue` | `internal/domain/service/manager.go:664-749` | with the queue empty every frame of every session was handled or was refused |
| `RoomRuns.QuietRoomConverges` | `internal/domain/service/room.go:2176-2222` | once queues are drained, any two registered writers whose frames decoded have the server's document, hence the same |
| `RoomRuns.ParkedRequestIsScheduled` | `internal/domain/service/room.go:985-1002` | a parked request implies a dirty room with a live save deadline, no answer given yet, and a writer that was refused nothing |
| `RoomRuns.HandledRequestIsAccounted` | `internal/domain/service/room.go:1489-1532` | every valid request of a registered session that was handled is parked or has had exactly one answer |
| `RoomRuns.DesertedRoomIsReleased` | `internal/domain/service/room.go:2356-2409` | when all acquirers have spoken and all leaves are processed, the room is empty and its release has a deadline |
| `RoomRuns.UndurableIsBrief` | `internal/domain/service/flush.go:53-90` | an active undurable room is below the configured threshold, five by default, and its next attempt comes no later than (threshold - 1) * 30 s after the first failure |
| `RoomRuns.NobodyIsForgotten` | `internal/domain/service/room.go:2454-2464` | every session ever admitted is a member, was handed an end, refused a frame, or left |
| `RoomRuns.ReasonGoesFirst` | `internal/domain/service/presence.go:17-32` | whoever was handed an end had been sent that end's reason before, on the same connection, unless the connection takes nothing any more |
| `RoomLoop.Room.Run` | `internal/domain/service/room.go:942-1014` | every finite script of commands, timers, peer events, panics, forwards and clock ticks, with every behaviour of stores, rate limiter, size check and encoder, ends in a serving or an ended room that keeps all invariants; the store only grows, every answer given stands, nobody is registered with more than its join asked for, what joins asked for is never rewritten, and a single-user room that no join declares otherwise has at most one writer |
| `RoomLoop.Room.Step` | `internal/domain/service/room.go:942-1014` | one event keeps the serving invariant or ends the room in the ended one; a command is taken off the queue, a save with both stores accepting leaves the room clean and stored, a panic ends it; an ended room changes nothing but lost late frames |
| `RoomLoop.Room.Dispatch` | `internal/domain/service/room.go:1045-1098` | any queued command is taken and keeps the invariant; a close ends the room |
| `RoomLoop.Room.constructor` | `internal/domain/service/room.go:603-813` | a room starts active, clean, valid, mirrored, and held by its first acquirer |
| `RoomLoop.Room.Materialize` | `internal/domain/service/room.go:700-728` | a room comes into being if and only if the stored content satisfies its schema |
| `RoomLoop.Room.Send` | `internal/domain/service/room.go:2217-2222` | a send is taken if and only if no end went before it and the connection takes one more frame; otherwise it is refused, behind an end without a trace, else for good |
| `RoomLoop.Room.SendMember` | `internal/domain/service/room.go:2217-2222` | one member is sent one frame, or is shed with everything that follows from it; a cascade posts nothing else |
| `RoomLoop.Room.DropMember` | `internal/domain/service/room.go:1322-1343` | re-entrant eviction ends (by the number of members), takes the member out once and for good, adds nobody, and removes presence exactly for clients currently owned by someone who went |
| `RoomLoop.Room.Broadcast` | `internal/domain/service/room.go:2176-2183` | with members vanishing under the iteration, everyone visible but the exception who stays got the frame exactly once, pending members none, nobody anything else but removal notices |
| `RoomNet.BroadcastReaches` | `internal/domain/service/room.go:2176-2183` | a broadcast, whatever it evicts on the way, gives the frame once to every visible member still there but the exception, and to nobody else |
| `RoomNet.CastedTrans` | `internal/domain/service/room.go:1274-1288` | cascades compose: frames posted and clients evicted add up, nothing is counted twice |
| `RoomNet.EvictCasted` | `internal/domain/service/room.go:1274-1288` | dropping the owner of a client and telling the rest is a cascade in which each client is announced as gone once |
| `RoomNet.SentCasted` | `internal/domain/service/room.go:2217-2222` | a taken frame is a cascade of one posting |
| `RoomLoop.Room.BroadcastControl` | `internal/domain/service/room.go:2187-2197` | a control broadcast keeps every obligation of the room |
| `RoomLoop.Room.SendControl` | `internal/domain/service/room.go:2210-2214` | a control to one member keeps every obligation of the room |
| `RoomLoop.Room.AnswerOne` | `internal/domain/service/room.go:1577-1587` | the barrier is cleared and its member, if still there, gets one more `persisted` and no failure, or one more failure and no `persisted`, as told; `persisted` only when the live document is the stored one |
| `RoomLoop.Room.AnswerAll` | `internal/domain/service/room.go:1592-1624` | afterwards nobody still registered has a barrier, and everyone who had one and still takes frames was told `persisted` after a success and a failure otherwise, whoever was dropped on the way |
| `RoomLoop.Room.FailMemberBarrier` | `internal/domain/service/room.go:1577-1587` | the member's outstanding request is answered as failed, unless its connection takes nothing any more; every other member is exactly as before |
| `RoomLedger.ParkedAnswer` | `internal/domain/service/room.go:1592-1608` | answering a parked request gives it its only answer and forgets no other request |
| `RoomLedger.ImmediateAnswer` | `internal/domain/service/room.go:1536-1558` | answering a request in its own step gives it exactly one answer |
| `RoomLedger.ParkedIsCovered` | `internal/domain/service/room.go:1489-1532` | when a flush stores the live document, every parked request covers all earlier frames of its session |
| `RoomLedger.NeutralCast` | `internal/domain/service/room.go:2176-2222` | a cascade that neither answers nor carries content keeps the whole ledger, whoever it sheds |
| `RoomLedger.UpdateCast` | `internal/domain/service/room.go:2115-2149` | fanning an update out to everyone but its author keeps every synchronised member complete |
| `RoomLedger.CatchUpCast` | `internal/domain/service/sync.go:70-140` | answering a SyncStep1 of an activated member makes it complete from then on |
| `RoomLedger.StoredGrows` | `internal/domain/service/room.go:2229-2310` | storing the whole live document keeps every earlier answer true |
| `RoomLoop.Room.BeginTeardown` | `internal/domain/service/lifecycle_state.go:128-138` | only a live phase is claimed, along a legal edge |
| `RoomSteps.EndsOnly` | `internal/domain/service/room.go:2456-2464` | handing over an end keeps the registry, provided its reason went out before, and moves no member and no frame |
| `RoomLoop.Room.CloseMembers` | `internal/domain/service/room.go:2454-2464` | everyone left is closed with the code, reason first, the gauge balanced |
| `RoomLoop.Room.DismissOne` | `internal/domain/service/room.go:2456-2464` | reason, then end, then removal, counted closed only if it was activated |
| `RoomLoop.Room.Teardown` | `internal/domain/service/room.go:2423-2533` | only the first caller runs it; afterwards the room is closed and empty, every member was handed an end or had refused a frame, every outstanding request was told `persisted` if a final flush of unsaved content succeeded and a failure otherwise; the store changes exactly when that flush reached it |
| `RoomLoop.Room.Persist` | `internal/domain/service/room.go:2229-2310` | clean exactly when both stores accepted, and then everyone waiting was told `persisted`; otherwise everyone waiting was told a failure, one failure is added, and the room escalates at the threshold; the store holds the live document exactly when the checkpoint took effect |
| `RoomLoop.Room.OnStoresAccepted` | `internal/domain/service/room.go:2283-2309` | the one place the room becomes clean tells everyone waiting `persisted` and every visible member the new version |
| `RoomLoop.Room.SaveCheckpoint` | `internal/adapter/outbound/persistence/fileservice/store.go:127-225` | a save succeeds exactly when the store accepts it; a failed one may have taken effect |
| `RoomLoop.Room.OnFlushFailed` | `internal/domain/service/flush.go:53-112` | every outstanding request is failed, every visible member told, and the room escalates exactly at the threshold, a nested escalation being a no-op teardown |
| `RoomLoop.Room.OnDocUpdate` | `internal/domain/service/room.go:2115-2149` | dirty, and every visible member but the author was sent what is new |
| `RoomLoop.Room.ApplyLive` | `internal/domain/service/room.go:1796-1825` | the document grows by the update; what is new, and only that, is spread once to all visible members but the author, and nothing is sent when nothing is new |
| `RoomLoop.Room.ApplyUpdate` | `internal/domain/service/room.go:1774-1825` | too large, undecodable under a schema, refused by the schema, accepted: which it is follows from size, decodability and the validity of the document it would give, each way round; a decodable update within size that leaves the document valid lands whole, and anything refused leaves document and traffic alone; shadow and document stay equal and valid |
| `Crdt.ValidityDependsOnTheDocument` | `internal/domain/service/room.go:1774-1794` | why the candidate is a whole copy: the same update is refused by one valid document and accepted by another |
| `Crdt.OneBadEntryRefuses` | `internal/domain/service/assets_schema.go:84-107` | one current entry that is not a locator refuses a whole whiteboard, and a memo by its images |
| `Crdt.EachTypeReadsItsOwnRoot` | `internal/domain/service/assets_schema.go:128-186` | a whiteboard is judged by its files alone and a memo by its images alone |
| `Crdt.LocatorsAreAccepted` | `internal/domain/service/assets_schema.go:128-157` | a document whose entries are all locators is accepted, and one without a schema whatever it holds |
| `Crdt.RemovedIsForgotten` | `internal/domain/service/assets_schema.go:84-107` | a removal later than everything on its slot makes the document as valid as one without the slot |
| `RoomLoop.Room.Farewell` | `internal/domain/service/presence.go:17-27` | reason first, end behind it, on the member's own queue |
| `RoomLoop.Room.Disconnect` | `internal/domain/service/presence.go:17-32` | the member is gone with the named end, the only end handed out; whoever stays keeps role, visibility, client and request and is told the new count |
| `RoomLoop.Room.Reject` | `internal/domain/service/room.go:1977-2004` | a refused write fails its session's outstanding request, names the rejection where it is to be named, ends that session and no other with the code and touches nobody else |
| `RoomLoop.Room.CatchUp` | `internal/domain/service/sync.go:70-140` | a SyncStep1 is answered with exactly what its state vector does not claim, and marks the member synchronised |
| `RoomLoop.Room.HandleWrite` | `internal/domain/service/room.go:1949-2016` | a writer's decodable edit within size that leaves the document valid lands and leaves the writer registered or shed; an undecodable one changes nothing; one too large or refused by the schema changes nothing and ends its session, whose outstanding request is failed; viewers change nothing |
| `RoomLoop.Room.HandleSync` | `internal/domain/service/room.go:1949-2016` | sync messages have exactly their effect and a reply never changes the document |
| `RoomLoop.Room.HandleDurabilityRequest` | `internal/domain/service/room.go:1436-1533` | a writer that was refused nothing, lost nothing and waits for nothing is told `persisted` at once by a clean room and waits, with nothing sent, in an unsaved one that saves periodically; every other valid request is told a failure at once; an unreadable one is met with silence |
| `RoomLoop.Room.AnswerDirectly` | `internal/domain/service/room.go:1536-1558` | one answer, the one asked for, `persisted` only when covered by the store |
| `RoomLoop.Room.TrackAwarenessID` | `internal/domain/service/room.go:1689-1705` | the first client a member announces is its own and it becomes the current owner; later ones change nothing |
| `RoomLoop.Room.Relay` | `internal/domain/service/room.go:1385-1420` | presence is updated and the frame goes to every visible member but the sender, never into the document |
| `RoomSteps.RelayReaches` | `internal/domain/service/room.go:1385-1420` | an awareness frame goes on as one and an ephemeral frame as one, once to every visible member still there but the sender |
| `RoomSteps.PresenceFollows` | `internal/domain/service/room.go:1385-1408` | clients announced offline are gone from the presence, clients announced online are in it unless their owner was evicted on the way, and the sender owns the first client it announces |
| `RoomLoop.Room.HandleMessage` | `internal/domain/service/room.go:1355-1428` | frames of evicted sources do nothing, a frame over the rate ends its session and no other, every other frame has exactly its effect and leaves its session's account complete |
| `RoomLoop.Room.HandlePeer` | `internal/domain/service/room.go:1716-1730` | a peer's decodable update lands whole exactly when it leaves the document valid, whatever its size; an undecodable one lands nowhere a schema guards |
| `RoomSteps.JoinWriters` | `internal/domain/service/room.go:1173-1194` | as long as no join declared the document multi-user, a join leaves at most one registered writer |
| `RoomLoop.Room.ResolveJoinCapability` | `internal/domain/service/room.go:1173-1194` | a reader stays one; a writer becomes one exactly when the document is known to be single-user and has a writer |
| `RoomLoop.Room.HandleJoin` | `internal/domain/service/room.go:1110-1147` | refused exactly when full or when its admission cannot be encoded; otherwise a fresh, pending, uncounted member: a reader if it asked to read, and if it asked to write a reader exactly when the document is single-user and has a writer; nothing changes for the others |
| `RoomLoop.Room.HandleActivate` | `internal/domain/service/room.go:1151-1166` | only an activation makes a member visible and counted, once; everyone visible is told the new count and is otherwise as before, and nobody is handed an end |
| `RoomLoop.Room.HandleLeave` | `internal/domain/service/room.go:1248-1263` | the member is gone and stays gone; the rest are told unless it was never visible, and nobody is handed an end |
| `RoomRules.RetryBackoff` | `internal/domain/service/room.go:2344-2354` | no retry waits longer than thirty seconds |
| `RoomRules.RetryWaitsGrow` | `internal/domain/service/room.go:2344-2354` | the first retry waits a debounce, later ones no less than earlier ones, none not at all |
| `RoomRules.RetryWaitsDouble` | `internal/domain/service/room.go:2344-2354` | the first wait is the debounce, each following one twice the last until the sixth failure, all cut at thirty seconds |
| `RoomQueue.PopFrame` | `internal/domain/service/room.go:1045-1098` | everything a session forwarded before the frame at the head was handled or refused |
| `RoomQueue.ForwardAdmitted` | `internal/domain/service/manager.go:664-700` | an accepted frame keeps the queue exact and in session order, carrying the mark of earlier losses |
| `RoomQueue.ForwardRefused` | `internal/domain/service/manager.go:700-712` | a refused frame is recorded as lost and marks its session for good |
| `RoomQueue.BeginLedger` | `internal/domain/service/room.go:1355-1365` | taking a frame past refused ones costs no obligation |
| `RoomQueue.DoneLedger` | `internal/domain/service/room.go:1033-1040` | a frame is behind the room only once its update landed and its request is accounted for, or its session is gone |
| `RoomQueue.ForwardLedger` | `internal/domain/service/manager.go:664-749` | forwarding, accepted or not, takes nothing away from what the room owes or has said |
| `RoomQueue.JoinLedger` | `internal/domain/service/room.go:1110-1147` | a joiner has no history and disturbs nobody's |
| `RoomQueue.ParkLedger` | `internal/domain/service/room.go:1513-1532` | parking gives the request its place in line without answering it |
| `RoomLoop.Room.TakeMessage` | `internal/domain/service/room.go:1033-1040` | the frame at the head has its whole effect, and registry, document, queue and history stay in agreement with no member added |
| `RoomLoop.Room.DispatchMessage` | `internal/domain/service/room.go:1033-1040` | the frame has its whole effect; the first unsaved edit arms the save timer, an emptied room the idle timer |
| `RoomLoop.Room.DispatchJoin` | `internal/domain/service/room.go:1047-1067` | refused exactly when full or unencodable; a join stops a scheduled release and a refusal that leaves the room empty schedules one |
| `RoomLoop.Room.DispatchActivate` | `internal/domain/service/room.go:1069-1072` | activation keeps the room watched even when its broadcast sheds the last member |
| `RoomLoop.Room.DispatchLeave` | `internal/domain/service/room.go:1074-1078` | a leave that empties the room schedules its release |
| `RoomLoop.Room.DispatchClose` | `internal/domain/service/room.go:1083-1093` | a shutdown flushes, and with both stores accepting tells everyone waiting `persisted`; a deletion writes nothing and tells them a failure; either way everyone was told the right code |
| `RoomLoop.Room.Flush` | `internal/domain/service/room.go:346-350` | one flush attempt leaves no request outstanding: after success everyone waiting was told `persisted`, otherwise a failure; the room serves on, or is over with edits not saved |
| `RoomLoop.Room.SaveTimerFired` | `internal/domain/service/room.go:980-999` | with both stores accepting clean and stored, everyone waiting told `persisted`; otherwise everyone waiting is told a failure and the room is one failure closer with a retry armed on backoff, or escalated at the configured number of failures (five by default) no later than (threshold - 1) * 30 s after the first |
| `RoomLoop.Room.IdleTimerFired` | `internal/domain/service/room.go:2372-2409` | a room with members stays as it is; an empty one is released only flushed, escalated, or where no retry can ever come; otherwise it stays with both timers armed |
| `RoomLoop.Room.Panic` | `internal/domain/service/room.go:943-962` | nothing is written, everyone is told their edits are not saved, every request is failed |
| `RoomLoop.Room.PeerUpdate` | `internal/domain/service/room.go:974-983` | a peer's decodable update lands whole exactly when it leaves the document valid; its first unsaved edit arms the save timer |
| `RoomLoop.Room.PeerEphemeral` | `internal/domain/service/room.go:1916-1940` | a peer's presence frame updates presence and reaches every visible local member once, and no document |
| `RoomLoop.Room.Forward` | `internal/domain/service/manager.go:664-749` | accepted frames queue with the loss mark of their session, refused ones mark it; the first refusal hands the connection its end, later ones say nothing at all |
| `RoomLoop.Room.ForwardLate` | `internal/domain/service/manager.go:722-734` | a frame to an ended room is lost and marked without a word |
| `RoomLoop.Room.Excuse` | `internal/domain/service/manager.go:736-749` | reason, then end, directly to the session's connection |
| `RoomLoop.Room.Submit` | `internal/domain/service/room.go:404-427` | other commands only queue, or are refused without a trace; an acquirer's queued command settles what it owed |
| `RoomLoop.Room.Tick` | `internal/domain/service/room.go:942-1014` | time passes without overtaking an armed deadline |
| `Lifecycle.RoomState.Swap` | `internal/domain/service/lifecycle_state.go:128-138` | the compare-and-swap wins for one caller; no caller fails more than twice |
| `Lifecycle.RoomState.Load` | `internal/domain/service/lifecycle_state.go:128-138` | a room already draining or closed is not claimed again |
| `Lifecycle.RoomState.Activate` | `internal/domain/service/lifecycle_state.go:111-121` | activation only from materialising |
| `Lifecycle.OneOwner` | `internal/domain/service/lifecycle_state.go:118-138` | two owners of a teardown are the same caller |
| `Lifecycle.PathAdvances` | `internal/domain/service/lifecycle_state.go:83-94` | phases only advance, so each is entered at most once |
| `Lifecycle.ClosedOnlyByDraining` | `internal/domain/service/lifecycle_state.go:70-94` | a closed room drained immediately before, once, and closed is final |
| `Lifecycle.RoomState.Run` | `internal/domain/service/lifecycle_state.go:96-142` | any interleaving of an activation and claimants only extends the history along legal edges, with one owner of the teardown |
| `Locator.ValidLocatorMeaning` | `internal/domain/service/assets_schema.go:66-82` | accepted if and only if within the byte limit, not blank, and not starting a `data:` scheme at its first non-blank character, as ECMA-262 sections 12.2 and 12.3 define blanks |
| `Locator.PaddedPayloadIsRefused` | `internal/domain/service/assets_schema.go:37-57` | no blank padding gets an inline payload through |
| `Locator.SchemeInAnyCase` | `internal/domain/service/assets_schema.go:77-80` | the scheme is recognised in any capitalisation, and nothing else is taken for it |
| `Locator.Utf8LengthBounds` | `internal/domain/service/assets_schema.go:66-70` | the limit counts bytes: one for each character exactly in plain ASCII, never more than four |
| `Locator.TrimLeftSplits` | `internal/domain/service/assets_schema.go:49-57` | trimming removes exactly one blank prefix |
| `Outbound.Conn.Run` | `internal/adapter/inbound/ws/conn.go:113-327` | any schedule of senders, enders, handshake, writer and hard closes keeps the queue's invariant; written and admitted frames only extend; an end once promised is in its caller's hand or the connection is ending or closed |
| `Outbound.Conn.OfferCheck` | `internal/adapter/inbound/ws/conn.go:131-136` | nothing passes the boundary of an ending or closed connection; a caller refused there goes on to the end it promised, if any |
| `Outbound.Conn.OfferEnqueue` | `internal/adapter/inbound/ws/conn.go:137-143` | admitted at the end of the queue or refused for lack of room, never across the boundary; a caller admitted goes on to the end it promised, one refused sheds first |
| `Outbound.Conn.Shed` | `internal/adapter/inbound/ws/conn.go:113-126` | the connection is closed, and its caller goes on to the end it promised |
| `Outbound.Conn.EndCheck` | `internal/adapter/inbound/ws/conn.go:150-158` | the boundary moves once, and whoever moves it has its reason admitted already |
| `Outbound.Conn.EndEnqueue` | `internal/adapter/inbound/ws/conn.go:159-165` | an end is admitted behind everything, or the boundary stays closed without one |
| `Outbound.Conn.Wake` | `internal/adapter/inbound/ws/conn.go:219-226` | a token is one retry of the whole admission |
| `Outbound.Conn.Take` | `internal/adapter/inbound/ws/conn.go:237-242` | the writer takes the oldest item |
| `Outbound.Conn.Announce` | `internal/adapter/inbound/ws/conn.go:270-275` | the freed slot is announced before the item is dealt with |
| `Outbound.Conn.Write` | `internal/adapter/inbound/ws/conn.go:252-258` | a frame is written in admission order or the connection is over |
| `Outbound.Conn.CloseWith` | `internal/adapter/inbound/ws/conn.go:323-327` | a graceful close happens behind everything ever admitted, its reason included |
| `Outbound.ReasonBeforeClose` | `internal/adapter/inbound/ws/conn.go:67-77` | a graceful close with a code: all admitted frames were written, that code's reason among them, and no other end exists |
| `Outbound.PromisedEndIsAdmitted` | `internal/adapter/inbound/ws/conn.go:297-327` | once every caller is back, a connection somebody set out to end is closed or has the end as the last thing admitted |
| `Outbound.ClientSeesAPrefix` | `internal/adapter/inbound/ws/conn.go:237-262` | what was written is always a prefix of what was admitted, in order, and no end precedes it |
| `Outbound.ParkedHandlerIsWoken` | `internal/adapter/inbound/ws/conn.go:211-232` | no lost wake-up: a parked handshake without a token on a live connection faces a full queue that the writer still drains |
| `Manager.Registry.Gate` | `internal/domain/service/manager.go:284-293` | refused exactly while a tombstone stands, otherwise holding the current epoch |
| `Manager.Registry.Acquire` | `internal/domain/service/manager.go:533-535` | the first caller leads an execution, the others share it |
| `Manager.Registry.Look` | `internal/domain/service/manager.go:541-551` | a registered room is the result, a shutdown the error |
| `Manager.Registry.Make` | `internal/domain/service/manager.go:553-558` | the leader has a room ready that nobody can reach yet |
| `Manager.Registry.Insert` | `internal/domain/service/manager.go:560-592` | a room is registered only under the leader's current epoch, before shutdown, for a document that has none and is not protected; otherwise it is torn down |
| `Manager.Registry.Collect` | `internal/domain/service/manager.go:593-596` | every sharer gets the one result |
| `Manager.Registry.CheckEpoch` | `internal/domain/service/manager.go:602-625` | a caller passes only while no deletion happened since its own gate; a stale one leaves the room a command |
| `Manager.Registry.Enqueue` | `internal/domain/service/manager.go:302-314` | only an active room takes a join; a first refusal leads to one more attempt, a second one is final |
| `Manager.Registry.AwaitJoin` | `internal/domain/service/manager.go:315-334` | the room's answer is the caller's; a room gone with the join queued leads to one more attempt, and the second time to a refusal |
| `Manager.Registry.Release` | `internal/domain/service/manager.go:638-659` | only the registered instance is removed |
| `Manager.Registry.Delete` | `internal/domain/service/manager.go:433-437` | every earlier epoch is stale, the document protected, the live room found, in one section |
| `Manager.Registry.DeleteEnqueue` | `internal/domain/service/manager.go:446-468` | done if nothing is live or it is no longer active, an error if it is active and stuck |
| `Manager.Registry.DeleteAwait` | `internal/domain/service/manager.go:469-489` | done only once the room is no longer active |
| `Manager.Registry.Expire` | `internal/domain/service/manager.go:438-444` | a timer removes only its own tombstone, never a renewed one |
| `Manager.Registry.Close` | `internal/domain/service/manager.go:779-786` | however often it is called, the drain snapshot is exactly what is registered when the shutdown mark is set |
| `Manager.RoomInserted` | `internal/domain/service/manager.go:560-592` | the registration step keeps every invariant: never for a protected document |
| `Manager.DeletionStarts` | `internal/domain/service/manager.go:426-444` | a deletion makes every epoch captured so far stale and knows the only room there can be |
| `Manager.CallerMoves` | `internal/domain/service/manager.go:294-334` | a caller moves on without ever dropping a room it owes a command |
| `Manager.Registry.Run` | `internal/domain/service/manager.go:256-834` | over any interleaving: while a tombstone of the beginning still stands, the document has no room it did not have then, and after shutdown nothing is registered that was not |
| `Manager.Registry.Proceed` | `internal/domain/service/manager.go:294-334` | every step of a caller moves it alone, and closer to its end: with two attempts there are at most twelve; it keeps the invariant and registers nothing |
| `Manager.Registry.Execute` | `internal/domain/service/manager.go:533-596` | a shared execution registers a room only for an unprotected document of an open registry |
| `Manager.OneRoomPerDocument` | `internal/domain/service/manager.go:521-596` | at most one room of a document serves or drains at any time |
| `Manager.DeletedStaysDown` | `internal/domain/service/manager.go:426-493` | from a successful deletion until its tombstone expires, whatever room of the document is registered is draining |
| `Manager.OnlyTheFoundRoom` | `internal/domain/service/manager.go:433-437` | while a deletion works, no other room than the one it found can be registered |
| `Manager.ShutdownSeesEverything` | `internal/domain/service/manager.go:779-786` | nothing is registered that the shutdown does not drain |
| `Manager.StartedRoomIsOwed` | `internal/domain/service/manager.go:602-625` | a registered room nobody addressed has a maker who still will, so no started room is stranded |
| `RedisHub.Hub.Enter` | `internal/adapter/outbound/hub/redis/hub.go:151-169` | refused exactly when closed; otherwise registered, on the installed pump with its count raised and its call done, or, with none installed, on the way to start one |
| `RedisHub.Hub.StartPump` | `internal/adapter/outbound/hub/redis/hub.go:174-182` | a started pump is in its caller's hands |
| `RedisHub.Hub.Fail` | `internal/adapter/outbound/hub/redis/hub.go:174-182` | a failed start leaves no subscriber behind |
| `RedisHub.Hub.Install` | `internal/adapter/outbound/hub/redis/hub.go:184-223` | a pump is installed only for live subscribers, counted; otherwise it is about to be stopped; the removal kept for a raced pump without subscribers is unreachable |
| `RedisHub.Hub.RemoveSubscriber` | `internal/adapter/outbound/hub/redis/hub.go:311-339` | one subscriber less, and the last takes the pump |
| `RedisHub.Hub.CloseSubscription` | `internal/adapter/outbound/hub/redis/hub.go:104-107` | closing at any time, any number of times, keeps the counts |
| `RedisHub.Hub.Close` | `internal/adapter/outbound/hub/redis/hub.go:288-307` | nothing stays registered, every installed pump is about to be stopped |
| `RedisHub.EnterCounted` | `internal/adapter/outbound/hub/redis/hub.go:151-169` | counts stay exact when a subscriber enters |
| `RedisHub.Hub.Run` | `internal/adapter/outbound/hub/redis/hub.go:144-339` | any interleaving of subscriptions, closings and stops keeps the counts exact and every started pump accounted for |
| `RedisHub.SubscribersAreServed` | `internal/adapter/outbound/hub/redis/hub.go:144-224` | a returned, unclosed subscription of an open hub has a running pump counting exactly the live subscribers |
| `RedisHub.NothingLeaks` | `internal/adapter/outbound/hub/redis/hub.go:288-339` | with no call under way a started pump is stopped or serves a subscriber; none runs after close |
| `FanoutCodec.RoundTrip` | `internal/adapter/outbound/hub/redis/hub.go:499-534` | decoding an encoded frame gives it back, identifiers cut at the cap |
| `FanoutCodec.DecodesExactlyTheLayouts` | `internal/adapter/outbound/hub/redis/hub.go:517-534` | decoding is total and accepts exactly the length-prefixed layouts, each as one frame |
| `FanoutCodec.ReencodeIdentity` | `internal/adapter/outbound/hub/redis/hub.go:492-515` | an accepted frame re-encodes to itself if and only if both identifiers are within the cap |
| `FanoutCodec.LengthRoundTrip` | `internal/adapter/outbound/hub/redis/hub.go:506-511` | the big-endian length survives |
| `FanoutCodec.LengthDigits` | `internal/adapter/outbound/hub/redis/hub.go:506-511` | most significant byte first: one more digit shifts the bytes to the left |
| `FanoutCodec.LengthBytesRoundTrip` | `internal/adapter/outbound/hub/redis/hub.go:521-529` | four bytes are one length and back |
| `RpcClient.Client.Register` | `internal/adapter/outbound/metadatastore/rabbitmq/conn.go:349-365` | refused without a reply path; otherwise channel and reply queue of the session being consumed |
| `RpcClient.Client.Deliver` | `internal/adapter/outbound/metadatastore/rabbitmq/conn.go:166-178` | a waiter is taken out by whoever answers it |
| `RpcClient.Client.SendReply` | `internal/adapter/outbound/metadatastore/rabbitmq/conn.go:166-178` | the slot is empty, so a reply never blocks its sender |
| `RpcClient.Client.FailAllPending` | `internal/adapter/outbound/metadatastore/rabbitmq/conn.go:326-338` | every waiter there was gets its failure, none is left registered |
| `RpcClient.Client.OpenSession` | `internal/adapter/outbound/metadatastore/rabbitmq/conn.go:131-161` | a failure at any of the five steps leaves nothing open |
| `RpcClient.Client.Adopt` | `internal/adapter/outbound/metadatastore/rabbitmq/conn.go:276-289` | installed whole and live, or refused once shutdown is signalled |
| `RpcClient.Client.CloseRefused` | `internal/adapter/outbound/metadatastore/rabbitmq/conn.go:262-268` | a refused session is closed by its opener |
| `RpcClient.Client.ReleaseDead` | `internal/adapter/outbound/metadatastore/rabbitmq/conn.go:229-236` | a dead session is closed before another is tried |
| `RpcClient.Client.Supervise` | `internal/adapter/outbound/metadatastore/rabbitmq/conn.go:229-268` | which step follows which, with and without a shutdown, and a failed opening only backs off |
| `RpcClient.Client.ReadLive` | `internal/adapter/outbound/metadatastore/rabbitmq/conn.go:443-448` | after this read no session is installed any more |
| `RpcClient.Client.CloseLive` | `internal/adapter/outbound/metadatastore/rabbitmq/conn.go:449-453` | the live attachment goes |
| `RpcClient.Client.Finish` | `internal/adapter/outbound/metadatastore/rabbitmq/conn.go:431-454` | signal, read, close, in that order and each once |
| `RpcClient.OneSessionPerCall` | `internal/adapter/outbound/metadatastore/rabbitmq/conn.go:356-385` | a call publishes on and names the reply queue of one session, whose replies are being read for as long as the call waits |
| `RpcClient.Client.Run` | `internal/adapter/outbound/metadatastore/rabbitmq/conn.go:166-454` | any interleaving of calls, replies, session losses, re-attaches and closes keeps the invariant, and a reply once received is the only one its call ever gets |
| `RpcClient.ClosedIsClosed` | `internal/adapter/outbound/metadatastore/rabbitmq/conn.go:431-454` | for every race of close and re-attach nothing live is consumed after a close, and nothing is open once the supervisor left |
| `CheckpointStore.Store.SaveCheckpoint` | `internal/adapter/outbound/persistence/fileservice/store.go:127-225` | succeeds if and only if fence, encoding and size are right, the row is found and either its file exists and takes the bytes, or it has no pointer but a bucket and file, row and pointer are all written; success means reachable under the one stable pointer and next to be loaded; which failures take effect is stated as exactly |
| `CheckpointStore.Store.SaveFirst` | `internal/adapter/outbound/persistence/fileservice/store.go:162-224` | the pointer is recorded after the file, and the save succeeds if and only if both are |
| `CheckpointStore.Store.Rewrite` | `internal/adapter/outbound/persistence/fileservice/store.go:264-301` | an existing file is replaced exactly as the store replies; a missing file is reported, not made |
| `CheckpointStore.Store.Record` | `internal/adapter/outbound/persistence/metapointer/resolver.go:76-92` | the row keeps every other column; a failed record may or may not have taken effect |
| `CheckpointStore.Store.Run` | `internal/adapter/outbound/persistence/fileservice/store.go:127-261` | over any sequence of saves, loads and index upserts with any failures and any meddling with files: no pointer ever changes, a reported success took effect, every load of an untouched file gives what last took effect, and a document is new only if nothing ever did |
| `CheckpointStore.SavedStays` | `internal/adapter/outbound/persistence/fileservice/store.go:127-261` | what a successful save wrote is what last took effect until the next save of the document that takes effect |
| `CheckpointStore.Store.LoadCheckpoint` | `internal/adapter/outbound/persistence/fileservice/store.go:230-261` | new if and only if the index answers that there is no pointer, loaded if and only if the file is there, sound and within the limit and everything answers; an untouched file gives what last took effect |
| `CheckpointStore.PointerFacts` | `internal/adapter/outbound/persistence/metapointer/resolver.go:38-50` | a document is found to have a file exactly when one was ever recorded, and it is the first one recorded |
| `CheckpointStore.Store.Upsert` | `internal/adapter/outbound/metadatastore/inmemory/store.go:58-78` | a partial writer never blanks a pointer |
| `CheckpointStore.BlankUpsertKeepsAll` | `internal/adapter/outbound/metadatastore/inmemory/store.go:84-107` | an upsert of blanks changes nothing but the version |
| `CheckpointStore.FilledColumnsWin` | `internal/adapter/outbound/metadatastore/inmemory/store.go:84-107` | a filled column replaces what was there, a blank one keeps it, column by column; an upsert is one version more |
| `CheckpointStore.PartialWritersCommute` | `internal/adapter/outbound/metadatastore/inmemory/store.go:84-107` | writers of different columns may come in either order |
| `CheckpointStore.ReadsExactlyTheWritable` | `internal/adapter/outbound/persistence/fileservice/store.go:401-414` | read back whole exactly what may be written: no legal blob refused, no cut one accepted |
| `CheckpointStore.RecordKeeps` | `internal/adapter/outbound/persistence/metapointer/resolver.go:76-92` | a first pointer disturbs no other document's |
| `SizeBudget.Budget.WouldExceed` | `internal/domain/service/room.go:2062-2109` | never accuses wrongly; an update with room for twice its length is passed unmeasured, any other is judged exactly if measuring works; while the estimate is sound the verdict is exact on either path |
| `SizeBudget.Budget.Apply` | `internal/domain/service/room.go:2115-2138` | an estimate not below the truth stays so |
| `SizeBudget.Budget.Take` | `internal/domain/service/room.go:1774-1782` | through local, peer and rejected updates, flushes and reloads with any measurement failing, a sound estimate stays sound if and only if the step is not an accepted, unmeasured update on an unknown estimate whose report falls short of the document |
| `SizeBudget.Budget.Run` | `internal/domain/service/room.go:2040-2061` | over every sequence with any measurements failing, verdicts and document are those of a service that measures every time, as long as the first measurement needed works |
| `SizeBudget.UnmeasuredEstimateLies` | `internal/domain/service/room.go:2077-2084` | a budget on a live document of 6013 bytes whose first two measurements fail then waves 10013 bytes through a limit of 8192 with nothing failing any more |
| `Contributions.Window.Record` | `internal/domain/service/room.go:2028-2038` | an actor is owed a report from its first change on |
| `Contributions.Window.Tick` | `internal/domain/service/presence.go:76-86` | one batch at a time, nobody unaccounted for |
| `Contributions.Window.Emitted` | `internal/domain/service/presence.go:88-94` | a report pays all but those who contributed again |
| `Contributions.Window.Finish` | `internal/domain/service/presence.go:108-118` | only the current flight is finished, its result is always there, a failed batch returns |
| `Contributions.Window.Settle` | `internal/domain/service/presence.go:132-141` | a teardown knows the outcome of the batch under way |
| `Contributions.Window.FlushNow` | `internal/domain/service/presence.go:40-50` | a failed last report keeps its actors |
| `Contributions.Window.Teardown` | `internal/domain/service/room.go:2506-2511` | everything owed is offered once more, except for a deleted document |
| `Contributions.Window.Run` | `internal/domain/service/presence.go:40-141` | over any order of changes, ticks, emissions and completions: as long as no report succeeds, everyone who contributed is still owed one, and no completion ever waits |
| `Contributions.OwedIsHeld` | `internal/domain/service/presence.go:52-63` | owed if and only if in the current set or in the one unsuccessful batch |

## Left out

- RoomLoop.Room.Persist: assumes that encoding the document succeeds; when it fails the source neither counts a failure nor answers requests nor re-arms the timer.
- RoomLoop.Room.HandleWrite: takes the size verdict as an input; `SizeBudget` models the check itself.
- RoomLoop.Room.Forward: says whether the connection was handed an end, not whether the reason could still be written; `Outbound` models the writing.
- RoomLoop.Room.DispatchClose: a shutdown's final flush may fail, and then the edits since the last flush are lost under the code of a shutdown, as the contract says.
- RoomLoop.Room.Panic: happens between steps; a panic in the middle of one leaves registry and document as they then are, but likewise writes nothing.
- RoomLoop.Room.Submit: an acquirer whose command is refused by a queue that stays full still counts as owing it, and a session whose leave is refused as not having left, although both have given up.
- RoomRuns.DesertedRoomIsReleased: an empty room need not have its idle timer armed at every step; what holds is that somebody's command or leave is still to come.
- Outbound.Conn.Run: one patient sender, as in the source; a second one could miss a wake-up, because the token is one bit.
- RpcClient.ClosedIsClosed: that the supervisor leaves is not proved, only that nothing holds it: its stream has ended and its next look at the shutdown mark is its last.
- CheckpointStore.Store.SaveCheckpoint: one save of a document at a time; the order of two concurrent ones is the room's business.
- The lifecycle consumer's session ownership (internal/adapter/inbound/lifecycle/conn.go) is the same protocol as the request/reply client's and has no model of its own.
- Delivery through the hub: publishing, echo suppression and the reading of confirmations.
- The initial handshake batch, heartbeats, publishing to peer processes, metrics other than the connection gauge and the escalation count, read-only reasons, and logging.
- The document library, its two encodings and the sync framing: a set of operations stands for them.
- The rate limiter (its verdict is an input of a frame), authorization (its verdict is an input of a join), configuration, routing, HTTP, JSON and wire formats other than the hub's.
- Several processes serving one document durably, which start-up refuses.
