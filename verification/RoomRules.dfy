/**
 * The vocabulary of the room (internal/domain/service/room.go, flush.go, sync.go): its configuration and
 * verdicts, and what one frame does to registry, traffic and document.
 */
module RoomRules {
  import opened Basics
  import opened Crdt
  import opened Lifecycle
  import opened RoomNet
  import opened RoomLedger
  import opened RoomQueue

  /** Durations are in milliseconds; a value of zero or less disables or defaults as in the source. */
  datatype Config = Config(saveDebounce: int, idleTimeout: int, flushFailureThreshold: int, maxConns: int)

  datatype ApplyResult = ApplyOK | RejectedTooLarge | RejectedSchema | CandidateFailed

  /** What rate limiter, size budget and encoder say to the command in hand. */
  datatype Oracle = Oracle(allowed: bool, fits: bool, encodes: bool)

  /** How the two stores of a flush reply. */
  datatype Stores = Stores(checkpoint: Reply, index: Reply)

  /** What came of one flush attempt. */
  datatype FlushOutcome = Clean | Saved | Retrying | Escalated

  const DEFAULT_FLUSH_FAILURE_THRESHOLD := 5

  const FLUSH_RETRY_MAX_SHIFT := 5

  const MAX_FLUSH_RETRY_BACKOFF := 30_000

  function Threshold(cfg: Config): (t: nat)
    ensures t > 0
  {
    if cfg.flushFailureThreshold <= 0 then DEFAULT_FLUSH_FAILURE_THRESHOLD else cfg.flushFailureThreshold
  }

  function Shifted(base: nat, shift: nat): nat {
    if shift == 0 then base else 2 * Shifted(base, shift - 1)
  }

  /** The wait before the retry that follows the `failures`-th consecutive failed flush. */
  function RetryBackoff(debounce: nat, failures: nat): (wait: nat)
    requires failures > 0
    ensures wait <= 30_000
  {
    var shift := if failures - 1 < FLUSH_RETRY_MAX_SHIFT then failures - 1 else FLUSH_RETRY_MAX_SHIFT;
    var backoff := Shifted(debounce, shift);
    if backoff > MAX_FLUSH_RETRY_BACKOFF then MAX_FLUSH_RETRY_BACKOFF else backoff
  }

  lemma {:induction false} ShiftedGrows(base: nat, low: nat, high: nat)
    requires low <= high
    ensures base <= Shifted(base, low) <= Shifted(base, high)
    decreases low + high
  {
    if low < high {
      ShiftedGrows(base, low, high - 1);
    } else if low > 0 {
      ShiftedGrows(base, low - 1, high - 1);
    }
  }

  /** Retries never come hotter: the first waits a debounce, later ones no less than earlier ones, none more than thirty seconds. */
  lemma RetryWaitsGrow(debounce: nat, earlier: nat, later: nat)
    requires 0 < earlier <= later
    ensures RetryBackoff(debounce, 1) == if debounce > MAX_FLUSH_RETRY_BACKOFF then MAX_FLUSH_RETRY_BACKOFF else debounce
    ensures RetryBackoff(debounce, earlier) <= RetryBackoff(debounce, later) <= MAX_FLUSH_RETRY_BACKOFF
    ensures debounce > 0 ==> RetryBackoff(debounce, earlier) > 0
  {
    var low := if earlier - 1 < FLUSH_RETRY_MAX_SHIFT then earlier - 1 else FLUSH_RETRY_MAX_SHIFT;
    var high := if later - 1 < FLUSH_RETRY_MAX_SHIFT then later - 1 else FLUSH_RETRY_MAX_SHIFT;
    ShiftedGrows(debounce, low, high);
  }

  /** The waits double up to the sixth failure and stay there, and thirty seconds caps them all. */
  lemma RetryWaitsDouble(debounce: nat, failures: nat)
    requires failures > 0
    ensures RetryBackoff(debounce, 1) == if debounce > 30_000 then 30_000 else debounce
    ensures var doubled := 2 * RetryBackoff(debounce, failures);
            RetryBackoff(debounce, failures + 1) ==
              if failures >= 6 then RetryBackoff(debounce, failures) else if doubled > 30_000 then 30_000 else doubled
  {
    assert failures < 6 ==> Shifted(debounce, failures) == 2 * Shifted(debounce, failures - 1);
  }

  function AnswerTo(r: Request, persisted: bool): Frame {
    if persisted then PersistedFrame(r) else PersistFailedFrame(r)
  }

  /** Everything that can happen around a room. */
  datatype Event =
    | Dispatching(oracle: Oracle, stores: Stores)
    | SaveTimeout(stores: Stores)
    | IdleTimeout(stores: Stores)
    | PeerUpdated(update: Update)
    | PeerFramed(peerFrame: ClientFrame)
    | Panicked
    | Forwarding(k: ConnId, frame: ClientFrame, edits: Doc, admitted: bool)
    | Submitting(command: Command, taken: bool)
    | Acquiring
    | Passing(now: nat)

  /** Whoever waited for a flush and still takes frames was told its content is stored. */
  ghost predicate ToldPersisted(a: Net, n: Net) {
    forall k | k in a.members && a.members[k].barrier.Some? && (k in n.members || k !in n.shed) ::
      Sent(n, k, PersistedFrame(a.members[k].barrier.value)) > 0
  }

  /** Whoever waited for a flush and still takes frames was told it failed. */
  ghost predicate ToldFailed(a: Net, n: Net) {
    forall k | k in a.members && a.members[k].barrier.Some? && (k in n.members || k !in n.shed) ::
      Sent(n, k, PersistFailedFrame(a.members[k].barrier.value)) > 0
  }

  /** A limit is set and reached. */
  ghost predicate Crowded(n: Net, limit: int) {
    limit > 0 && |n.members| >= limit
  }

  /** Every visible member was sent one more of this frame. */
  ghost predicate Told(a: Net, n: Net, f: Frame) {
    forall k | k in n.members && !n.members[k].pending && k != 0 :: Sent(n, k, f) > Sent(a, k, f)
  }

  /** The only end this step can have handed out is this one, to this session. */
  ghost predicate EndsWith(a: Net, b: Net, src: ConnId, code: EndCode) {
    b.ends == a.ends || (src !in a.ends && b.ends == a.ends[src := code])
  }

  /** Nothing that was sent is taken back, and a connection that takes nothing stays so. */
  ghost predicate Grown(a: Net, b: Net) {
    && (forall k, f {:trigger Sent(b, k, f)} :: Sent(a, k, f) <= Sent(b, k, f))
    && a.shed <= b.shed
  }

  /** Whoever else is still a member is exactly as before, its role, visibility, client and request included. */
  ghost predicate OthersKept(a: Net, b: Net, src: ConnId) {
    forall k | k in b.members && k != src :: k in a.members && b.members[k] == a.members[k]
  }

  /** The request the session had outstanding was answered as failed, unless its connection takes nothing any more. */
  ghost predicate RequestFailed(a: Net, b: Net, src: ConnId) {
    src in a.members && a.members[src].barrier.Some? ==>
      src in b.shed || Sent(b, src, PersistFailedFrame(a.members[src].barrier.value)) > 0
  }

  /** A session is refused: it is gone with the code, its outstanding request failed, everyone else untouched. */
  ghost predicate Refused(a: Net, b: Net, src: ConnId, code: EndCode) {
    src !in b.members && EndsWith(a, b, src, code) && RequestFailed(a, b, src) && OthersKept(a, b, src)
  }

  /** The session was told that its update was rejected, unless its connection takes nothing any more. */
  ghost predicate Notified(a: Net, b: Net, src: ConnId) {
    src in b.shed || Sent(b, src, UpdateRejectedFrame) > Sent(a, src, UpdateRejectedFrame)
  }

  /** The document grew, and everyone visible but the author was sent exactly what is new. */
  ghost predicate Spread(a: Net, b: Net, src: ConnId, before: Doc, after: Doc) {
    if after == before then b == a else Casted(a, b, {}, {}, ToAll(a.members, src, UpdateFrame(after - before)))
  }

  /**
   * A write takes effect in full, not at all, or not at all and with its session: size first, then
   * whether it decodes, then the schema of what the document would become.
   */
  ghost predicate WriteEffect(a: Net, b: Net, src: ConnId, frame: ClientFrame, fits: bool, content: ContentType, before: Doc, after: Doc)
    requires src in a.members && IsWrite(frame)
  {
    if a.members[src].mode == Viewer && frame.SyncStep2? && frame.canonicalEmpty then after == before && b == a
    else if a.members[src].mode == Viewer then after == before && Refused(a, b, src, Forbidden)
    else if !fits then after == before && Refused(a, b, src, DocumentSizeLimitExceeded)
    else if content != Unrecognized && frame.update.Truncated? then after == before && b == a
    else if frame.update.Decodable? && !ValidContent(content, before + frame.update.ops) then
      after == before && Refused(a, b, src, ContentRefused) && Notified(a, b, src)
    else after == before + Touched(frame.update) && Spread(a, b, src, before, after)
  }

  ghost predicate SyncEffect(a: Net, b: Net, src: ConnId, frame: ClientFrame, fits: bool, content: ContentType, before: Doc, after: Doc)
    requires src in a.members && (frame.SyncStep1? || frame.SyncInvalid? || IsWrite(frame))
  {
    match frame
    case SyncStep1(known) => after == before && Casted(a, b, {src}, {}, map[src := SyncStep2Reply(before - known)])
    case SyncInvalid => after == before && b == a
    case _ => WriteEffect(a, b, src, frame, fits, content, before, after)
  }

  /** `trackAwarenessID` as a value. */
  function Tracked(n: Net, src: ConnId, first: Option<ClientId>): Net {
    if src !in n.members || first.None? || n.members[src].client.Some? then n
    else n.(members := n.members[src := n.members[src].(client := first)], owners := n.owners[first.value := src])
  }

  /** What an awareness frame changes before it is passed on. */
  function Announced(n: Net, src: ConnId, frame: ClientFrame): Net {
    if frame.Awareness? then Tracked(n.(presence := n.presence + frame.online - frame.offline), src, frame.first) else n
  }

  function RelayFrame(frame: ClientFrame): Frame {
    if frame.Awareness? then AwarenessFrame(frame.first) else EphemeralFrame
  }

  ghost predicate Relayed(a: Net, b: Net, src: ConnId, frame: ClientFrame) {
    var c := Announced(a, src, frame);
    Casted(c, b, {}, {}, ToAll(c.members, src, RelayFrame(frame)))
  }

  /** A request is only ever promised something by a writer's unbroken session. */
  ghost predicate RequestEffect(a: Net, b: Net, src: ConnId, pos: nat, id: Option<nat>, sessionDropped: bool, dirty: bool, periodic: bool)
    requires src in a.members
  {
    if id.None? then b == a
    else
      var r, m := Request(id.value, pos), a.members[src];
      var trusted := m.mode == Collaborator && !m.poisoned && !sessionDropped && m.barrier.None?;
      if trusted && !dirty then Casted(a, b, {src}, {}, map[src := PersistedFrame(r)])
      else if trusted && periodic then b == a.(members := a.members[src := m.(barrier := Some(r))])
      else Casted(a, b, {src}, {}, map[src := PersistFailedFrame(r)])
  }

  /** What one frame of a registered session does, once the rate limit let it through. */
  ghost predicate FrameEffect(a: Net, b: Net, src: ConnId, pos: nat, frame: ClientFrame, sessionDropped: bool, dirty: bool, periodic: bool,
                              fits: bool, content: ContentType, before: Doc, after: Doc)
    requires src in a.members
  {
    match frame
    case SyncStep1(_) | SyncStep2(_, _) | SyncUpdate(_) | SyncInvalid => SyncEffect(a, b, src, frame, fits, content, before, after)
    case Awareness(_, _, _) | Ephemeral => after == before && Relayed(a, b, src, frame)
    case DurabilityRequest(id) => after == before && RequestEffect(a, b, src, pos, id, sessionDropped, dirty, periodic)
    case Malformed | AwarenessInvalid | UnknownType => after == before && b == a
  }

  /** What one frame does: nothing for a session that is gone, the end for one over its rate. */
  ghost predicate MessageEffect(a: Net, b: Net, c: Command, o: Oracle, dirty: bool, periodic: bool, content: ContentType, before: Doc, after: Doc)
    requires c.CmdMessage?
  {
    if c.src !in a.members then after == before && b == a
    else if !o.allowed then after == before && c.src !in b.members && EndsWith(a, b, c.src, UpdateRateExceeded)
    else FrameEffect(a, b, c.src, c.pos, c.frame, c.sessionDropped, dirty, periodic, o.fits, content, before, after)
  }

  /** The event does not submit a join that declares the document multi-user. */
  predicate SingleEvent(e: Event) {
    e.Submitting? && e.command.CmdJoin? ==> e.command.isMultiUser != Some(true)
  }
}
