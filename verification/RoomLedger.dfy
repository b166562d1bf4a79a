/**
 * What the room owes each session, as an invariant over the registry, the traffic, the live and the
 * stored document and the history of every session's frames; and that every cascade keeps it.
 */
module RoomLedger {
  import opened Basics
  import opened Crdt
  import opened RoomNet

  /** What a session forwards. */
  datatype ClientFrame =
    | Malformed
    | SyncStep1(known: Doc)
    | SyncStep2(update: Update, canonicalEmpty: bool)
    | SyncUpdate(update: Update)
    | SyncInvalid
    | Awareness(first: Option<ClientId>, online: set<ClientId>, offline: set<ClientId>)
    | AwarenessInvalid
    | Ephemeral
    | DurabilityRequest(id: Option<nat>)
    | UnknownType

  /**
   * The history of one session: `sent` is every frame handed to `Forward`, `refused` the positions
   * the command queue did not take, `handled` and `settled` how far the run loop started and
   * finished, `own` the operations the client holds by itself, and `synced` whether it had a
   * SyncStep1 answered after its activation.
   */
  datatype Session = Session(
    sent: seq<ClientFrame>,
    refused: set<nat>,
    handled: nat,
    settled: nat,
    own: Doc,
    synced: bool)

  type History = map<ConnId, Session>

  datatype Docs = Docs(live: Doc, stored: Doc)

  function OpsOf(f: Frame): Doc {
    match f
    case SyncStep2Reply(ops) => ops
    case UpdateFrame(ops) => ops
    case _ => {}
  }

  /** The operations a connection was sent. */
  function Received(log: seq<Frame>): Doc {
    set f, o | f in log && o in OpsOf(f) :: o
  }

  predicate IsWrite(f: ClientFrame) {
    f.SyncStep2? || f.SyncUpdate?
  }

  /** A decodable update is in the document. */
  predicate Landed(f: ClientFrame, doc: Doc) {
    IsWrite(f) && f.update.Decodable? ==> f.update.ops <= doc
  }

  function Answers(n: Net, k: ConnId, r: Request): nat {
    Sent(n, k, PersistedFrame(r)) + Sent(n, k, PersistFailedFrame(r))
  }

  ghost predicate SessionOk(s: Session) {
    && s.settled <= s.handled <= |s.sent|
    && (forall q | q in s.refused :: q < |s.sent|)
    && (forall f | f in s.sent && IsWrite(f) :: Touched(f.update) <= s.own)
    && (forall f | f in s.sent && f.SyncStep2? && f.canonicalEmpty :: f.update == Decodable({}))
  }

  ghost predicate HistoryOk(h: History) {
    forall k | k in h :: SessionOk(h[k])
  }

  /** Nobody was sent an operation the document does not have. */
  ghost predicate Truthful(n: Net, live: Doc) {
    forall k | k in n.log :: Received(n.log[k]) <= live
  }

  /** A state vector only claims operations its client holds or has been sent. */
  ghost predicate Honest(n: Net, h: History) {
    forall k, f | k in h && k in n.log && f in h[k].sent && f.SyncStep1? :: f.known <= h[k].own + Received(n.log[k])
  }

  /** A synchronised member has, or is about to be handed, everything in the document. */
  ghost predicate Converged(n: Net, h: History, live: Doc) {
    forall k | k in n.members && k in h && h[k].synced ::
      k in n.log && !n.members[k].pending && live <= h[k].own + Received(n.log[k])
  }

  /** Position `q` was taken by the room and has been dealt with. */
  predicate Finished(s: Session, q: nat) {
    q < s.settled && q < |s.sent| && q !in s.refused
  }

  /** Every update a registered session got through to the room is in the document. */
  ghost predicate Settled(n: Net, h: History, live: Doc) {
    forall k, q: nat | k in n.members && k in h && Finished(h[k], q) :: Landed(h[k].sent[q], live)
  }

  /** No earlier frame of the session was lost, and every earlier update it made is stored. */
  ghost predicate Covered(h: History, stored: Doc, k: ConnId, p: nat) {
    && k in h && p <= |h[k].sent|
    && forall q | 0 <= q < p :: q !in h[k].refused && Landed(h[k].sent[q], stored)
  }

  /**
   * Every answer the room gave is the only one to its request, and whoever was told `persisted` had
   * lost no frame before the request and has every update it made before it in `stored`.
   */
  ghost predicate AnswersStand(n: Net, h: History, stored: Doc) {
    forall k, r {:trigger Answers(n, k, r)} | k in n.log ::
      && Answers(n, k, r) <= 1
      && (Sent(n, k, PersistedFrame(r)) > 0 ==> Covered(h, stored, k, r.pos))
  }

  /** Answers stand, and none is given ahead of its request. */
  ghost predicate AnswersOk(n: Net, h: History, stored: Doc) {
    && AnswersStand(n, h, stored)
    && forall k, r: Request {:trigger Answers(n, k, r)} | k in n.log && k in h && r.pos >= h[k].handled :: Answers(n, k, r) == 0
  }

  ghost predicate Parked(n: Net, h: History, k: ConnId)
    requires k in n.members && n.members[k].barrier.Some?
  {
    var r := n.members[k].barrier.value;
    && Answers(n, k, r) == 0
    && k in h && r.pos < h[k].handled && r.pos <= h[k].settled && r.pos < |h[k].sent|
    && h[k].sent[r.pos] == DurabilityRequest(Some(r.id))
    && (forall q | q in h[k].refused :: q >= r.pos)
  }

  ghost predicate ParkedOk(n: Net, h: History) {
    forall k | k in n.members && n.members[k].barrier.Some? :: Parked(n, h, k)
  }

  /** A registered session's valid request is parked or answered. */
  ghost predicate Accounted(n: Net, k: ConnId, q: nat, f: ClientFrame)
    requires k in n.members
  {
    f.DurabilityRequest? && f.id.Some? ==>
      n.members[k].barrier == Some(Request(f.id.value, q)) || Answers(n, k, Request(f.id.value, q)) == 1
  }

  ghost predicate NothingForgotten(n: Net, h: History) {
    forall k, q: nat | k in n.members && k in h && Finished(h[k], q) :: Accounted(n, k, q, h[k].sent[q])
  }

  /** What holds of a room's past even after it ended. */
  ghost predicate PastOk(n: Net, h: History, d: Docs) {
    && HistoryOk(h) && d.stored <= d.live
    && n.log.Keys <= h.Keys
    && Truthful(n, d.live)
    && Honest(n, h)
    && AnswersOk(n, h, d.stored)
  }

  ghost predicate LedgerOk(n: Net, h: History, d: Docs) {
    && NetOk(n) && PastOk(n, h, d)
    && Converged(n, h, d.live)
    && Settled(n, h, d.live)
    && ParkedOk(n, h)
    && NothingForgotten(n, h)
  }

  predicate IsAnswer(f: Frame) {
    f.PersistedFrame? || f.PersistFailedFrame?
  }

  predicate NoAnswers(post: map<ConnId, Frame>) {
    forall k | k in post :: !IsAnswer(post[k])
  }

  predicate NoContent(post: map<ConnId, Frame>, live: Doc) {
    forall k | k in post :: OpsOf(post[k]) <= live
  }

  /** What a cascade adds to a connection's received operations. */
  lemma ReceivedCast(a: Net, b: Net, hit: set<ConnId>, gone: set<ConnId>, post: map<ConnId, Frame>, k: ConnId)
    requires Casted(a, b, hit, gone, post) && k in a.log
    ensures k in b.log && Received(a.log[k]) <= Received(b.log[k])
    ensures Received(b.log[k]) <= Received(a.log[k]) + (if k in post then OpsOf(post[k]) else {})
    ensures k in b.members && k in post ==> OpsOf(post[k]) <= Received(b.log[k])
  {
    forall f | f in a.log[k] ensures f in b.log[k] {
      assert Sent(a, k, f) <= Sent(b, k, f);
    }
    forall f | f in b.log[k] && f !in a.log[k] ensures f.RemovalFrame? || (k in post && f == post[k]) {
      assert Sent(b, k, f) <= Sent(a, k, f) + Posted(post, k, f) + Evicted(a, b, k, f);
    }
    if k in b.members && k in post {
      assert Sent(b, k, post[k]) == Sent(a, k, post[k]) + Posted(post, k, post[k]) + Evicted(a, b, k, post[k]);
      assert post[k] in b.log[k];
    }
  }

  lemma AnswersCast(a: Net, b: Net, hit: set<ConnId>, gone: set<ConnId>, post: map<ConnId, Frame>, k: ConnId, r: Request)
    requires Casted(a, b, hit, gone, post)
    requires k in post ==> !IsAnswer(post[k]) || (post[k].req != r)
    ensures Answers(b, k, r) == Answers(a, k, r)
    ensures Sent(b, k, PersistedFrame(r)) == Sent(a, k, PersistedFrame(r))
  {
    assert Posted(post, k, PersistedFrame(r)) == 0 && Posted(post, k, PersistFailedFrame(r)) == 0;
  }

  lemma TruthfulCast(a: Net, b: Net, h: History, live: Doc, hit: set<ConnId>, gone: set<ConnId>, post: map<ConnId, Frame>)
    requires Truthful(a, live) && Honest(a, h) && Casted(a, b, hit, gone, post) && NoContent(post, live)
    ensures Truthful(b, live) && Honest(b, h)
  {
    forall k | k in b.log ensures Received(a.log[k]) <= Received(b.log[k]) <= live {
      ReceivedCast(a, b, hit, gone, post, k);
    }
  }

  lemma PastCast(a: Net, b: Net, h: History, d: Docs, hit: set<ConnId>, gone: set<ConnId>, post: map<ConnId, Frame>)
    requires PastOk(a, h, d) && Casted(a, b, hit, gone, post) && NoAnswers(post) && NoContent(post, d.live)
    ensures PastOk(b, h, d)
  {
    TruthfulCast(a, b, h, d.live, hit, gone, post);
    forall k, r | k in b.log
      ensures && Answers(b, k, r) <= 1
              && (Sent(b, k, PersistedFrame(r)) > 0 ==> Covered(h, d.stored, k, r.pos))
              && (k in h && r.pos >= h[k].handled ==> Answers(b, k, r) == 0)
    {
      AnswersCast(a, b, hit, gone, post, k, r);
    }
  }

  lemma ConvergedCast(a: Net, b: Net, h: History, live: Doc, hit: set<ConnId>, gone: set<ConnId>, post: map<ConnId, Frame>)
    requires Converged(a, h, live) && Casted(a, b, hit, gone, post)
    ensures Converged(b, h, live)
  {
    forall k | k in b.members && k in h && h[k].synced
      ensures k in b.log && !b.members[k].pending && live <= h[k].own + Received(b.log[k])
    {
      assert k in a.members && k in a.log;
      ReceivedCast(a, b, hit, gone, post, k);
    }
  }

  lemma SettledCast(a: Net, b: Net, h: History, live: Doc, hit: set<ConnId>, gone: set<ConnId>, post: map<ConnId, Frame>)
    requires Settled(a, h, live) && Casted(a, b, hit, gone, post)
    ensures Settled(b, h, live)
  {}

  lemma ParkedCast(a: Net, b: Net, h: History, hit: set<ConnId>, gone: set<ConnId>, post: map<ConnId, Frame>)
    requires ParkedOk(a, h) && NothingForgotten(a, h) && Casted(a, b, hit, gone, post) && NoAnswers(post)
    ensures ParkedOk(b, h) && NothingForgotten(b, h)
  {
    forall k | k in b.members && b.members[k].barrier.Some? ensures Parked(b, h, k) {
      assert Parked(a, h, k);
      AnswersCast(a, b, hit, gone, post, k, a.members[k].barrier.value);
    }
    forall k, q: nat | k in b.members && k in h && Finished(h[k], q) ensures Accounted(b, k, q, h[k].sent[q]) {
      var f := h[k].sent[q];
      assert Accounted(a, k, q, f);
      if f.DurabilityRequest? && f.id.Some? {
        AnswersCast(a, b, hit, gone, post, k, Request(f.id.value, q));
      }
    }
  }

  /** Anything that sends no answer and nothing beyond the document keeps the ledger, whoever it sheds on the way. */
  lemma NeutralCast(a: Net, b: Net, h: History, d: Docs, hit: set<ConnId>, gone: set<ConnId>, post: map<ConnId, Frame>)
    requires LedgerOk(a, h, d) && NetOk(b)
    requires Casted(a, b, hit, gone, post) && NoAnswers(post) && NoContent(post, d.live)
    ensures LedgerOk(b, h, d)
  {
    PastCast(a, b, h, d, hit, gone, post);
    ConvergedCast(a, b, h, d.live, hit, gone, post);
    ParkedCast(a, b, h, hit, gone, post);
  }

  lemma ConvergedUpdate(a: Net, b: Net, h: History, live: Doc, src: ConnId, ops: Doc)
    requires Converged(a, h, live) && a.members.Keys <= a.log.Keys
    requires src in h ==> ops <= h[src].own
    requires Casted(a, b, {}, {}, ToAll(a.members, src, UpdateFrame(ops - live)))
    ensures Converged(b, h, live + ops)
  {
    var post := ToAll(a.members, src, UpdateFrame(ops - live));
    forall k | k in b.members && k in h && h[k].synced
      ensures k in b.log && !b.members[k].pending && live + ops <= h[k].own + Received(b.log[k])
    {
      ReceivedCast(a, b, {}, {}, post, k);
      if k != src {
        assert OpsOf(post[k]) == ops - live;
      }
    }
  }

  lemma DocumentGrows(n: Net, h: History, d: Docs, live: Doc)
    requires PastOk(n, h, d) && Settled(n, h, d.live) && d.live <= live
    ensures PastOk(n, h, Docs(live, d.stored)) && Settled(n, h, live)
  {}

  /** The document grew and every visible member but the author was sent what is new. */
  lemma UpdateCast(a: Net, b: Net, h: History, d: Docs, src: ConnId, ops: Doc)
    requires LedgerOk(a, h, d) && NetOk(b)
    requires src in h ==> ops <= h[src].own
    requires Casted(a, b, {}, {}, ToAll(a.members, src, UpdateFrame(ops - d.live)))
    ensures LedgerOk(b, h, Docs(d.live + ops, d.stored))
  {
    hide Casted, HistoryOk, Truthful, Honest, AnswersOk, Converged, Settled, ParkedOk, NothingForgotten;
    var post := ToAll(a.members, src, UpdateFrame(ops - d.live));
    DocumentGrows(a, h, d, d.live + ops);
    PastCast(a, b, h, Docs(d.live + ops, d.stored), {}, {}, post);
    ParkedCast(a, b, h, {}, {}, post);
    ConvergedUpdate(a, b, h, d.live, src, ops);
    SettledCast(a, b, h, d.live + ops, {}, {}, post);
  }

  lemma ConvergedCatchUp(a: Net, b: Net, h: History, live: Doc, src: ConnId, known: Doc)
    requires Converged(b, h, live) && src in a.members && src in a.log && src in h
    requires known <= h[src].own + Received(a.log[src])
    requires Casted(a, b, {src}, {}, map[src := SyncStep2Reply(live - known)])
    requires src in b.members && !b.members[src].pending
    ensures Converged(b, h[src := h[src].(synced := true)], live)
  {
    ReceivedCast(a, b, {src}, {}, map[src := SyncStep2Reply(live - known)], src);
  }

  /** Answering a SyncStep1 of an activated member hands it everything it did not claim. */
  lemma CatchUpCast(a: Net, b: Net, h: History, d: Docs, src: ConnId, known: Doc)
    requires LedgerOk(a, h, d) && NetOk(b) && src in a.members && src in h
    requires known <= h[src].own + Received(a.log[src])
    requires Casted(a, b, {src}, {}, map[src := SyncStep2Reply(d.live - known)])
    ensures LedgerOk(b, h, d)
    ensures src in b.members && !b.members[src].pending ==> LedgerOk(b, h[src := h[src].(synced := true)], d)
  {
    hide Casted, HistoryOk, Truthful, Honest, AnswersOk, Settled, ParkedOk, NothingForgotten;
    NeutralCast(a, b, h, d, {src}, {}, map[src := SyncStep2Reply(d.live - known)]);
    if src in b.members && !b.members[src].pending {
      ConvergedCatchUp(a, b, h, d.live, src, known);
      Relabel(b, h, h[src := h[src].(synced := true)], d);
    }
  }

  /** Nothing but `synced` changed. */
  lemma Relabel(n: Net, h: History, g: History, d: Docs)
    requires LedgerOk(n, h, d)
    requires g.Keys == h.Keys
    requires forall k | k in h :: g[k] == h[k].(synced := g[k].synced)
    requires Converged(n, g, d.live)
    ensures LedgerOk(n, g, d)
  {
    forall k, p | Covered(h, d.stored, k, p) ensures Covered(g, d.stored, k, p) {}
    forall k | k in n.members && n.members[k].barrier.Some? ensures Parked(n, g, k) {
      assert Parked(n, h, k);
    }
    RelabelPast(n, h, g, d);
  }

  lemma RelabelPast(n: Net, h: History, g: History, d: Docs)
    requires PastOk(n, h, d)
    requires g.Keys == h.Keys
    requires forall k | k in h :: g[k] == h[k].(synced := g[k].synced)
    ensures PastOk(n, g, d)
  {
    forall k, r | k in n.log && Sent(n, k, PersistedFrame(r)) > 0 ensures Covered(g, d.stored, k, r.pos) {
      assert Answers(n, k, r) <= 1;
    }
  }

  /** Both stores accepted the whole live document. */
  lemma StoredGrows(n: Net, h: History, d: Docs)
    requires PastOk(n, h, d)
    ensures PastOk(n, h, Docs(d.live, d.live))
  {
    forall k, r | k in n.log && Sent(n, k, PersistedFrame(r)) > 0 ensures Covered(h, d.live, k, r.pos) {
      assert Answers(n, k, r) <= 1;
    }
  }

  // --- Answers ---------------------------------------------------------------------------------

  function Cleared(n: Net, id: ConnId): Net
    requires id in n.members
  {
    n.(members := n.members[id := n.members[id].(barrier := None)])
  }

  lemma ClearedOk(n: Net, id: ConnId)
    requires NetOk(n) && id in n.members
    ensures NetOk(Cleared(n, id))
  {
    assert ActiveIds(Cleared(n, id).members) == ActiveIds(n.members);
  }

  predicate AnswersRequest(f: Frame, r: Request) {
    IsAnswer(f) && f.req == r
  }

  lemma AnswersOne(a: Net, b: Net, id: ConnId, f: Frame, r: Request)
    requires Casted(a, b, {id}, {}, map[id := f]) && AnswersRequest(f, r)
    ensures Answers(a, id, r) <= Answers(b, id, r) <= Answers(a, id, r) + 1
    ensures id in b.members ==> Answers(b, id, r) == Answers(a, id, r) + 1
    ensures Sent(b, id, PersistedFrame(r)) <= Sent(a, id, PersistedFrame(r)) + (if f.PersistedFrame? then 1 else 0)
  {
    var post := map[id := f];
    assert Posted(post, id, PersistedFrame(r)) + Posted(post, id, PersistFailedFrame(r)) == 1;
  }

  /** A first answer to a request keeps the ledger of the past, provided `persisted` is only said when it is so. */
  lemma PastAnswer(a: Net, b: Net, h: History, d: Docs, id: ConnId, f: Frame, r: Request)
    requires PastOk(a, h, d) && Casted(a, b, {id}, {}, map[id := f]) && AnswersRequest(f, r)
    requires id in h && r.pos < h[id].handled && Answers(a, id, r) == 0
    requires f.PersistedFrame? ==> Covered(h, d.stored, id, r.pos)
    ensures PastOk(b, h, d)
  {
    TruthfulCast(a, b, h, d.live, {id}, {}, map[id := f]);
    forall k, s | k in b.log
      ensures && Answers(b, k, s) <= 1
              && (Sent(b, k, PersistedFrame(s)) > 0 ==> Covered(h, d.stored, k, s.pos))
              && (k in h && s.pos >= h[k].handled ==> Answers(b, k, s) == 0)
    {
      assert Answers(a, k, s) <= 1;
      if k == id && s == r {
        AnswersOne(a, b, id, f, r);
      } else {
        AnswersCast(a, b, {id}, {}, map[id := f], k, s);
      }
    }
  }

  lemma ParkedAfterAnswer(a: Net, b: Net, h: History, id: ConnId, f: Frame, r: Request)
    requires ParkedOk(a, h) && id in a.members
    requires a.members[id].barrier.Some? ==> a.members[id].barrier.value != r
    requires Casted(a, b, {id}, {}, map[id := f]) && AnswersRequest(f, r)
    ensures ParkedOk(b, h)
  {
    forall k | k in b.members && b.members[k].barrier.Some? ensures Parked(b, h, k) {
      assert Parked(a, h, k);
      AnswersCast(a, b, {id}, {}, map[id := f], k, b.members[k].barrier.value);
    }
  }

  /** Answering a request only ever completes the account of its own session. */
  lemma AccountAfterAnswer(a: Net, b: Net, id: ConnId, f: Frame, r: Request, k: ConnId, q: nat, g: ClientFrame)
    requires k in b.members && k in a.members && b.members[k] == a.members[k]
    requires Accounted(a, k, q, g) || (k == id && g == DurabilityRequest(Some(r.id)) && q == r.pos)
    requires Casted(a, b, {id}, {}, map[id := f]) && AnswersRequest(f, r) && Answers(a, id, r) == 0
    ensures Accounted(b, k, q, g)
  {
    if g.DurabilityRequest? && g.id.Some? {
      var s := Request(g.id.value, q);
      if k == id && s == r {
        AnswersOne(a, b, id, f, r);
      } else {
        AnswersCast(a, b, {id}, {}, map[id := f], k, s);
      }
    }
  }

  lemma ClearedParked(a: Net, h: History, id: ConnId)
    requires ParkedOk(a, h) && id in a.members
    ensures ParkedOk(Cleared(a, id), h)
  {
    var m := Cleared(a, id);
    forall k | k in m.members && m.members[k].barrier.Some? ensures Parked(m, h, k) {
      assert Parked(a, h, k);
      assert Answers(m, k, m.members[k].barrier.value) == Answers(a, k, m.members[k].barrier.value);
    }
  }

  lemma IsParked(n: Net, h: History, id: ConnId)
    requires ParkedOk(n, h) && id in n.members && n.members[id].barrier.Some?
    ensures Parked(n, h, id)
  {}

  lemma ClearedConverged(a: Net, h: History, live: Doc, id: ConnId)
    requires Converged(a, h, live) && id in a.members
    ensures Converged(Cleared(a, id), h, live)
  {}

  lemma CastedShrinks(a: Net, b: Net, hit: set<ConnId>, gone: set<ConnId>, post: map<ConnId, Frame>)
    requires Casted(a, b, hit, gone, post)
    ensures b.members.Keys <= a.members.Keys
  {}

  lemma ClearedPast(a: Net, h: History, d: Docs, id: ConnId)
    requires PastOk(a, h, d) && id in a.members
    ensures PastOk(Cleared(a, id), h, d)
    ensures forall k, r :: Answers(Cleared(a, id), k, r) == Answers(a, k, r)
  {
    forall k, r ensures Answers(Cleared(a, id), k, r) == Answers(a, k, r) {}
  }

  lemma ForgottenAfterAnswer(a: Net, b: Net, h: History, id: ConnId, f: Frame)
    requires NothingForgotten(a, h) && ParkedOk(a, h)
    requires id in a.members && a.members[id].barrier.Some? && AnswersRequest(f, a.members[id].barrier.value)
    requires Casted(Cleared(a, id), b, {id}, {}, map[id := f])
    ensures NothingForgotten(b, h)
  {
    var r := a.members[id].barrier.value;
    assert Parked(a, h, id);
    forall k, q: nat | k in b.members && k in h && Finished(h[k], q) ensures Accounted(b, k, q, h[k].sent[q]) {
      var g := h[k].sent[q];
      assert Accounted(a, k, q, g);
      AccountAfterAnswer(Cleared(a, id), b, id, f, r, k, q, g);
    }
  }

  /** Answering a parked request: the barrier is cleared first, the answer is sent second. */
  lemma ParkedAnswer(a: Net, b: Net, h: History, d: Docs, id: ConnId, f: Frame)
    requires LedgerOk(a, h, d) && NetOk(b)
    requires id in a.members && a.members[id].barrier.Some? && AnswersRequest(f, a.members[id].barrier.value)
    requires Casted(Cleared(a, id), b, {id}, {}, map[id := f])
    requires f.PersistedFrame? ==> Covered(h, d.stored, id, a.members[id].barrier.value.pos)
    ensures LedgerOk(b, h, d)
  {
    hide Casted, PastOk, HistoryOk, Converged, ParkedOk, NothingForgotten, Covered;
    var m := Cleared(a, id);
    var r := a.members[id].barrier.value;
    IsParked(a, h, id);
    ClearedPast(a, h, d, id);
    ClearedConverged(a, h, d.live, id);
    CastedShrinks(m, b, {id}, {}, map[id := f]);
    PastAnswer(m, b, h, d, id, f, r);
    ConvergedCast(m, b, h, d.live, {id}, {}, map[id := f]);
    ClearedParked(a, h, id);
    ParkedAfterAnswer(m, b, h, id, f, r);
    ForgottenAfterAnswer(a, b, h, id, f);
  }

  /** A parked request is covered the moment the live document is the stored one. */
  lemma ParkedIsCovered(n: Net, h: History, live: Doc, id: ConnId)
    requires Settled(n, h, live) && HistoryOk(h)
    requires id in n.members && n.members[id].barrier.Some? && Parked(n, h, id)
    ensures Covered(h, live, id, n.members[id].barrier.value.pos)
  {
    var r := n.members[id].barrier.value;
    forall q | 0 <= q < r.pos ensures q !in h[id].refused && Landed(h[id].sent[q], live) {
      assert Finished(h[id], q);
    }
  }

  lemma ForgottenAfterImmediate(a: Net, b: Net, h: History, id: ConnId, f: Frame, r: Request)
    requires NothingForgotten(a, h) && Answers(a, id, r) == 0
    requires Casted(a, b, {id}, {}, map[id := f]) && AnswersRequest(f, r)
    ensures NothingForgotten(b, h)
  {
    forall k, q: nat | k in b.members && k in h && Finished(h[k], q) ensures Accounted(b, k, q, h[k].sent[q]) {
      assert Accounted(a, k, q, h[k].sent[q]);
      AccountAfterAnswer(a, b, id, f, r, k, q, h[k].sent[q]);
    }
  }

  /** Answering a request in the step that received it. */
  lemma ImmediateAnswer(a: Net, b: Net, h: History, d: Docs, id: ConnId, f: Frame, r: Request)
    requires LedgerOk(a, h, d) && NetOk(b) && id in a.members
    requires Casted(a, b, {id}, {}, map[id := f]) && AnswersRequest(f, r)
    requires id in h && r.pos < h[id].handled && Answers(a, id, r) == 0
    requires a.members[id].barrier.Some? ==> a.members[id].barrier.value != r
    requires f.PersistedFrame? ==> Covered(h, d.stored, id, r.pos)
    ensures LedgerOk(b, h, d)
    ensures id in b.members ==> Answers(b, id, r) == 1
  {
    PastAnswer(a, b, h, d, id, f, r);
    AnswersOne(a, b, id, f, r);
    ConvergedCast(a, b, h, d.live, {id}, {}, map[id := f]);
    ParkedAfterAnswer(a, b, h, id, f, r);
    ForgottenAfterImmediate(a, b, h, id, f, r);
  }
}
