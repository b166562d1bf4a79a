/**
 * The room's command queue and the sessions that feed it: first in, first out per session, with the
 * poison flag a refused frame leaves on its session (room.go, manager.go `Session.Forward`).
 */
module RoomQueue {
  import opened Basics
  import opened Crdt
  import opened RoomNet
  import opened RoomLedger

  datatype Command =
    | CmdJoin(mode: Mode, isMultiUser: Option<bool>, own: Doc)
    | CmdActivate(src: ConnId)
    | CmdLeave(src: ConnId)
    | CmdMessage(src: ConnId, pos: nat, frame: ClientFrame, sessionDropped: bool)
    | CmdClose
    | CmdCloseDeleted

  predicate IsQueued(queue: seq<Command>, k: ConnId, q: nat) {
    exists i | 0 <= i < |queue| :: queue[i].CmdMessage? && queue[i].src == k && queue[i].pos == q
  }

  ghost predicate FrameOk(c: Command, h: History) {
    c.CmdMessage? ==>
      && c.src in h && h[c.src].handled <= c.pos < |h[c.src].sent|
      && c.frame == h[c.src].sent[c.pos]
      && c.pos !in h[c.src].refused
      && (!c.sessionDropped ==> forall q | q in h[c.src].refused :: q > c.pos)
  }

  /** The queue holds exactly the accepted frames not yet handled, each session's in order. */
  ghost predicate QueueOk(queue: seq<Command>, h: History) {
    && (forall i | 0 <= i < |queue| :: FrameOk(queue[i], h))
    && (forall i, j | 0 <= i < j < |queue| && queue[i].CmdMessage? && queue[j].CmdMessage? && queue[i].src == queue[j].src ::
          queue[i].pos < queue[j].pos)
    && (forall k, q: nat | k in h && h[k].handled <= q < |h[k].sent| && q !in h[k].refused :: IsQueued(queue, k, q))
  }

  ghost predicate AllSettled(h: History) {
    forall k | k in h :: h[k].settled == h[k].handled
  }

  /** Which sessions lost a frame: the `dropped` flag of each. */
  ghost predicate DroppedOk(dropped: map<ConnId, bool>, h: History) {
    && dropped.Keys == h.Keys
    && forall k | k in h :: dropped[k] <==> h[k].refused != {}
  }

  function Forwarded(s: Session, f: ClientFrame, edits: Doc, admitted: bool): Session {
    s.(sent := s.sent + [f],
       refused := if admitted then s.refused else s.refused + {|s.sent|},
       own := s.own + edits)
  }

  function Begun(s: Session, pos: nat): Session {
    s.(handled := pos + 1, settled := pos)
  }

  function Done(s: Session): Session {
    s.(settled := s.handled)
  }

  /** A client sends only what it holds. */
  predicate Sendable(n: Net, s: Session, k: ConnId, f: ClientFrame, edits: Doc) {
    && (IsWrite(f) ==> Touched(f.update) <= s.own + edits)
    && (f.SyncStep1? ==> k in n.log && f.known <= s.own + Received(n.log[k]))
    && (f.SyncStep2? && f.canonicalEmpty ==> f.update == Decodable({}))
  }

  // --- Queue steps -----------------------------------------------------------------------------

  lemma QueuedAfterAppend(queue: seq<Command>, c: Command, k: ConnId, q: nat)
    ensures IsQueued(queue + [c], k, q) <==> IsQueued(queue, k, q) || (c.CmdMessage? && c.src == k && c.pos == q)
  {
    if IsQueued(queue, k, q) {
      var i :| 0 <= i < |queue| && queue[i].CmdMessage? && queue[i].src == k && queue[i].pos == q;
      assert (queue + [c])[i] == queue[i];
    }
    if c.CmdMessage? && c.src == k && c.pos == q {
      assert (queue + [c])[|queue|] == c;
    }
  }

  lemma QueuedAfterPop(queue: seq<Command>, k: ConnId, q: nat)
    requires queue != []
    ensures IsQueued(queue, k, q) <==> IsQueued(queue[1..], k, q) || (queue[0].CmdMessage? && queue[0].src == k && queue[0].pos == q)
  {
    if IsQueued(queue[1..], k, q) {
      var i :| 0 <= i < |queue[1..]| && queue[1..][i].CmdMessage? && queue[1..][i].src == k && queue[1..][i].pos == q;
      assert queue[i + 1] == queue[1..][i];
    }
    if IsQueued(queue, k, q) {
      var i :| 0 <= i < |queue| && queue[i].CmdMessage? && queue[i].src == k && queue[i].pos == q;
      if i > 0 {
        assert queue[1..][i - 1] == queue[i];
      }
    }
  }

  /** `Session.Forward` when the queue takes the frame. */
  lemma ForwardAdmitted(queue: seq<Command>, h: History, dropped: map<ConnId, bool>, k: ConnId, f: ClientFrame, edits: Doc)
    requires QueueOk(queue, h) && HistoryOk(h) && DroppedOk(dropped, h) && k in h
    ensures var g := h[k := Forwarded(h[k], f, edits, true)];
            && QueueOk(queue + [CmdMessage(k, |h[k].sent|, f, dropped[k])], g)
            && DroppedOk(dropped, g)
  {
    var c := CmdMessage(k, |h[k].sent|, f, dropped[k]);
    var g := h[k := Forwarded(h[k], f, edits, true)];
    var longer := queue + [c];
    forall i | 0 <= i < |longer| ensures FrameOk(longer[i], g) {
      if i < |queue| {
        assert FrameOk(queue[i], h);
      }
    }
    forall x, q: nat | x in g && g[x].handled <= q < |g[x].sent| && q !in g[x].refused ensures IsQueued(longer, x, q) {
      QueuedAfterAppend(queue, c, x, q);
    }
    forall i, j | 0 <= i < j < |longer| && longer[i].CmdMessage? && longer[j].CmdMessage? && longer[i].src == longer[j].src
      ensures longer[i].pos < longer[j].pos
    {
      assert FrameOk(queue[i], h);
    }
  }

  /** `Session.Forward` when it does not: the frame is lost and the session is marked for good. */
  lemma ForwardRefused(queue: seq<Command>, h: History, dropped: map<ConnId, bool>, k: ConnId, f: ClientFrame, edits: Doc)
    requires QueueOk(queue, h) && HistoryOk(h) && DroppedOk(dropped, h) && k in h
    ensures var g := h[k := Forwarded(h[k], f, edits, false)];
            QueueOk(queue, g) && DroppedOk(dropped[k := true], g)
  {
    var g := h[k := Forwarded(h[k], f, edits, false)];
    forall i | 0 <= i < |queue| ensures FrameOk(queue[i], g) {
      assert FrameOk(queue[i], h);
    }
    assert |h[k].sent| in g[k].refused;
  }

  /** A command that is no frame can join the queue at any time. */
  lemma AppendOther(queue: seq<Command>, h: History, c: Command)
    requires QueueOk(queue, h) && !c.CmdMessage?
    ensures QueueOk(queue + [c], h)
  {
    forall x, q: nat | x in h && h[x].handled <= q < |h[x].sent| && q !in h[x].refused ensures IsQueued(queue + [c], x, q) {
      QueuedAfterAppend(queue, c, x, q);
    }
  }

  lemma PopOther(queue: seq<Command>, h: History)
    requires QueueOk(queue, h) && queue != [] && !queue[0].CmdMessage?
    ensures QueueOk(queue[1..], h)
  {
    forall x, q: nat | x in h && h[x].handled <= q < |h[x].sent| && q !in h[x].refused ensures IsQueued(queue[1..], x, q) {
      QueuedAfterPop(queue, x, q);
    }
  }

  lemma QueuedLater(queue: seq<Command>, h: History, q: nat)
    requires QueueOk(queue, h) && queue != [] && queue[0].CmdMessage?
    requires IsQueued(queue[1..], queue[0].src, q)
    ensures queue[0].pos < q
  {
    var tail := queue[1..];
    var i :| 0 <= i < |tail| && tail[i].CmdMessage? && tail[i].src == queue[0].src && tail[i].pos == q;
    assert tail[i] == queue[i + 1];
  }

  /** Everything the session forwarded before the frame at the head was handled already or was refused. */
  lemma PopFrame(queue: seq<Command>, h: History)
    requires QueueOk(queue, h) && HistoryOk(h) && AllSettled(h) && queue != [] && queue[0].CmdMessage?
    ensures var c := queue[0];
            && c.src in h && h[c.src].settled <= c.pos < |h[c.src].sent|
            && (forall q | h[c.src].settled <= q < c.pos :: q in h[c.src].refused)
            && QueueOk(queue[1..], h[c.src := Begun(h[c.src], c.pos)])
  {
    var c := queue[0];
    assert FrameOk(c, h);
    forall q: nat | h[c.src].settled <= q < c.pos ensures q in h[c.src].refused {
      QueuedAfterPop(queue, c.src, q);
      if IsQueued(queue[1..], c.src, q) {
        QueuedLater(queue, h, q);
      }
    }
    var g := h[c.src := Begun(h[c.src], c.pos)];
    forall i | 0 <= i < |queue[1..]| ensures FrameOk(queue[1..][i], g) {
      assert FrameOk(queue[i + 1], h);
    }
    forall x, q: nat | x in g && g[x].handled <= q < |g[x].sent| && q !in g[x].refused ensures IsQueued(queue[1..], x, q) {
      QueuedAfterPop(queue, x, q);
    }
  }

  /** The queue does not care how far handling got, only what was taken from it. */
  lemma QueueIgnores(queue: seq<Command>, h: History, g: History)
    requires QueueOk(queue, h) && g.Keys == h.Keys
    requires forall k | k in h :: g[k].sent == h[k].sent && g[k].refused == h[k].refused && g[k].handled == h[k].handled
    ensures QueueOk(queue, g)
  {
    forall i | 0 <= i < |queue| ensures FrameOk(queue[i], g) {
      assert FrameOk(queue[i], h);
    }
  }

  /** A new session has forwarded nothing. */
  lemma QueueNewSession(queue: seq<Command>, h: History, k: ConnId, s: Session)
    requires QueueOk(queue, h) && k !in h && s.sent == []
    ensures QueueOk(queue, h[k := s])
  {
    var g := h[k := s];
    forall i | 0 <= i < |queue| ensures FrameOk(queue[i], g) {
      assert FrameOk(queue[i], h);
    }
  }

  // --- Ledger under session steps ---------------------------------------------------------------

  /** Same traffic, same barriers; members may only have become visible, been marked or learned a client id. */
  ghost predicate SameTraffic(a: Net, b: Net) {
    && b.log == a.log && b.members.Keys == a.members.Keys
    && forall k | k in a.members ::
         b.members[k].barrier == a.members[k].barrier && (b.members[k].pending ==> a.members[k].pending)
  }

  lemma SameTrafficLedger(a: Net, b: Net, h: History, d: Docs)
    requires LedgerOk(a, h, d) && NetOk(b) && SameTraffic(a, b)
    ensures LedgerOk(b, h, d)
  {
    forall k, r ensures Answers(b, k, r) == Answers(a, k, r) {}
    forall k | k in b.members && b.members[k].barrier.Some? ensures Parked(b, h, k) {
      assert Parked(a, h, k);
    }
    forall k, q: nat | k in b.members && k in h && Finished(h[k], q) ensures Accounted(b, k, q, h[k].sent[q]) {
      assert Accounted(a, k, q, h[k].sent[q]);
    }
  }

  /** A history that agrees on everything the ledger has already used. */
  ghost predicate Extends(h: History, g: History) {
    && g.Keys == h.Keys
    && forall k | k in h ::
         && h[k].sent <= g[k].sent
         && (forall q | 0 <= q < |h[k].sent| :: q in h[k].refused <==> q in g[k].refused)
         && h[k].handled <= g[k].handled
         && h[k].own <= g[k].own
         && g[k].synced == h[k].synced
  }

  lemma ExtendsCovered(h: History, g: History, stored: Doc, k: ConnId, p: nat)
    requires Extends(h, g) && Covered(h, stored, k, p)
    ensures Covered(g, stored, k, p)
  {
    forall q | 0 <= q < p ensures q !in g[k].refused && Landed(g[k].sent[q], stored) {
      assert g[k].sent[q] == h[k].sent[q];
    }
  }

  lemma ExtendsPast(n: Net, h: History, g: History, d: Docs)
    requires PastOk(n, h, d) && HistoryOk(g) && Extends(h, g) && Honest(n, g)
    ensures PastOk(n, g, d)
  {
    forall k, r | k in n.log
      ensures && Answers(n, k, r) <= 1
              && (Sent(n, k, PersistedFrame(r)) > 0 ==> Covered(g, d.stored, k, r.pos))
              && (k in g && r.pos >= g[k].handled ==> Answers(n, k, r) == 0)
    {
      assert Answers(n, k, r) <= 1;
      if Sent(n, k, PersistedFrame(r)) > 0 {
        ExtendsCovered(h, g, d.stored, k, r.pos);
      }
    }
  }

  lemma ForwardHistory(n: Net, h: History, k: ConnId, f: ClientFrame, edits: Doc, admitted: bool)
    requires HistoryOk(h) && Honest(n, h) && k in h && Sendable(n, h[k], k, f, edits)
    ensures var g := h[k := Forwarded(h[k], f, edits, admitted)]; HistoryOk(g) && Extends(h, g) && Honest(n, g)
  {
    var g := h[k := Forwarded(h[k], f, edits, admitted)];
    forall x | x in g[k].sent && IsWrite(x) ensures Touched(x.update) <= g[k].own {
      if x in h[k].sent {
        assert Touched(x.update) <= h[k].own;
      }
    }
  }

  lemma ForwardParked(n: Net, h: History, k: ConnId, f: ClientFrame, edits: Doc, admitted: bool)
    requires ParkedOk(n, h) && NothingForgotten(n, h) && HistoryOk(h) && k in h
    ensures var g := h[k := Forwarded(h[k], f, edits, admitted)]; ParkedOk(n, g) && NothingForgotten(n, g)
  {
    var g := h[k := Forwarded(h[k], f, edits, admitted)];
    forall x | x in n.members && n.members[x].barrier.Some? ensures Parked(n, g, x) {
      assert Parked(n, h, x);
    }
    forall x, q: nat | x in n.members && x in g && Finished(g[x], q) ensures Accounted(n, x, q, g[x].sent[q]) {
      assert Finished(h[x], q) && g[x].sent[q] == h[x].sent[q];
      assert Accounted(n, x, q, h[x].sent[q]);
    }
  }

  lemma ForwardLedger(n: Net, h: History, d: Docs, k: ConnId, f: ClientFrame, edits: Doc, admitted: bool)
    requires LedgerOk(n, h, d) && k in h && Sendable(n, h[k], k, f, edits)
    ensures LedgerOk(n, h[k := Forwarded(h[k], f, edits, admitted)], d)
  {
    hide Honest, AnswersOk, Truthful, ParkedOk, NothingForgotten;
    ForwardHistory(n, h, k, f, edits, admitted);
    var g := h[k := Forwarded(h[k], f, edits, admitted)];
    ExtendsPast(n, h, g, d);
    ForwardParked(n, h, k, f, edits, admitted);
  }

  lemma ForwardPast(n: Net, h: History, d: Docs, k: ConnId, f: ClientFrame, edits: Doc, admitted: bool)
    requires PastOk(n, h, d) && k in h && Sendable(n, h[k], k, f, edits)
    ensures PastOk(n, h[k := Forwarded(h[k], f, edits, admitted)], d)
  {
    hide AnswersOk, Truthful;
    ForwardHistory(n, h, k, f, edits, admitted);
    ExtendsPast(n, h, h[k := Forwarded(h[k], f, edits, admitted)], d);
  }

  /** Skipping refused positions costs nothing. */
  lemma BeginLedger(n: Net, h: History, d: Docs, k: ConnId, pos: nat)
    requires LedgerOk(n, h, d) && k in h && h[k].settled <= pos < |h[k].sent| && h[k].handled <= pos + 1
    requires forall q | h[k].settled <= q < pos :: q in h[k].refused
    ensures LedgerOk(n, h[k := Begun(h[k], pos)], d)
  {
    hide Honest, AnswersOk, Truthful, ParkedOk, NothingForgotten, Settled;
    var g := h[k := Begun(h[k], pos)];
    HonestSame(n, h, g);
    ExtendsPast(n, h, g, d);
    BegunParked(n, h, k, pos);
    BegunSettled(n, h, d.live, k, pos);
  }

  lemma BegunParked(n: Net, h: History, k: ConnId, pos: nat)
    requires ParkedOk(n, h) && k in h && h[k].settled <= pos < |h[k].sent| && h[k].handled <= pos + 1
    ensures ParkedOk(n, h[k := Begun(h[k], pos)])
  {
    var g := h[k := Begun(h[k], pos)];
    forall x | x in n.members && n.members[x].barrier.Some? ensures Parked(n, g, x) {
      assert Parked(n, h, x);
    }
  }

  lemma BegunSettled(n: Net, h: History, live: Doc, k: ConnId, pos: nat)
    requires Settled(n, h, live) && NothingForgotten(n, h) && k in h && h[k].settled <= pos < |h[k].sent|
    requires forall q | h[k].settled <= q < pos :: q in h[k].refused
    ensures Settled(n, h[k := Begun(h[k], pos)], live) && NothingForgotten(n, h[k := Begun(h[k], pos)])
  {
    var g := h[k := Begun(h[k], pos)];
    forall x, q: nat | x in n.members && x in g && Finished(g[x], q)
      ensures Landed(g[x].sent[q], live) && Accounted(n, x, q, g[x].sent[q])
    {
      assert Finished(h[x], q);
    }
  }

  lemma HonestSame(n: Net, h: History, g: History)
    requires Honest(n, h) && g.Keys == h.Keys && forall k | k in h :: g[k].sent == h[k].sent && g[k].own == h[k].own
    ensures Honest(n, g)
  {}

  /** The frame is done: its update landed and its request is answered or parked, or its session is gone. */
  lemma DoneLedger(n: Net, h: History, d: Docs, k: ConnId)
    requires LedgerOk(n, h, d) && k in h && h[k].handled == h[k].settled + 1
    requires var pos := h[k].settled;
             k in n.members ==> Landed(h[k].sent[pos], d.live) && Accounted(n, k, pos, h[k].sent[pos])
    ensures LedgerOk(n, h[k := Done(h[k])], d)
  {
    hide Honest, AnswersOk, Truthful, ParkedOk, NothingForgotten, Settled, Landed, Accounted;
    var g := h[k := Done(h[k])];
    HonestSame(n, h, g);
    ExtendsPast(n, h, g, d);
    DoneParked(n, h, k);
    DoneSettled(n, h, d.live, k);
  }

  lemma DoneParked(n: Net, h: History, k: ConnId)
    requires ParkedOk(n, h) && k in h && h[k].settled <= h[k].handled
    ensures ParkedOk(n, h[k := Done(h[k])])
  {
    var g := h[k := Done(h[k])];
    forall x | x in n.members && n.members[x].barrier.Some? ensures Parked(n, g, x) {
      assert Parked(n, h, x);
    }
  }

  lemma DoneSettled(n: Net, h: History, live: Doc, k: ConnId)
    requires Settled(n, h, live) && NothingForgotten(n, h) && k in h && h[k].handled == h[k].settled + 1 <= |h[k].sent|
    requires var pos := h[k].settled;
             k in n.members ==> Landed(h[k].sent[pos], live) && Accounted(n, k, pos, h[k].sent[pos])
    ensures Settled(n, h[k := Done(h[k])], live) && NothingForgotten(n, h[k := Done(h[k])])
  {
    hide Landed, Accounted;
    var g := h[k := Done(h[k])];
    forall x, q: nat | x in n.members && x in g && Finished(g[x], q)
      ensures Landed(g[x].sent[q], live) && Accounted(n, x, q, g[x].sent[q])
    {
      assert Finished(h[x], q) || (x == k && q == h[k].settled);
    }
  }

  function NewSession(own: Doc): Session {
    Session([], {}, 0, 0, own, false)
  }

  lemma JoinNet(n: Net, id: ConnId, m: Member)
    requires NetOk(n) && id !in n.log && m.pending && m.client.None?
    ensures NetOk(n.(members := n.members[id := m], log := n.log[id := []]))
  {
    assert ActiveIds(n.members[id := m]) == ActiveIds(n.members);
  }

  lemma JoinPast(n: Net, h: History, d: Docs, id: ConnId, own: Doc)
    requires PastOk(n, h, d) && id !in h
    ensures PastOk(n.(log := n.log[id := []]), h[id := NewSession(own)], d)
    ensures forall k, r :: Answers(n.(log := n.log[id := []]), k, r) == Answers(n, k, r)
  {
    var b := n.(log := n.log[id := []]);
    var g := h[id := NewSession(own)];
    forall k, f ensures Sent(b, k, f) == Sent(n, k, f) {}
    forall k, r | k in b.log
      ensures && Answers(b, k, r) <= 1
              && (Sent(b, k, PersistedFrame(r)) > 0 ==> Covered(g, d.stored, k, r.pos))
              && (k in g && r.pos >= g[k].handled ==> Answers(b, k, r) == 0)
    {
      if k != id {
        assert Answers(n, k, r) <= 1;
      }
    }
  }

  /** The past lies in the traffic alone. */
  lemma PastIgnoresMembers(a: Net, b: Net, h: History, d: Docs)
    requires PastOk(a, h, d) && b.log == a.log
    ensures PastOk(b, h, d)
  {
    forall k, f ensures Sent(b, k, f) == Sent(a, k, f) {}
    forall k, r | k in b.log
      ensures && Answers(b, k, r) <= 1
              && (Sent(b, k, PersistedFrame(r)) > 0 ==> Covered(h, d.stored, k, r.pos))
              && (k in h && r.pos >= h[k].handled ==> Answers(b, k, r) == 0)
    {
      assert Answers(b, k, r) == Answers(a, k, r);
    }
  }

  lemma JoinLedger(n: Net, h: History, d: Docs, id: ConnId, m: Member, own: Doc)
    requires LedgerOk(n, h, d) && id !in h && m.pending && m.client.None? && m.barrier.None?
    ensures LedgerOk(n.(members := n.members[id := m], log := n.log[id := []]), h[id := NewSession(own)], d)
  {
    var b := n.(members := n.members[id := m], log := n.log[id := []]);
    var g := h[id := NewSession(own)];
    JoinNet(n, id, m);
    JoinPast(n, h, d, id, own);
    PastIgnoresMembers(n.(log := n.log[id := []]), b, g, d);
    forall k, r ensures Answers(b, k, r) == Answers(n, k, r) {}
    forall k | k in b.members && b.members[k].barrier.Some? ensures Parked(b, g, k) {
      assert Parked(n, h, k);
    }
    forall k, q: nat | k in b.members && k in g && Finished(g[k], q) ensures Accounted(b, k, q, g[k].sent[q]) {
      assert Accounted(n, k, q, h[k].sent[q]);
    }
  }

  /** A request is parked only while nothing the session sent before it was lost. */
  lemma ParkLedger(n: Net, h: History, d: Docs, id: ConnId, r: Request)
    requires LedgerOk(n, h, d) && id in n.members && n.members[id].barrier.None?
    requires id in h && Answers(n, id, r) == 0
    requires r.pos < h[id].handled && r.pos <= h[id].settled && r.pos < |h[id].sent|
    requires h[id].sent[r.pos] == DurabilityRequest(Some(r.id))
    requires forall q | q in h[id].refused :: q >= r.pos
    ensures LedgerOk(n.(members := n.members[id := n.members[id].(barrier := Some(r))]), h, d)
  {
    hide PastOk, ParkedOk, NothingForgotten;
    var b := n.(members := n.members[id := n.members[id].(barrier := Some(r))]);
    assert ActiveIds(b.members) == ActiveIds(n.members);
    assert forall k, f :: Sent(b, k, f) == Sent(n, k, f);
    PastIgnoresMembers(n, b, h, d);
    ParkOne(n, b, h, id, r);
  }

  lemma ParkOne(n: Net, b: Net, h: History, id: ConnId, r: Request)
    requires ParkedOk(n, h) && NothingForgotten(n, h)
    requires id in n.members && n.members[id].barrier.None? && id in h && Answers(n, id, r) == 0
    requires r.pos < h[id].handled && r.pos <= h[id].settled && r.pos < |h[id].sent|
    requires h[id].sent[r.pos] == DurabilityRequest(Some(r.id))
    requires forall q | q in h[id].refused :: q >= r.pos
    requires b == n.(members := n.members[id := n.members[id].(barrier := Some(r))])
    ensures ParkedOk(b, h) && NothingForgotten(b, h)
  {
    forall k, s ensures Answers(b, k, s) == Answers(n, k, s) {}
    forall k | k in b.members && b.members[k].barrier.Some? ensures Parked(b, h, k) {
      if k != id {
        assert Parked(n, h, k);
      }
    }
    forall k, q: nat | k in b.members && k in h && Finished(h[k], q) ensures Accounted(b, k, q, h[k].sent[q]) {
      assert Accounted(n, k, q, h[k].sent[q]);
    }
  }
}
