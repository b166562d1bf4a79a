/**
 * What the steps of the room keep: cascades, answers, teardowns, members coming and going, and the
 * books of queue, timers and sessions. All of it is about values; the loop itself is in `RoomLoop`.
 */
module RoomSteps {
  import opened Basics
  import opened Crdt
  import opened Lifecycle
  import opened RoomNet
  import opened RoomLedger
  import opened RoomQueue
  import opened RoomRules

  lemma RefusedOnly(a: Net, b: Net, id: ConnId)
    requires NetOk(a) && (b == a || b == a.(shed := a.shed + {id}))
    requires id in a.log && (id in a.shed || id in a.ends || |a.log[id]| >= a.quota(id))
    ensures NetOk(b) && SameTraffic(a, b)
  {
    assert forall k, f :: Sent(a, k, f) == Sent(b, k, f);
  }

  lemma ShedDelivered(a: Net, r: Net, b: Net, c: Net, id: ConnId, frame: Frame)
    requires id in a.members && id !in b.members
    requires if id in a.ends then r == a else r == a.(shed := a.shed + {id})
    requires Casted(r, b, {id}, {id}, map[]) && c == b.(shed := b.shed + {id})
    ensures Delivered(a, c, map[id := frame])
  {
    forall k, f
      ensures Sent(a, k, f) <= Sent(c, k, f) <= Sent(a, k, f) + Posted(map[id := frame], k, f) + Evicted(a, c, k, f)
      ensures k in c.members ==> Sent(c, k, f) == Sent(a, k, f) + Posted(map[id := frame], k, f) + Evicted(a, c, k, f)
    {
      assert Sent(c, k, f) == Sent(b, k, f) && Sent(r, k, f) == Sent(a, k, f);
      assert Posted(map[], k, f) == 0;
    }
  }

  lemma ShedMarked(a: Net, r: Net, b: Net, id: ConnId)
    requires id in a.members && a.members.Keys <= a.log.Keys
    requires if id in a.ends then r == a else r == a.(shed := a.shed + {id})
    requires Kept(r, b, {id}, {id})
    ensures id in b.log && (id in b.shed || id in b.ends)
  {}

  lemma ShedKept(a: Net, r: Net, b: Net, c: Net, id: ConnId)
    requires id in a.members && id !in b.members
    requires if id in a.ends then r == a else r == a.(shed := a.shed + {id})
    requires Kept(r, b, {id}, {id}) && c == b.(shed := b.shed + {id})
    ensures Kept(a, c, {id}, {})
  {}

  /** A member dropped because its send failed is accounted for as shed. */
  lemma ShedInstead(a: Net, r: Net, b: Net, c: Net, id: ConnId, frame: Frame)
    requires NetOk(a) && NetOk(b) && id in a.members && id !in b.members
    requires if id in a.ends then r == a else r == a.(shed := a.shed + {id})
    requires Casted(r, b, {id}, {id}, map[]) && c == b.(shed := b.shed + {id})
    ensures NetOk(c) && Casted(a, c, {id}, {}, map[id := frame])
  {
    hide OwnersOk, ReasonsOk, ShedOk;
    ShedMarked(a, r, b, id);
    RefusedOnly(b, c, id);
    hide NetOk;
    ShedKept(a, r, b, c, id);
    ShedDelivered(a, r, b, c, id, frame);
  }

  /** How far a broadcast got: the members still to visit, and what was posted to those visited. */
  ghost predicate Visited(a: Net, n: Net, todo: set<ConnId>, except: ConnId, frame: Frame, post: map<ConnId, Frame>) {
    && todo <= a.members.Keys
    && (forall k | k in post :: k !in todo)
    && Casted(a, n, {}, {}, post)
    && (forall k | k in post :: k in a.members && !a.members[k].pending && k != except && post[k] == frame)
    && (forall k | k in n.members && k !in todo && !n.members[k].pending && k != except :: k in post)
  }

  lemma VisitNone(a: Net, except: ConnId, frame: Frame) returns (post: map<ConnId, Frame>)
    requires NetOk(a)
    ensures Visited(a, a, a.members.Keys, except, frame, post)
  {
    post := map[];
    CastedRefl(a);
  }

  lemma CastedKeeps(a: Net, b: Net, hit: set<ConnId>, gone: set<ConnId>, post: map<ConnId, Frame>)
    requires Casted(a, b, hit, gone, post)
    ensures b.members.Keys <= a.members.Keys
    ensures forall k | k in b.members :: b.members[k] == a.members[k]
    ensures |b.members| <= |a.members|
  {
    Shrinks(a, b, hit, gone, post);
  }

  /** One more visible member was sent the frame. */
  lemma CastOneMore(a: Net, b: Net, c: Net, id: ConnId, frame: Frame, post: map<ConnId, Frame>)
    requires NetOk(a) && Casted(a, b, {}, {}, post) && Casted(b, c, {id}, {}, map[id := frame])
    requires id !in post && id in a.members && id in b.members && !a.members[id].pending
    ensures Casted(a, c, {}, {}, post[id := frame])
  {
    hide NetOk, Casted;
    assert post + map[id := frame] == post[id := frame];
    CastedTrans(a, b, c, {}, {id}, {}, {}, post, map[id := frame]);
    Unhit(a, c, id, {} + {}, post + map[id := frame]);
    var none: set<ConnId> := {};
    assert none + none == none;
  }

  lemma VisitFacts(a: Net, b: Net, was: set<ConnId>, id: ConnId, except: ConnId, frame: Frame, post: map<ConnId, Frame>)
    requires id in was && Visited(a, b, was, except, frame, post) && id in b.members
    ensures Casted(a, b, {}, {}, post) && id !in post && id in a.members && a.members[id] == b.members[id]
  {}

  /** The books of a broadcast after one more visit. */
  lemma VisitMarks(a: Net, b: Net, c: Net, was: set<ConnId>, id: ConnId, except: ConnId, frame: Frame, post: map<ConnId, Frame>)
    requires id in was && Visited(a, b, was, except, frame, post)
    requires id in b.members && id != except && !b.members[id].pending && id in a.members && a.members[id] == b.members[id]
    requires c.members.Keys <= b.members.Keys && forall k | k in c.members :: c.members[k] == b.members[k]
    requires Casted(a, c, {}, {}, post[id := frame])
    ensures Visited(a, c, was - {id}, except, frame, post[id := frame])
  {
    hide NetOk, Casted;
    forall k | k in c.members && k !in was - {id} && !c.members[k].pending && k != except ensures k in post[id := frame] {
      assert k in b.members;
    }
  }

  lemma VisitSent(a: Net, b: Net, c: Net, was: set<ConnId>, id: ConnId, except: ConnId, frame: Frame, post: map<ConnId, Frame>)
    requires NetOk(a) && id in was && Visited(a, b, was, except, frame, post)
    requires id in b.members && id != except && !b.members[id].pending
    requires Casted(b, c, {id}, {}, map[id := frame])
    ensures Visited(a, c, was - {id}, except, frame, post[id := frame])
    ensures |c.members| <= |b.members|
  {
    hide NetOk, Casted, Visited;
    VisitFacts(a, b, was, id, except, frame, post);
    CastedKeeps(b, c, {id}, {}, map[id := frame]);
    CastOneMore(a, b, c, id, frame, post);
    VisitMarks(a, b, c, was, id, except, frame, post);
  }

  lemma VisitSkipped(a: Net, n: Net, was: set<ConnId>, id: ConnId, except: ConnId, frame: Frame, post: map<ConnId, Frame>)
    requires id in was && Visited(a, n, was, except, frame, post)
    requires id !in n.members || id == except || n.members[id].pending
    ensures Visited(a, n, was - {id}, except, frame, post)
  {
    hide Kept, Delivered;
  }

  lemma VisitAll(a: Net, n: Net, except: ConnId, frame: Frame, post: map<ConnId, Frame>)
    requires Visited(a, n, {}, except, frame, post)
    ensures Casted(a, n, {}, {}, ToAll(a.members, except, frame))
  {
    Repost(a, n, {}, {}, post, ToAll(a.members, except, frame));
  }

  lemma LedgerNet(n: Net, h: History, d: Docs)
    requires LedgerOk(n, h, d)
    ensures NetOk(n) && RegistryOk(n) && PastOk(n, h, d)
  {}

  /** When everything is stored, a parked request may be answered `persisted`. */
  lemma AnswerReady(n: Net, h: History, d: Docs, id: ConnId)
    requires LedgerOk(n, h, d) && id in n.members && n.members[id].barrier.Some?
    ensures d.stored == d.live ==> Covered(h, d.stored, id, n.members[id].barrier.value.pos)
  {
    hide Settled, Converged, AnswersOk, Truthful, Honest, NothingForgotten;
    assert Parked(n, h, id);
    ParkedIsCovered(n, h, d.live, id);
  }

  /**
   * How far the answering of all requests got. Members outside `todo` have no barrier any more, and
   * whoever had one and is still a member was sent its answer.
   */
  ghost predicate Answered(a: Net, n: Net, todo: set<ConnId>, persisted: bool) {
    && NetOk(a) && Thinned(a, n, {})
    && (forall k | k in n.members :: k in todo || n.members[k].barrier.None?)
    && (forall k | k in n.members && k in todo :: n.members[k] == a.members[k])
    && (forall k | k in n.members && k !in todo && a.members[k].barrier.Some? ::
          Sent(n, k, AnswerTo(a.members[k].barrier.value, persisted)) > 0)
  }

  lemma AnsweredNone(a: Net, h: History, d: Docs, persisted: bool)
    requires LedgerOk(a, h, d)
    ensures Answered(a, a, a.members.Keys, persisted)
  {
    hide PastOk, Converged, Settled, ParkedOk, NothingForgotten;
    ThinnedRefl(a);
  }

  lemma ClearedThins(n: Net, id: ConnId)
    requires NetOk(n) && id in n.members
    ensures Thinned(n, Cleared(n, id), {})
  {}

  lemma NoneGone(a: Net, b: Net)
    requires Thinned(a, b, {} + {})
    ensures Thinned(a, b, {})
  {
    var none: set<ConnId> := {};
    assert none + none == none;
  }

  lemma CastedSends(m: Net, c: Net, id: ConnId, f: Frame, k: ConnId, g: Frame)
    requires Casted(m, c, {id}, {}, map[id := f]) && k in c.members
    ensures Sent(c, k, g) >= Sent(m, k, g)
    ensures !g.RemovalFrame? ==> Sent(c, k, g) == Sent(m, k, g) + if k == id && g == f then 1 else 0
    ensures k == id && g == f ==> Sent(c, k, g) > 0
  {}

  /** The member that is still there got the answer, once, and not the other one. */
  lemma AnswerArrives(a: Net, c: Net, id: ConnId, r: Request, persisted: bool)
    requires id in a.members
    requires || Casted(a, c, {id}, {}, map[id := AnswerTo(r, persisted)])
             || Casted(Cleared(a, id), c, {id}, {}, map[id := AnswerTo(r, persisted)])
    ensures id in c.members ==>
              && Sent(c, id, PersistedFrame(r)) == Sent(a, id, PersistedFrame(r)) + (if persisted then 1 else 0)
              && Sent(c, id, PersistFailedFrame(r)) == Sent(a, id, PersistFailedFrame(r)) + (if persisted then 0 else 1)
  {
    hide Casted;
    if id in c.members {
      var m := if Casted(a, c, {id}, {}, map[id := AnswerTo(r, persisted)]) then a else Cleared(a, id);
      CastedSends(m, c, id, AnswerTo(r, persisted), id, PersistedFrame(r));
      CastedSends(m, c, id, AnswerTo(r, persisted), id, PersistFailedFrame(r));
    }
  }

  lemma AnsweredFrames(a: Net, b: Net, c: Net, was: set<ConnId>, id: ConnId, persisted: bool)
    requires id in was && Answered(a, b, was, persisted)
    requires id in b.members && b.members[id].barrier.Some?
    requires Casted(Cleared(b, id), c, {id}, {}, map[id := AnswerTo(b.members[id].barrier.value, persisted)])
    ensures forall k | k in c.members :: k in was - {id} || c.members[k].barrier.None?
    ensures forall k | k in c.members && k in was - {id} && k in a.members :: c.members[k] == a.members[k]
    ensures forall k | k in c.members && k !in was - {id} && k in a.members && a.members[k].barrier.Some? ::
              Sent(c, k, AnswerTo(a.members[k].barrier.value, persisted)) > 0
  {
    hide Casted;
    var m := Cleared(b, id);
    var f := AnswerTo(b.members[id].barrier.value, persisted);
    CastedKeeps(m, c, {id}, {}, map[id := f]);
    forall k | k in c.members && k !in was - {id} && k in a.members && a.members[k].barrier.Some?
      ensures Sent(c, k, AnswerTo(a.members[k].barrier.value, persisted)) > 0
    {
      CastedSends(m, c, id, f, k, AnswerTo(a.members[k].barrier.value, persisted));
    }
  }

  lemma AnsweredStep(a: Net, b: Net, c: Net, was: set<ConnId>, id: ConnId, persisted: bool)
    requires id in was && Answered(a, b, was, persisted)
    requires NetOk(b) && id in b.members && b.members[id].barrier.Some?
    requires Casted(Cleared(b, id), c, {id}, {}, map[id := AnswerTo(b.members[id].barrier.value, persisted)])
    ensures Answered(a, c, was - {id}, persisted)
  {
    var m := Cleared(b, id);
    var f := AnswerTo(b.members[id].barrier.value, persisted);
    ClearedThins(b, id);
    CastedThins(m, c, {id}, {}, map[id := f]);
    ClearedOk(b, id);
    ThinnedTrans(b, m, c, {}, {});
    NoneGone(b, c);
    ThinnedTrans(a, b, c, {}, {});
    NoneGone(a, c);
    AnsweredFrames(a, b, c, was, id, persisted);
  }

  lemma AnsweredSkip(a: Net, n: Net, was: set<ConnId>, id: ConnId, persisted: bool)
    requires id in was && Answered(a, n, was, persisted)
    requires id !in n.members || n.members[id].barrier.None?
    ensures Answered(a, n, was - {id}, persisted)
  {}

  lemma FailureSent(a: Net, n: Net, src: ConnId)
    requires src in a.members && a.members[src].barrier.Some?
    requires Casted(Cleared(a, src), n, {src}, {}, map[src := PersistFailedFrame(a.members[src].barrier.value)])
    ensures RequestFailed(a, n, src) && OthersKept(a, n, src)
  {
    var f := PersistFailedFrame(a.members[src].barrier.value);
    if src in n.members {
      CastedSends(Cleared(a, src), n, src, f, src, f);
    }
  }

  /** An end once given is kept, and a new one carries the code. */
  ghost predicate EndedBy(a: Net, n: Net, code: EndCode) {
    && a.ends.Keys <= n.ends.Keys
    && (forall k | k in a.ends :: n.ends[k] == a.ends[k])
    && (forall k | k in n.ends && k !in a.ends :: n.ends[k] == code)
  }

  /** How far the last walk got: whoever is no longer a member was handed the code. */
  ghost predicate Dismissed(a: Net, n: Net, code: EndCode) {
    && n.members.Keys <= a.members.Keys
    && (forall k | k in a.members :: k in n.members || k in n.ends)
    && EndedBy(a, n, code)
    && n.quota == a.quota && a.shed <= n.shed && n.log.Keys == a.log.Keys && n.connOpened == a.connOpened
    && n.members.Keys <= n.log.Keys
    && (forall k, f {:trigger Sent(n, k, f)} :: Sent(a, k, f) <= Sent(n, k, f))
  }

  /** One member was sent the reason, handed the end and taken out. */
  ghost predicate Closing(b: Net, m: Net, c: Net, id: ConnId, code: EndCode) {
    && id in b.members && id in b.log
    && Offered(b, m, id, SessionEndFrame(code))
    && c == m.(ends := if id in m.ends then m.ends else m.ends[id := code],
               members := m.members - {id},
               connClosed := m.connClosed + (if m.members[id].pending then 0 else 1))
  }

  lemma DismissedNone(a: Net, code: EndCode)
    requires RegistryOk(a)
    ensures Dismissed(a, a, code)
  {}

  lemma DismissedHas(a: Net, n: Net, id: ConnId, code: EndCode)
    requires Dismissed(a, n, code) && id in n.members
    ensures id in n.log
  {}

  lemma ClosingFacts(b: Net, m: Net, c: Net, id: ConnId, code: EndCode)
    requires Closing(b, m, c, id, code)
    ensures id in b.log && id in b.members && c.members == b.members - {id} && c.members.Keys == b.members.Keys - {id}
    ensures b.shed <= c.shed && c.connOpened == b.connOpened && c.log.Keys == b.log.Keys
    ensures id in b.ends || id in c.shed || Sent(c, id, SessionEndFrame(code)) > 0
    ensures c.ends == if id in b.ends then b.ends else b.ends[id := code]
    ensures c.connClosed == b.connClosed + (if b.members[id].pending then 0 else 1)
    ensures c.log == b.log || c.log == b.log[id := b.log[id] + [SessionEndFrame(code)]]
    ensures c.shed <= b.shed + {id} && c.quota == b.quota && id in c.ends
  {}

  lemma EndedStep(a: Net, b: Net, c: Net, id: ConnId, code: EndCode)
    requires EndedBy(a, b, code) && c.ends == if id in b.ends then b.ends else b.ends[id := code]
    ensures EndedBy(a, c, code)
  {}

  lemma PastAppend(b: Net, c: Net, h: History, d: Docs, id: ConnId, code: EndCode)
    requires PastOk(b, h, d) && id in b.log
    requires c.log == b.log || c.log == b.log[id := b.log[id] + [SessionEndFrame(code)]]
    ensures PastOk(c, h, d)
    ensures forall k, f {:trigger Sent(c, k, f)} :: Sent(b, k, f) <= Sent(c, k, f)
  {
    var f := SessionEndFrame(code);
    assert multiset(b.log[id] + [f]) == multiset(b.log[id]) + multiset{f};
    assert Received(b.log[id] + [f]) == Received(b.log[id]);
    forall k, r ensures Answers(c, k, r) == Answers(b, k, r) && Sent(c, k, PersistedFrame(r)) == Sent(b, k, PersistedFrame(r)) {}
    forall k, r | k in c.log
      ensures && Answers(c, k, r) <= 1
              && (Sent(c, k, PersistedFrame(r)) > 0 ==> Covered(h, d.stored, k, r.pos))
              && (k in h && r.pos >= h[k].handled ==> Answers(c, k, r) == 0)
    {
      assert Answers(b, k, r) <= 1;
    }
  }

  lemma GaugeAfterClose(b: Net, c: Net, id: ConnId, code: EndCode)
    requires RegistryOk(b) && id in b.members && c.members == b.members - {id}
    requires c.log.Keys == b.log.Keys && c.connOpened == b.connOpened
    requires c.connClosed == b.connClosed + (if b.members[id].pending then 0 else 1)
    requires c.ends == (if id in b.ends then b.ends else b.ends[id := code]) && b.shed <= c.shed
    requires id in b.ends || id in c.shed || Sent(c, id, SessionEndFrame(code)) > 0
    requires forall k, f {:trigger Sent(c, k, f)} :: Sent(b, k, f) <= Sent(c, k, f)
    requires c.log == b.log || c.log == b.log[id := b.log[id] + [SessionEndFrame(code)]]
    requires id in b.log && c.shed <= b.shed + {id} && c.quota == b.quota && id in c.ends
    ensures RegistryOk(c)
  {
    assert ActiveIds(c.members) == ActiveIds(b.members) - {id};
  }

  lemma DismissedStep(a: Net, b: Net, m: Net, c: Net, h: History, d: Docs, id: ConnId, code: EndCode)
    requires Dismissed(a, b, code) && PastOk(b, h, d) && RegistryOk(b) && Closing(b, m, c, id, code)
    ensures Dismissed(a, c, code) && PastOk(c, h, d) && RegistryOk(c)
    ensures |c.members| < |b.members|
  {
    hide PastOk, RegistryOk, Closing, EndedBy;
    ClosingFacts(b, m, c, id, code);
    EndedStep(a, b, c, id, code);
    PastAppend(b, c, h, d, id, code);
    GaugeAfterClose(b, c, id, code);
    forall k, f ensures Sent(a, k, f) <= Sent(c, k, f) {
      assert Sent(a, k, f) <= Sent(b, k, f) <= Sent(c, k, f);
    }
  }

  /** Every request outstanding in `a` has its answer, or its connection would not take it. */
  ghost predicate AnsweredOrShed(a: Net, n: Net) {
    forall k | k in a.members && a.members[k].barrier.Some? ::
      k in n.shed || Answers(n, k, a.members[k].barrier.value) > 0
  }

  /** Every member of `a` was handed an end or had refused a frame, and every request of `a` is answered. */
  ghost predicate Informed(a: Net, n: Net, code: EndCode) {
    && (forall k | k in a.members :: k in n.ends || k in n.shed)
    && EndedBy(a, n, code) && AnsweredOrShed(a, n)
    && n.quota == a.quota && a.shed <= n.shed && n.log.Keys == a.log.Keys && n.connOpened == a.connOpened
    && (forall k, f {:trigger Sent(n, k, f)} :: Sent(a, k, f) <= Sent(n, k, f))
  }

  /** The answer given is the one the flush earned: `persisted` after a success, a failure otherwise. */
  lemma AnsweredTells(a: Net, n: Net, persisted: bool)
    requires Answered(a, n, {}, persisted)
    ensures if persisted then ToldPersisted(a, n) else ToldFailed(a, n)
  {
    forall k | k in a.members && a.members[k].barrier.Some? && (k in n.members || k !in n.shed)
      ensures k in n.members && Sent(n, k, AnswerTo(a.members[k].barrier.value, persisted)) > 0
    {}
  }

  lemma AnsweredGives(a: Net, n: Net, persisted: bool)
    requires Answered(a, n, {}, persisted)
    ensures AnsweredOrShed(a, n) && Thinned(a, n, {})
    ensures if persisted then ToldPersisted(a, n) else ToldFailed(a, n)
  {
    AnsweredTells(a, n, persisted);
    forall k | k in a.members && a.members[k].barrier.Some? && k !in n.shed
      ensures Answers(n, k, a.members[k].barrier.value) > 0
    {
      assert Sent(n, k, AnswerTo(a.members[k].barrier.value, persisted)) > 0;
    }
  }

  lemma AnsweredStays(a: Net, b: Net, c: Net)
    requires AnsweredOrShed(a, b) && Thinned(b, c, {})
    ensures AnsweredOrShed(a, c)
    ensures ToldPersisted(a, b) ==> ToldPersisted(a, c)
    ensures ToldFailed(a, b) ==> ToldFailed(a, c)
  {
    forall k, r ensures Answers(b, k, r) <= Answers(c, k, r) {
      assert Sent(b, k, PersistedFrame(r)) <= Sent(c, k, PersistedFrame(r));
      assert Sent(b, k, PersistFailedFrame(r)) <= Sent(c, k, PersistFailedFrame(r));
    }
  }

  /** Before the last walk every outstanding request is answered: by the final flush or as failed. */
  lemma SettledBefore(a: Net, b: Net, c: Net, outcome: FlushOutcome)
    requires NetOk(a) && Answered(b, c, {}, false)
    requires outcome == Clean ==> b == a
    requires outcome != Clean ==> Answered(a, b, {}, outcome == Saved)
    ensures AnsweredOrShed(a, c) && Thinned(a, c, {})
    ensures outcome == Saved ==> ToldPersisted(a, c)
    ensures outcome != Saved ==> ToldFailed(a, c)
  {
    AnsweredGives(b, c, false);
    if outcome != Clean {
      AnsweredGives(a, b, outcome == Saved);
      AnsweredStays(a, b, c);
      ThinnedTrans(a, b, c, {}, {});
      NoneGone(a, c);
    }
  }

  lemma InformedAfterClose(a: Net, c: Net, n: Net, code: EndCode)
    requires AnsweredOrShed(a, c) && Thinned(a, c, {})
    requires Dismissed(c, n, code) && n.members == map[]
    ensures Informed(a, n, code)
    ensures ToldPersisted(a, c) ==> ToldPersisted(a, n)
    ensures ToldFailed(a, c) ==> ToldFailed(a, n)
  {
    forall k, f ensures Sent(a, k, f) <= Sent(n, k, f) {
      assert Sent(a, k, f) <= Sent(c, k, f) <= Sent(n, k, f);
    }
    forall k, r ensures Answers(c, k, r) <= Answers(n, k, r) {
      assert Sent(c, k, PersistedFrame(r)) <= Sent(n, k, PersistedFrame(r));
      assert Sent(c, k, PersistFailedFrame(r)) <= Sent(n, k, PersistFailedFrame(r));
    }
  }

  lemma StoredNow(n: Net, h: History, d: Docs, e: Docs)
    requires LedgerOk(n, h, d) && e.live == d.live && e.stored in {d.stored, d.live}
    ensures LedgerOk(n, h, e)
  {
    StoredGrows(n, h, d);
  }

  lemma ThinnedSent(b: Net, c: Net)
    requires Thinned(b, c, {})
    ensures forall k, f {:trigger Sent(c, k, f)} :: Sent(b, k, f) <= Sent(c, k, f)
  {}

  lemma ThinnedMembers(a: Net, c: Net)
    requires Thinned(a, c, {})
    ensures c.members.Keys <= a.members.Keys
  {}

  lemma AnsweredThenCast(a: Net, b: Net, c: Net, post: map<ConnId, Frame>, persisted: bool)
    requires Answered(a, b, {}, persisted) && NetOk(b) && Casted(b, c, {}, {}, post)
    ensures Answered(a, c, {}, persisted)
  {
    hide Casted, Thinned, NetOk, Sent, AnswerTo;
    CastedThins(b, c, {}, {}, post);
    ThinnedTrans(a, b, c, {}, {});
    NoneGone(a, c);
    CastedKeeps(b, c, {}, {}, post);
    ThinnedSent(b, c);
    ThinnedMembers(a, c);
    forall k | k in c.members && a.members[k].barrier.Some?
      ensures Sent(c, k, AnswerTo(a.members[k].barrier.value, persisted)) > 0
    {
      assert k in b.members;
      var f := AnswerTo(a.members[k].barrier.value, persisted);
      assert 0 < Sent(b, k, f) <= Sent(c, k, f);
    }
  }

  lemma ToldAll(a: Net, b: Net, c: Net, f: Frame)
    requires Casted(b, c, {}, {}, ToAll(b.members, 0, f))
    requires forall k, g {:trigger Sent(b, k, g)} :: Sent(a, k, g) <= Sent(b, k, g)
    ensures Told(a, c, f) && |ActiveIds(c.members)| <= |ActiveIds(b.members)|
  {
    forall k | k in c.members && !c.members[k].pending && k != 0 ensures Sent(c, k, f) > Sent(a, k, f) {
      assert Sent(a, k, f) <= Sent(b, k, f);
    }
    SubsetSize(ActiveIds(c.members), ActiveIds(b.members));
  }

  lemma ToldAfterAnswers(a: Net, b: Net, c: Net, f: Frame, persisted: bool)
    requires Answered(a, b, {}, persisted) && Casted(b, c, {}, {}, ToAll(b.members, 0, f))
    ensures Told(a, c, f)
  {
    hide Casted, Told;
    ThinnedSent(a, b);
    ToldAll(a, b, c, f);
  }

  lemma InformedTwice(a: Net, b: Net, n: Net, code: EndCode)
    requires Answered(a, b, {}, false) && Informed(b, n, code) && n.members == map[]
    ensures Informed(a, n, code) && ToldFailed(a, n)
  {
    AnsweredGives(a, b, false);
    forall k, f ensures Sent(a, k, f) <= Sent(n, k, f) {
      assert Sent(a, k, f) <= Sent(b, k, f) <= Sent(n, k, f);
    }
    forall k | k in a.members && a.members[k].barrier.Some? && k !in n.shed
      ensures Answers(n, k, a.members[k].barrier.value) > 0
    {
      var r := a.members[k].barrier.value;
      assert Sent(b, k, PersistedFrame(r)) <= Sent(n, k, PersistedFrame(r));
      assert Sent(b, k, PersistFailedFrame(r)) <= Sent(n, k, PersistFailedFrame(r));
    }
  }

  lemma LogHas(n: Net, id: ConnId)
    requires NetOk(n) && id in n.members
    ensures id in n.log
  {}

  /** The reason for an end went out, or there is an end or a refusal already. */
  ghost predicate Excused(n: Net, id: ConnId, code: EndCode) {
    id in n.log && (id in n.ends || id in n.shed || Sent(n, id, SessionEndFrame(code)) > 0)
  }

  lemma FarewellSent(a: Net, b: Net, h: History, d: Docs, id: ConnId, code: EndCode)
    requires LedgerOk(a, h, d) && id in a.members && id in a.log && Offered(a, b, id, SessionEndFrame(code))
    ensures LedgerOk(b, h, d) && Excused(b, id, code)
  {
    hide LedgerOk, NetOk, PastOk, RegistryOk, Casted, SameTraffic;
    LedgerNet(a, h, d);
    if id !in a.ends && b == a.(log := a.log[id := a.log[id] + [SessionEndFrame(code)]]) {
      SentCasted(a, b, id, SessionEndFrame(code));
      NeutralCast(a, b, h, d, {id}, {}, map[id := SessionEndFrame(code)]);
    } else {
      RefusedOnly(a, b, id);
      SameTrafficLedger(a, b, h, d);
    }
  }

  lemma EndsOnly(n: Net, c: Net, id: ConnId, code: EndCode)
    requires NetOk(n) && Excused(n, id, code)
    requires c == if id in n.ends then n else n.(ends := n.ends[id := code])
    ensures NetOk(c) && SameTraffic(n, c)
  {
    assert forall k, f :: Sent(c, k, f) == Sent(n, k, f);
  }

  lemma FarewellEnded(b: Net, c: Net, h: History, d: Docs, id: ConnId, code: EndCode)
    requires LedgerOk(b, h, d) && Excused(b, id, code)
    requires c == if id in b.ends then b else b.(ends := b.ends[id := code])
    ensures LedgerOk(c, h, d)
  {
    hide LedgerOk, NetOk, SameTraffic, Excused;
    LedgerNet(b, h, d);
    EndsOnly(b, c, id, code);
    SameTrafficLedger(b, c, h, d);
  }

  lemma GrownRefl(a: Net, src: ConnId)
    ensures Grown(a, a) && OthersKept(a, a, src)
  {}

  lemma FarewellDropped(a: Net, c: Net, e: Net, h: History, d: Docs, id: ConnId)
    requires LedgerOk(c, h, d) && NetOk(e) && id in c.members && id in c.ends
    requires c.members == a.members && c.quota == a.quota && a.shed <= c.shed && c.log.Keys == a.log.Keys
    requires forall k | k in a.ends :: k in c.ends && c.ends[k] == a.ends[k]
    requires id !in e.members && Casted(c, e, {id}, {id}, map[])
    ensures LedgerOk(e, h, d) && Evolved(a, e) && e.ends == c.ends
  {
    hide LedgerOk, NetOk, Delivered;
    NeutralCast(c, e, h, d, {id}, {id}, map[]);
  }

  lemma FarewellTold(a: Net, e: Net, n: Net)
    requires Evolved(a, e) && Thinned(e, n, {})
    ensures Evolved(a, n) && n.ends == e.ends && n.members.Keys <= e.members.Keys
  {
    ThinnedEvolves(e, n);
    EvolvedTrans(a, e, n);
  }

  lemma FarewellMonotone(a: Net, c: Net, e: Net, id: ConnId)
    requires forall k, f {:trigger Sent(c, k, f)} :: Sent(a, k, f) <= Sent(c, k, f)
    requires Casted(c, e, {id}, {id}, map[])
    ensures forall k, f {:trigger Sent(e, k, f)} :: Sent(a, k, f) <= Sent(e, k, f)
  {
    forall k, f ensures Sent(a, k, f) <= Sent(e, k, f) {
      assert Sent(a, k, f) <= Sent(c, k, f) <= Sent(e, k, f);
    }
  }

  /** What a farewell, an eviction and the news of it leave of the others. */
  lemma FarewellKeeps(a: Net, c: Net, e: Net, n: Net, id: ConnId, f: Frame)
    requires c.members == a.members && a.shed <= c.shed
    requires forall k, g {:trigger Sent(c, k, g)} :: Sent(a, k, g) <= Sent(c, k, g)
    requires Casted(c, e, {id}, {id}, map[]) && Casted(e, n, {}, {}, ToAll(e.members, 0, f))
    ensures Grown(a, n) && OthersKept(a, n, id)
  {
    hide Casted;
    CastedKeeps(c, e, {id}, {id}, map[]);
    CastedKeeps(e, n, {}, {}, ToAll(e.members, 0, f));
    CastedThins(c, e, {id}, {id}, map[]);
    CastedThins(e, n, {}, {}, ToAll(e.members, 0, f));
    forall k, g ensures Sent(a, k, g) <= Sent(n, k, g) {
      assert Sent(a, k, g) <= Sent(c, k, g) <= Sent(e, k, g) <= Sent(n, k, g);
    }
  }

  lemma PoisonLedger(n: Net, h: History, d: Docs, src: ConnId)
    requires LedgerOk(n, h, d) && src in n.members
    ensures LedgerOk(n.(members := n.members[src := n.members[src].(poisoned := true)]), h, d)
  {
    hide LedgerOk;
    LedgerNet(n, h, d);
    var b := n.(members := n.members[src := n.members[src].(poisoned := true)]);
    assert ActiveIds(b.members) == ActiveIds(n.members);
    SameTrafficLedger(n, b, h, d);
  }

  lemma ThinnedGrows(a: Net, b: Net)
    requires Thinned(a, b, {})
    ensures Grown(a, b)
  {}

  lemma ControlKeeps(a: Net, b: Net, src: ConnId, f: Frame)
    requires Thinned(a, b, {}) && (src in a.members ==> Casted(a, b, {src}, {}, map[src := f])) && (src !in a.members ==> b == a)
    ensures Grown(a, b) && OthersKept(a, b, src)
  {
    ThinnedGrows(a, b);
  }

  lemma NotifiedOnce(a: Net, b: Net, c: Net, e: Net, n: Net, src: ConnId)
    requires src in a.members && b.log == a.log && src in b.members && Thinned(b, c, {}) && Grown(e, n)
    requires if src in c.members then Casted(c, e, {src}, {}, map[src := UpdateRejectedFrame]) else e == c
    ensures Notified(a, n, src)
  {
    var f := UpdateRejectedFrame;
    assert Sent(a, src, f) == Sent(b, src, f) <= Sent(c, src, f);
    if src in e.members {
      CastedSends(c, e, src, f, src, f);
    }
    assert Sent(e, src, f) <= Sent(n, src, f);
  }

  /** A mark on a member that is gone at the end of the step does not show. */
  lemma EvolvedBut(a: Net, b: Net, n: Net, src: ConnId)
    requires Evolved(b, n) && src !in n.members
    requires b == a || (src in a.members && b == a.(members := a.members[src := a.members[src].(poisoned := true)]))
    ensures Evolved(a, n)
  {}

  lemma ThinnedEnds(a: Net, b: Net)
    requires Thinned(a, b, {})
    ensures b.ends == a.ends
    ensures forall k | k in a.members :: k in b.members || k in b.shed
  {}

  /** A failure once sent is not taken back. */
  lemma FailedStays(a: Net, c: Net, n: Net, src: ConnId)
    requires RequestFailed(a, c, src) && OthersKept(a, c, src) && Grown(c, n) && OthersKept(c, n, src)
    ensures RequestFailed(a, n, src) && OthersKept(a, n, src)
  {
    if src in a.members && a.members[src].barrier.Some? {
      var f := PersistFailedFrame(a.members[src].barrier.value);
      assert Sent(c, src, f) <= Sent(n, src, f);
    }
  }

  /** From the mark to the end: the refused session's request is failed and nobody else notices. */
  lemma RefusalTold(a: Net, b: Net, c: Net, e: Net, n: Net, src: ConnId)
    requires b == a || (src in a.members && b == a.(members := a.members[src := a.members[src].(poisoned := true)]))
    requires RequestFailed(b, c, src) && OthersKept(b, c, src)
    requires Grown(c, e) && OthersKept(c, e, src) && Grown(e, n) && OthersKept(e, n, src)
    ensures RequestFailed(a, n, src) && OthersKept(a, n, src)
  {
    FailedStays(b, c, e, src);
    FailedStays(b, e, n, src);
  }

  /** Nothing but `synced` marks changed. */
  ghost predicate Relabelled(h: History, g: History) {
    g.Keys == h.Keys && forall k | k in h :: g[k] == h[k].(synced := g[k].synced)
  }

  /** What the room knows of a frame it was sent. */
  lemma SentFacts(n: Net, h: History, d: Docs, src: ConnId, frame: ClientFrame)
    requires LedgerOk(n, h, d) && src in n.members && src in h && frame in h[src].sent
    ensures IsWrite(frame) ==> Touched(frame.update) <= h[src].own
    ensures frame.SyncStep1? ==> src in n.log && frame.known <= h[src].own + Received(n.log[src])
    ensures frame.SyncStep2? && frame.canonicalEmpty ==> frame.update == Decodable({})
  {}

  lemma RelabelledRefl(h: History, src: ConnId)
    ensures Relabelled(h, h)
    ensures src in h ==> Relabelled(h, h[src := h[src].(synced := true)])
  {}

  lemma CaughtUp(a: Net, b: Net, src: ConnId, reply: Frame)
    requires Casted(a, b, {src}, {}, map[src := reply])
    ensures Evolved(a, b)
  {}

  /** Position `pos` of the session is the one in hand, and nothing has answered it yet. */
  ghost predicate Fresh(n: Net, h: History, src: ConnId, pos: nat)
    requires src in n.members
  {
    && src in h && pos < |h[src].sent|
    && h[src].handled == pos + 1 && h[src].settled == pos && pos !in h[src].refused
    && (forall x {:trigger Request(x, pos)} :: Answers(n, src, Request(x, pos)) == 0)
    && (n.members[src].barrier.Some? ==> n.members[src].barrier.value.pos < pos)
  }

  /** On a clean room everything the session got through is stored. */
  lemma CoveredNow(n: Net, h: History, d: Docs, src: ConnId, pos: nat)
    requires LedgerOk(n, h, d) && d.stored == d.live && src in n.members
    requires src in h && pos < |h[src].sent| && h[src].settled == pos
    requires forall q | q in h[src].refused :: q > pos
    ensures Covered(h, d.stored, src, pos)
  {
    forall q | 0 <= q < pos ensures q !in h[src].refused && Landed(h[src].sent[q], d.stored) {
      assert Finished(h[src], q);
    }
  }

  /** The registry does not care who owns what, only who is visible and what was sent. */
  lemma SameRegistry(a: Net, b: Net)
    requires RegistryOk(a) && b.members.Keys == a.members.Keys && forall k | k in a.members :: b.members[k].pending == a.members[k].pending
    requires b.log == a.log && b.ends == a.ends && b.shed == a.shed && b.quota == a.quota
    requires b.connOpened == a.connOpened && b.connClosed == a.connClosed
    ensures RegistryOk(b)
  {
    assert ActiveIds(b.members) == ActiveIds(a.members);
    assert forall k, f :: Sent(b, k, f) == Sent(a, k, f);
  }

  lemma TrackedNet(a: Net, b: Net, src: ConnId, first: Option<ClientId>)
    requires NetOk(a) && src in a.members && first.Some? && a.members[src].client.None?
    requires b == a.(members := a.members[src := a.members[src].(client := first)], owners := a.owners[first.value := src])
    ensures NetOk(b) && SameTraffic(a, b) && Evolved(a, b)
  {
    hide RegistryOk;
    SameRegistry(a, b);
  }

  lemma TrackedLedger(a: Net, b: Net, h: History, d: Docs, src: ConnId, first: Option<ClientId>)
    requires LedgerOk(a, h, d) && src in a.members && first.Some? && a.members[src].client.None?
    requires b == a.(members := a.members[src := a.members[src].(client := first)], owners := a.owners[first.value := src])
    ensures LedgerOk(b, h, d) && Evolved(a, b)
    ensures forall unsaved :: BarriersOk(a, unsaved) ==> BarriersOk(b, unsaved)
  {
    hide LedgerOk, NetOk, SameTraffic, Evolved;
    LedgerNet(a, h, d);
    TrackedNet(a, b, src, first);
    SameTrafficLedger(a, b, h, d);
  }

  lemma PresenceLedger(a: Net, b: Net, h: History, d: Docs)
    requires LedgerOk(a, h, d) && b == a.(presence := b.presence)
    ensures LedgerOk(b, h, d) && Evolved(a, b)
  {
    hide PastOk, Converged, Settled, ParkedOk, NothingForgotten;
    SameTrafficLedger(a, b, h, d);
  }

  /** A relayed frame goes on as what it was, to every visible member but its sender. */
  lemma RelayReaches(a: Net, b: Net, src: ConnId, frame: ClientFrame)
    requires (frame.Awareness? || frame.Ephemeral?) && Relayed(a, b, src, frame)
    ensures var f := if frame.Ephemeral? then EphemeralFrame else AwarenessFrame(frame.first);
            forall k | k in b.members ::
              k in a.members && Sent(b, k, f) == Sent(a, k, f) + if a.members[k].pending || k == src then 0 else 1
  {
    hide Casted;
    var c := Announced(a, src, frame);
    BroadcastReaches(c, b, src, RelayFrame(frame));
    assert c.log == a.log && forall k | k in c.members :: k in a.members && c.members[k].pending == a.members[k].pending;
    assert forall k, f :: Sent(c, k, f) == Sent(a, k, f);
  }

  /**
   * Clients that went offline are gone from the presence; clients that came online are in it unless
   * their owner was evicted on the way. The sender owns the first client it announces.
   */
  lemma PresenceFollows(a: Net, b: Net, src: ConnId, frame: ClientFrame)
    requires frame.Awareness? && Relayed(a, b, src, frame)
    ensures b.presence !! frame.offline && b.presence <= a.presence + frame.online
    ensures forall c | c in (a.presence + frame.online) - frame.offline && c !in a.owners && frame.first != Some(c) :: c in b.presence
    ensures forall c | c in (a.presence + frame.online) - frame.offline && c in b.owners :: c in b.presence
    ensures src in b.members && a.members[src].client.None? && frame.first.Some? ==>
              b.members[src].client == frame.first && frame.first.value in b.owners && b.owners[frame.first.value] == src
    ensures src in b.members && a.members[src].client.Some? ==> b.members[src] == a.members[src]
  {
    hide Delivered;
  }

  /** Nobody joins, and whoever goes was handed an end or shed. */
  ghost predicate Settling(a: Net, b: Net) {
    && b.members.Keys <= a.members.Keys
    && (forall k | k in a.members :: k in b.members || k in b.shed || k in b.ends)
    && b.quota == a.quota && a.shed <= b.shed && a.ends.Keys <= b.ends.Keys
    && b.log.Keys == a.log.Keys
    && (forall k | k in b.members && k in a.members :: b.members[k].mode == a.members[k].mode)
  }

  /** An author is not told its own edit; it can only be lost to its own connection. */
  lemma SpreadKeeps(a: Net, b: Net, src: ConnId, before: Doc, after: Doc)
    requires Spread(a, b, src, before, after) && src in a.members
    ensures src in b.members || src in b.shed
  {}

  lemma EvolvedSettles(a: Net, b: Net)
    requires Evolved(a, b)
    ensures Settling(a, b)
  {}

  lemma RequestSettles(a: Net, b: Net, src: ConnId, pos: nat, id: Option<nat>, sessionDropped: bool, dirty: bool, periodic: bool)
    requires src in a.members && RequestEffect(a, b, src, pos, id, sessionDropped, dirty, periodic)
    ensures Settling(a, b)
  {}

  lemma JoinBarriers(a: Net, b: Net, id: ConnId, m: Member, unsaved: bool)
    requires BarriersOk(a, unsaved) && b.members == a.members[id := m] && !m.poisoned && m.barrier.None?
    ensures BarriersOk(b, unsaved)
  {}

  lemma SettlingRefl(a: Net)
    ensures Settling(a, a)
  {}

  lemma ActivateLedger(a: Net, b: Net, h: History, d: Docs, id: ConnId)
    requires LedgerOk(a, h, d) && id in a.members && a.members[id].pending
    requires b == a.(members := a.members[id := a.members[id].(pending := false)], connOpened := a.connOpened + 1)
    ensures LedgerOk(b, h, d)
    ensures forall unsaved :: BarriersOk(a, unsaved) ==> BarriersOk(b, unsaved)
  {
    hide PastOk, Converged, Settled, ParkedOk, NothingForgotten;
    assert ActiveIds(b.members) == ActiveIds(a.members) + {id};
    SameTrafficLedger(a, b, h, d);
  }

  lemma ActivateSettles(a: Net, b: Net, c: Net, id: ConnId)
    requires id in a.members && Thinned(b, c, {})
    requires b == a.(members := a.members[id := a.members[id].(pending := false)], connOpened := a.connOpened + 1)
    ensures Settling(a, c) && c.connOpened == b.connOpened && c.ends == a.ends
    ensures id in c.members ==> !c.members[id].pending
  {}

  lemma ActivateCounts(a: Net, b: Net, id: ConnId)
    requires id in a.members && a.members[id].pending
    requires b == a.(members := a.members[id := a.members[id].(pending := false)], connOpened := a.connOpened + 1)
    ensures |ActiveIds(b.members)| == |ActiveIds(a.members)| + 1
    ensures forall k, f {:trigger Sent(b, k, f)} :: Sent(a, k, f) <= Sent(b, k, f)
  {
    assert ActiveIds(b.members) == ActiveIds(a.members) + {id};
  }

  ghost predicate SettlingBut(a: Net, b: Net, id: ConnId) {
    && b.members.Keys <= a.members.Keys
    && (forall k | k in a.members :: k in b.members || k in b.shed || k in b.ends || k == id)
    && b.quota == a.quota && a.shed <= b.shed && a.ends.Keys <= b.ends.Keys
    && b.log.Keys == a.log.Keys
    && (forall k | k in b.members && k in a.members :: b.members[k].mode == a.members[k].mode)
  }

  lemma SettlingButRefl(a: Net, id: ConnId)
    ensures SettlingBut(a, a, id)
  {}

  lemma LeaveDropped(a: Net, b: Net, h: History, d: Docs, id: ConnId, unsaved: bool)
    requires LedgerOk(a, h, d) && BarriersOk(a, unsaved) && NetOk(b) && id !in b.members
    requires Casted(a, b, {id}, {id}, map[])
    ensures LedgerOk(b, h, d) && BarriersOk(b, unsaved) && SettlingBut(a, b, id) && b.ends == a.ends
  {
    hide LedgerOk, NetOk, Delivered;
    NeutralCast(a, b, h, d, {id}, {id}, map[]);
  }

  lemma LeaveTold(a: Net, b: Net, c: Net, id: ConnId, unsaved: bool)
    requires SettlingBut(a, b, id) && BarriersOk(b, unsaved) && id !in b.members && Thinned(b, c, {})
    ensures SettlingBut(a, c, id) && BarriersOk(c, unsaved) && id !in c.members && c.ends == b.ends
  {}

  lemma CastedMonotone(a: Net, b: Net, hit: set<ConnId>, gone: set<ConnId>, post: map<ConnId, Frame>)
    requires Casted(a, b, hit, gone, post)
    ensures forall k, f {:trigger Sent(b, k, f)} :: Sent(a, k, f) <= Sent(b, k, f)
  {}

  /** The queue, the sessions' flags and the identifiers agree with the history. */
  ghost predicate BooksOk(queue: seq<Command>, h: History, dropped: map<ConnId, bool>, left: set<ConnId>, nextID: ConnId) {
    && QueueOk(queue, h) && AllSettled(h) && DroppedOk(dropped, h)
    && (forall k | k in h :: 0 < k <= nextID)
    && (forall k | k in left :: k <= nextID)
    && (forall i | 0 <= i < |queue| && queue[i].CmdLeave? :: queue[i].src <= nextID)
  }

  /** A command an acquirer owed is on its way: its join, or the leave of a refused admission. */
  ghost predicate Expected(queue: seq<Command>) {
    exists i | 0 <= i < |queue| :: queue[i].CmdJoin? || queue[i] == CmdLeave(0)
  }

  ghost predicate WatchedOk(n: Net, scheduled: bool, waiting: nat, queue: seq<Command>, h: History, left: set<ConnId>) {
    && n.members.Keys <= h.Keys - left
    && (scheduled || waiting > 0 || Expected(queue) || h.Keys - left != {})
  }

  ghost predicate PlacedOk(n: Net, h: History, left: set<ConnId>) {
    forall k | k in h :: k in n.log && (k in n.members || k in n.ends || k in n.shed || k in left)
  }

  /** At most one registered member may write. */
  ghost predicate SingleWriter(n: Net) {
    forall j, k | j in n.members && k in n.members && n.members[j].mode == Collaborator && n.members[k].mode == Collaborator :: j == k
  }

  /** Nobody is registered with more than its join asked for. */
  ghost predicate NoMoreThanAsked(n: Net, asked: map<ConnId, Mode>) {
    forall k | k in n.members :: k in asked && (asked[k] == Viewer ==> n.members[k].mode == Viewer)
  }

  /** What a join asked for is not rewritten later. */
  ghost predicate Remembered(asked: map<ConnId, Mode>, later: map<ConnId, Mode>) {
    forall k | k in asked :: k in later && later[k] == asked[k]
  }

  ghost predicate WritersOk(n: Net, single: bool, isMultiUser: Option<bool>, asked: map<ConnId, Mode>) {
    && (single ==> isMultiUser == Some(false) && SingleWriter(n))
    && NoMoreThanAsked(n, asked)
  }

  ghost predicate AskedSingle(queue: seq<Command>) {
    forall i | 0 <= i < |queue| && queue[i].CmdJoin? :: queue[i].isMultiUser != Some(true)
  }

  /** Time passes only up to the next deadline. */
  predicate InTime(now: nat, clock: nat, saveTimer: Option<nat>, idleTimer: Option<nat>) {
    clock <= now && (saveTimer.Some? ==> now <= saveTimer.value) && (idleTimer.Some? ==> now <= idleTimer.value)
  }

  /** A join or a refusal is an acquirer's to send; a leave is of a session there was, or a refusal. */
  predicate Submittable(c: Command, waiting: nat, h: History) {
    && !c.CmdMessage?
    && (c.CmdJoin? || c == CmdLeave(0) ==> waiting > 0)
    && (c.CmdLeave? ==> c.src == 0 || c.src in h)
  }

  lemma HeadFrame(queue: seq<Command>, h: History)
    requires QueueOk(queue, h) && queue != [] && queue[0].CmdMessage?
    ensures FrameOk(queue[0], h)
  {}

  lemma HistoryOf(n: Net, h: History, d: Docs)
    requires LedgerOk(n, h, d)
    ensures HistoryOk(h)
  {}

  lemma FreshHead(n: Net, h: History, d: Docs, src: ConnId, pos: nat)
    requires LedgerOk(n, h, d) && src in n.members && src in h
    requires h[src].handled <= pos < |h[src].sent| && pos !in h[src].refused
    ensures Fresh(n, h[src := Begun(h[src], pos)], src, pos)
  {
    if n.members[src].barrier.Some? {
      assert Parked(n, h, src);
    }
    forall x: nat ensures Answers(n, src, Request(x, pos)) == 0 {
      assert src in n.log;
    }
  }

  /** Taking the frame at the head of the queue: what the handler may rely on. */
  lemma TakeFrame(n: Net, queue: seq<Command>, h: History, d: Docs, dropped: map<ConnId, bool>, left: set<ConnId>, nextID: ConnId)
    requires LedgerOk(n, h, d) && BooksOk(queue, h, dropped, left, nextID) && queue != [] && queue[0].CmdMessage?
    ensures var c := queue[0];
            && c.src in h && c.pos < |h[c.src].sent| && c.frame == h[c.src].sent[c.pos]
            && LedgerOk(n, h[c.src := Begun(h[c.src], c.pos)], d)
            && (c.src in n.members ==> Fresh(n, h[c.src := Begun(h[c.src], c.pos)], c.src, c.pos))
            && (!c.sessionDropped ==> forall q | q in h[c.src].refused :: q > c.pos)
            && QueueOk(queue[1..], h[c.src := Begun(h[c.src], c.pos)])
            && 0 !in h
  {
    hide LedgerOk, QueueOk, Fresh;
    var c := queue[0];
    HeadFrame(queue, h);
    HistoryOf(n, h, d);
    PopFrame(queue, h);
    assert h[c.src].settled == h[c.src].handled;
    BeginLedger(n, h, d, c.src, c.pos);
    if c.src in n.members {
      FreshHead(n, h, d, c.src, c.pos);
    }
  }

  lemma RelabelledHead(g: History, e: History, src: ConnId)
    requires Relabelled(g, e) && src in g
    ensures src in e && e.Keys == g.Keys && e[src] == g[src].(synced := e[src].synced)
  {}

  lemma FrameDone(queue: seq<Command>, h: History, g: History, e: History, dropped: map<ConnId, bool>, left: set<ConnId>, nextID: ConnId)
    requires BooksOk(queue, h, dropped, left, nextID) && queue != [] && queue[0].CmdMessage? && queue[0].src in h
    requires g == h[queue[0].src := Begun(h[queue[0].src], queue[0].pos)] && Relabelled(g, e)
    requires QueueOk(queue[1..], g)
    ensures BooksOk(queue[1..], e[queue[0].src := Done(e[queue[0].src])], dropped, left, nextID)
  {
    hide QueueOk;
    QueueIgnores(queue[1..], g, e[queue[0].src := Done(e[queue[0].src])]);
  }

  lemma SettlingPlaces(a: Net, b: Net, h: History, left: set<ConnId>)
    requires PlacedOk(a, h, left) && Settling(a, b)
    ensures PlacedOk(b, h, left)
    ensures forall single, decision, asked :: WritersOk(a, single, decision, asked) ==> WritersOk(b, single, decision, asked)
    ensures b.quota == a.quota
  {}

  lemma SettlingShrinks(a: Net, b: Net)
    requires Settling(a, b)
    ensures b.members.Keys <= a.members.Keys
  {}

  lemma SamePlaces(n: Net, h: History, g: History, left: set<ConnId>)
    requires PlacedOk(n, h, left) && g.Keys == h.Keys
    ensures PlacedOk(n, g, left)
  {}

  /** Putting the frame behind: its update landed and its request is accounted for, or its session is gone. */
  lemma FinishFrame(a: Net, b: Net, queue: seq<Command>, h: History, g: History, e: History, d: Docs,
                    dropped: map<ConnId, bool>, left: set<ConnId>, nextID: ConnId)
    requires queue != [] && queue[0].CmdMessage? && queue[0].src in h && queue[0].pos < |h[queue[0].src].sent|
    requires BooksOk(queue, h, dropped, left, nextID) && PlacedOk(a, h, left)
    requires g == h[queue[0].src := Begun(h[queue[0].src], queue[0].pos)] && Relabelled(g, e)
    requires QueueOk(queue[1..], g)
    requires Settling(a, b) && LedgerOk(b, e, d)
    requires var c := queue[0];
             c.src in b.members ==> Landed(h[c.src].sent[c.pos], d.live) && Accounted(b, c.src, c.pos, h[c.src].sent[c.pos])
    ensures queue[0].src in e && e.Keys == h.Keys && e[queue[0].src].handled == queue[0].pos + 1
    ensures var f := e[queue[0].src := Done(e[queue[0].src])];
            LedgerOk(b, f, d) && BooksOk(queue[1..], f, dropped, left, nextID) && PlacedOk(b, f, left)
    ensures b.members.Keys <= a.members.Keys
    ensures forall single, decision, asked :: WritersOk(a, single, decision, asked) ==> WritersOk(b, single, decision, asked)
    ensures b.quota == a.quota
  {
    hide LedgerOk, QueueOk, BooksOk, Relabelled, Settling, PlacedOk, WritersOk, Landed, Accounted;
    var src := queue[0].src;
    RelabelledHead(g, e, src);
    DoneLedger(b, e, d, src);
    FrameDone(queue, h, g, e, dropped, left, nextID);
    SettlingPlaces(a, b, h, left);
    SettlingShrinks(a, b);
    SamePlaces(b, h, e[src := Done(e[src])], left);
  }

  lemma ExpectedAfterPop(queue: seq<Command>)
    requires queue != [] && !queue[0].CmdJoin? && queue[0] != CmdLeave(0)
    ensures Expected(queue) ==> Expected(queue[1..])
  {
    if !Expected(queue) {
      return;
    }
    var i :| 0 <= i < |queue| && (queue[i].CmdJoin? || queue[i] == CmdLeave(0));
    assert queue[1..][i - 1] == queue[i];
  }

  /** A command that is neither a join nor an acquirer's refusal is taken: an empty room stays watched. */
  lemma PopWatched(a: Net, b: Net, was: bool, scheduled: bool, waiting: nat, queue: seq<Command>, h: History, g: History, left: set<ConnId>)
    requires WatchedOk(a, was, waiting, queue, h, left) && queue != [] && !queue[0].CmdJoin? && queue[0] != CmdLeave(0)
    requires b.members.Keys <= a.members.Keys && g.Keys == h.Keys && (was ==> scheduled)
    ensures WatchedOk(b, scheduled, waiting, queue[1..], g, left)
  {
    ExpectedAfterPop(queue);
  }

  lemma QueuedWatched(a: Net, b: Net, scheduled: bool, waiting: nat, queue: seq<Command>, longer: seq<Command>,
                      h: History, g: History, left: set<ConnId>)
    requires WatchedOk(a, scheduled, waiting, queue, h, left) && queue <= longer && b.members == a.members && g.Keys == h.Keys
    ensures WatchedOk(b, scheduled, waiting, longer, g, left)
  {
    assert forall i | 0 <= i < |queue| :: longer[i] == queue[i];
  }

  lemma BooksIds(queue: seq<Command>, h: History, dropped: map<ConnId, bool>, left: set<ConnId>, nextID: ConnId)
    requires BooksOk(queue, h, dropped, left, nextID)
    ensures forall k | k in h :: 0 < k <= nextID
    ensures nextID + 1 !in left
  {}

  lemma BooksPop(queue: seq<Command>, h: History, dropped: map<ConnId, bool>, left: set<ConnId>, nextID: ConnId)
    requires BooksOk(queue, h, dropped, left, nextID) && queue != [] && !queue[0].CmdMessage?
    ensures BooksOk(queue[1..], h, dropped, left, nextID)
  {
    hide QueueOk;
    PopOther(queue, h);
  }

  lemma JoinWriters(a: Net, b: Net, before: Option<bool>, decision: Option<bool>, was: bool, requested: Mode,
                    asked: map<ConnId, Mode>, later: map<ConnId, Mode>, id: Option<ConnId>)
    requires WritersOk(a, was, before, asked)
    requires id.None? ==> b == a && later == asked
    requires id.Some? ==>
               && id.value in b.members && b.members == a.members[id.value := b.members[id.value]]
               && later == asked[id.value := requested]
               && (requested == Viewer ==> b.members[id.value].mode == Viewer)
               && ((if decision.Some? then decision else before) == Some(false) && b.members[id.value].mode == Collaborator ==>
                     forall k | k in a.members :: a.members[k].mode == Viewer)
    ensures WritersOk(b, was && decision != Some(true), if decision.Some? then decision else before, later)
  {
    if decision.Some? {
      assert decision == if decision.value then Some(true) else Some(false);
    }
  }

  /** An identifier may stay unused. */
  lemma BooksSkip(queue: seq<Command>, h: History, dropped: map<ConnId, bool>, left: set<ConnId>, last: ConnId, nextID: ConnId)
    requires BooksOk(queue, h, dropped, left, last) && last <= nextID
    ensures BooksOk(queue, h, dropped, left, nextID)
  {}

  lemma BooksJoin(queue: seq<Command>, h: History, dropped: map<ConnId, bool>, left: set<ConnId>, nextID: ConnId, own: Doc)
    requires BooksOk(queue, h, dropped, left, nextID)
    ensures BooksOk(queue, h[nextID + 1 := NewSession(own)], dropped[nextID + 1 := false], left, nextID + 1)
  {
    hide QueueOk;
    QueueNewSession(queue, h, nextID + 1, NewSession(own));
  }

  lemma PlacesJoin(a: Net, b: Net, h: History, left: set<ConnId>, id: ConnId, own: Doc)
    requires PlacedOk(a, h, left) && id in b.members
    requires b == a.(members := b.members, log := a.log[id := []]) && b.members == a.members[id := b.members[id]]
    ensures PlacedOk(b, h[id := NewSession(own)], left)
    ensures b.quota == a.quota
  {}

  lemma JoinWatched(a: Net, b: Net, was: bool, scheduled: bool, waiting: nat, queue: seq<Command>, rest: seq<Command>,
                    h: History, g: History, left: set<ConnId>, id: Option<ConnId>)
    requires WatchedOk(a, was, waiting, queue, h, left)
    requires id.None? ==> b == a && g == h
    requires id.Some? ==>
               && id.value !in left && id.value in b.members && g.Keys == h.Keys + {id.value}
               && b.members == a.members[id.value := b.members[id.value]]
    requires scheduled <==> b.members == map[]
    ensures WatchedOk(b, scheduled, waiting, rest, g, left)
  {
    if !scheduled {
      var k :| k in b.members;
      assert k in g.Keys - left;
    }
  }

  lemma BooksLeave(queue: seq<Command>, h: History, dropped: map<ConnId, bool>, left: set<ConnId>, nextID: ConnId)
    requires BooksOk(queue, h, dropped, left, nextID) && queue != [] && queue[0].CmdLeave?
    ensures BooksOk(queue[1..], h, dropped, left + {queue[0].src}, nextID)
  {
    BooksPop(queue, h, dropped, left, nextID);
  }

  lemma PlacesLeave(a: Net, b: Net, h: History, left: set<ConnId>, src: ConnId)
    requires PlacedOk(a, h, left) && SettlingBut(a, b, src)
    ensures PlacedOk(b, h, left + {src})
    ensures b.members.Keys <= a.members.Keys
    ensures forall single, decision, asked :: WritersOk(a, single, decision, asked) ==> WritersOk(b, single, decision, asked)
    ensures b.quota == a.quota
  {}

  lemma BooksFlags(queue: seq<Command>, h: History, dropped: map<ConnId, bool>, left: set<ConnId>, nextID: ConnId)
    requires BooksOk(queue, h, dropped, left, nextID)
    ensures DroppedOk(dropped, h) && 0 !in h
  {}

  lemma StoredSub(n: Net, h: History, d: Docs)
    requires LedgerOk(n, h, d)
    ensures d.stored <= d.live
  {}

  lemma PlacedAfterEnd(a: Net, b: Net, h: History, left: set<ConnId>, code: EndCode)
    requires PlacedOk(a, h, left) && Informed(a, b, code) && b.members == map[]
    ensures PlacedOk(b, h, left)
    ensures forall single, decision, asked :: WritersOk(a, single, decision, asked) ==> WritersOk(b, single, decision, asked)
    ensures b.quota == a.quota
  {}

  /** A clean room has no request outstanding. */
  lemma FlushNothing(n: Net)
    requires BarriersOk(n, false)
    ensures AnsweredOrShed(n, n) && ToldPersisted(n, n)
  {}

  lemma EndAnswers(a: Net, b: Net, code: EndCode)
    requires Informed(a, b, code)
    ensures AnsweredOrShed(a, b)
  {}

  lemma FlushKeeps(a: Net, b: Net, h: History, left: set<ConnId>, persisted: bool, periodic: bool)
    requires PlacedOk(a, h, left) && BarriersOk(a, periodic) && Answered(a, b, {}, persisted)
    ensures PlacedOk(b, h, left) && BarriersOk(b, false) && BarriersOk(b, periodic)
    ensures AnsweredOrShed(a, b) && if persisted then ToldPersisted(a, b) else ToldFailed(a, b)
    ensures b.members.Keys <= a.members.Keys
    ensures forall single, decision, asked :: WritersOk(a, single, decision, asked) ==> WritersOk(b, single, decision, asked)
    ensures b.quota == a.quota
  {
    hide AnsweredOrShed;
    AnsweredGives(a, b, persisted);
  }

  lemma MemberOwes(n: Net, h: History, left: set<ConnId>)
    requires n.members.Keys <= h.Keys - left && n.members != map[]
    ensures h.Keys - left != {}
  {
    var k :| k in n.members;
    assert k in h.Keys - left;
  }

  lemma ForwardBooks(n: Net, queue: seq<Command>, h: History, d: Docs, dropped: map<ConnId, bool>, left: set<ConnId>, nextID: ConnId,
                     k: ConnId, f: ClientFrame, edits: Doc)
    requires LedgerOk(n, h, d) && BooksOk(queue, h, dropped, left, nextID) && k in h
    ensures k in dropped
    ensures BooksOk(queue + [CmdMessage(k, |h[k].sent|, f, dropped[k])], h[k := Forwarded(h[k], f, edits, true)], dropped, left, nextID)
    ensures BooksOk(queue, h[k := Forwarded(h[k], f, edits, false)], dropped[k := true], left, nextID)
  {
    hide LedgerOk, QueueOk;
    HistoryOf(n, h, d);
    ForwardAdmitted(queue, h, dropped, k, f, edits);
    ForwardRefused(queue, h, dropped, k, f, edits);
  }

  lemma ForwardPlaces(n: Net, h: History, left: set<ConnId>, k: ConnId, f: ClientFrame, edits: Doc, admitted: bool)
    requires PlacedOk(n, h, left) && k in h
    ensures PlacedOk(n, h[k := Forwarded(h[k], f, edits, admitted)], left)
  {}

  lemma ForwardBoth(n: Net, queue: seq<Command>, h: History, d: Docs, dropped: map<ConnId, bool>, left: set<ConnId>, nextID: ConnId,
                    k: ConnId, f: ClientFrame, edits: Doc, admitted: bool)
    requires LedgerOk(n, h, d) && BooksOk(queue, h, dropped, left, nextID) && PlacedOk(n, h, left)
    requires k in h && Sendable(n, h[k], k, f, edits)
    ensures k in dropped
    ensures var g := h[k := Forwarded(h[k], f, edits, admitted)];
            && LedgerOk(n, g, d) && PlacedOk(n, g, left)
            && BooksOk(if admitted then queue + [CmdMessage(k, |h[k].sent|, f, dropped[k])] else queue, g,
                       if admitted then dropped else dropped[k := true], left, nextID)
  {
    hide LedgerOk, BooksOk, PlacedOk, WritersOk, Sendable;
    ForwardLedger(n, h, d, k, f, edits, admitted);
    ForwardBooks(n, queue, h, d, dropped, left, nextID, k, f, edits);
    ForwardPlaces(n, h, left, k, f, edits, admitted);
  }

  lemma ExpectedAfterAppend(queue: seq<Command>, c: Command)
    ensures Expected(queue + [c]) <==> Expected(queue) || c.CmdJoin? || c == CmdLeave(0)
  {
    if Expected(queue) {
      var i :| 0 <= i < |queue| && (queue[i].CmdJoin? || queue[i] == CmdLeave(0));
      assert (queue + [c])[i] == queue[i];
    }
    assert (queue + [c])[|queue|] == c;
  }

  lemma HasLog(n: Net, h: History, left: set<ConnId>, k: ConnId)
    requires PlacedOk(n, h, left) && k in h
    ensures k in n.log
  {}

  lemma PastIgnoresRefusal(a: Net, b: Net, h: History, d: Docs, k: ConnId, code: EndCode)
    requires PastOk(a, h, d) && k in a.log && Offered(a, b, k, SessionEndFrame(code))
    ensures PastOk(b, h, d) && Excused(b, k, code)
    ensures forall x, f {:trigger Sent(b, x, f)} :: Sent(a, x, f) <= Sent(b, x, f)
  {
    hide PastOk;
    PastAppend(a, b, h, d, k, code);
    if b.log != a.log {
      assert SessionEndFrame(code) in b.log[k];
    }
  }

  lemma StrangersChangeNothing(a: Net, b: Net, h: History, live: Doc, k: ConnId, code: EndCode)
    requires ParkedOk(a, h) && NothingForgotten(a, h) && Settled(a, h, live) && Converged(a, h, live)
    requires k in a.log && k !in a.members && Offered(a, b, k, SessionEndFrame(code))
    ensures ParkedOk(b, h) && NothingForgotten(b, h) && Settled(b, h, live) && Converged(b, h, live)
  {
    hide Landed;
    forall x, r | x in a.members ensures Answers(b, x, r) == Answers(a, x, r) {}
    forall x | x in b.members && b.members[x].barrier.Some? ensures Parked(b, h, x) {
      assert Parked(a, h, x);
    }
    forall x, q: nat | x in b.members && x in h && Finished(h[x], q) ensures Accounted(b, x, q, h[x].sent[q]) {
      assert Accounted(a, x, q, h[x].sent[q]);
    }
  }

  lemma WordToStranger(a: Net, b: Net, h: History, d: Docs, k: ConnId, code: EndCode)
    requires LedgerOk(a, h, d) && k in a.log && k !in a.members && Offered(a, b, k, SessionEndFrame(code))
    ensures LedgerOk(b, h, d) && Excused(b, k, code)
  {
    hide PastOk, ParkedOk, NothingForgotten, Settled, Converged;
    PastIgnoresRefusal(a, b, h, d, k, code);
    StrangersChangeNothing(a, b, h, d.live, k, code);
  }

  /** One more frame that answers nothing and carries nothing, to any connection, member or not. */
  lemma LastWord(a: Net, b: Net, h: History, d: Docs, left: set<ConnId>, k: ConnId, code: EndCode)
    requires LedgerOk(a, h, d) && PlacedOk(a, h, left) && k in a.log && Offered(a, b, k, SessionEndFrame(code))
    ensures LedgerOk(b, h, d) && PlacedOk(b, h, left) && Excused(b, k, code)
    ensures forall unsaved :: BarriersOk(a, unsaved) ==> BarriersOk(b, unsaved)
    ensures forall single, decision, asked :: WritersOk(a, single, decision, asked) ==> WritersOk(b, single, decision, asked)
    ensures b.quota == a.quota
  {
    hide LedgerOk, NetOk, Excused;
    if k in a.members {
      FarewellSent(a, b, h, d, k, code);
    } else {
      WordToStranger(a, b, h, d, k, code);
    }
  }

  lemma EndPlaces(b: Net, c: Net, h: History, left: set<ConnId>, unsaved: bool)
    requires PlacedOk(b, h, left) && BarriersOk(b, unsaved) && c == b.(ends := c.ends) && b.ends.Keys <= c.ends.Keys
    ensures PlacedOk(c, h, left) && BarriersOk(c, unsaved)
    ensures forall single, decision, asked :: WritersOk(b, single, decision, asked) ==> WritersOk(c, single, decision, asked)
  {}

  lemma LateFlags(h: History, dropped: map<ConnId, bool>, k: ConnId, f: ClientFrame, edits: Doc)
    requires DroppedOk(dropped, h) && k in h
    ensures DroppedOk(dropped[k := true], h[k := Forwarded(h[k], f, edits, false)])
  {
    assert |h[k].sent| in Forwarded(h[k], f, edits, false).refused;
  }

  lemma BooksSubmit(queue: seq<Command>, h: History, dropped: map<ConnId, bool>, left: set<ConnId>, nextID: ConnId, c: Command)
    requires BooksOk(queue, h, dropped, left, nextID) && !c.CmdMessage? && (c.CmdLeave? ==> c.src == 0 || c.src in h)
    ensures BooksOk(queue + [c], h, dropped, left, nextID)
  {
    hide QueueOk;
    AppendOther(queue, h, c);
  }

  lemma FreshLedger(n: Net, d: Docs, decision: Option<bool>)
    requires n == Net(map[], map[], {}, map[], map[], {}, 0, 0, n.quota) && d.stored == d.live
    ensures LedgerOk(n, map[], d) && BarriersOk(n, false) && BarriersOk(n, true)
    ensures PlacedOk(n, map[], {}) && WritersOk(n, decision == Some(false), decision, map[])
  {
    assert ActiveIds(n.members) == {};
  }

  lemma FreshBooks(nextID: ConnId)
    ensures BooksOk([], map[], map[], {}, nextID)
  {}

  lemma SingleTail(queue: seq<Command>)
    requires queue != []
    ensures AskedSingle(queue) ==> AskedSingle(queue[1..])
  {}

  lemma PastStands(n: Net, h: History, d: Docs)
    requires PastOk(n, h, d)
    ensures AnswersStand(n, h, d.stored)
  {}
}
