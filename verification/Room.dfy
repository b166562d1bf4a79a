/**
 * The live room: one run loop that owns the document, the member registry, the durability state and
 * the timers (internal/domain/service/room.go, flush.go, sync.go, lifecycle_state.go). How many frames
 * a connection takes and what stores, limits and encoder reply are inputs, and the contracts say what
 * follows from each.
 */
module RoomLoop {
  import opened Basics
  import opened Crdt
  import opened Lifecycle
  import opened RoomNet
  import opened RoomLedger
  import opened RoomQueue
  import opened RoomRules
  import opened RoomSteps

  class Room {
    const cfg: Config

    /** The world's: how many frames each connection will take. */
    const quota: ConnId -> nat

    var content: ContentType
    var lc: Phase

    /** The registry with what it has sent: everything an eviction touches. */
    var net: Net
    var nextID: ConnId
    var isMultiUser: Option<bool>

    var doc: Doc
    var shadow: Option<Doc>
    var docUpdates: nat

    var dirty: bool
    var flushFailures: nat
    var undurableSince: Option<nat>
    var version: nat

    var saveTimer: Option<nat>
    var idleTimer: Option<nat>
    var commands: seq<Command>

    // The world around the loop: the clock, the stored checkpoint, the version the index row holds, and each session's `dropped` flag.
    var clock: nat
    var stored: Doc
    var indexed: nat
    var dropped: map<ConnId, bool>

    // How many acquirers hold this room without having sent it their command yet.
    var waiting: nat

    // Observations: outbound traffic, gauges, and the history of every session.
    ghost var left: set<ConnId>

    // What each session's join asked for.
    ghost var asked: map<ConnId, Mode>

    // The document was single-user from the start and no join said otherwise.
    ghost var single: bool
    ghost var escalations: nat
    var history: History
    ghost var dirtySince: nat

    ghost function D(): Docs
      reads `doc, `stored
    {
      Docs(doc, stored)
    }

    ghost predicate Ledger()
      reads `net
      reads `doc, `stored, `history
    {
      LedgerOk(net, history, D())
    }

    // --- Delivery and eviction -------------------------------------------------------------------

    /** `Conn.Send`: the connection takes the frame or refuses it, and takes nothing behind its end. */
    method Send(id: ConnId, frame: Frame) returns (ok: bool)
      requires id in net.log
      modifies `net
      ensures Offered(old(net), net, id, frame)
      ensures ok <==> id !in old(net).ends && |old(net).log[id]| < old(net).quota(id)
    {
      ok := id !in net.ends && |net.log[id]| < net.quota(id);
      if id in net.ends {
        return;
      }
      if ok {
        net := net.(log := net.log[id := net.log[id] + [frame]]);
      } else {
        net := net.(shed := net.shed + {id});
      }
    }

    method SendMember(id: ConnId, frame: Frame)
      requires NetOk(net) && id in net.members
      modifies `net
      ensures NetOk(net) && Casted(old(net), net, {id}, {}, map[id := frame])
      decreases |net.members|, 1
    {
      ghost var a := net;
      var ok := Send(id, frame);
      if ok {
        SentCasted(a, net, id, frame);
      } else {
        ghost var r := net;
        RefusedOnly(a, r, id);
        var _ := DropMember(id);
        ghost var b := net;
        net := net.(shed := net.shed + {id});
        ShedInstead(a, r, b, net, id, frame);
      }
    }

    /**
     * Takes a member out before telling anyone, so that a send that fails while telling the rest can
     * re-enter here without ever meeting the same member twice.
     */
    method DropMember(id: ConnId) returns (removed: bool)
      requires NetOk(net)
      modifies `net
      ensures removed == (id in old(net.members)) && id !in net.members
      ensures NetOk(net)
      ensures removed ==> Casted(old(net), net, {id}, {id}, map[])
      ensures !removed ==> net == old(net)
      decreases |net.members|, 0
    {
      if id !in net.members {
        return false;
      }
      ghost var a := net;
      var m := net.members[id];
      net := net.(members := net.members - {id});
      if !m.pending {
        net := net.(connClosed := net.connClosed + 1);
      }
      if m.client.Some? && m.client.value in net.owners && net.owners[m.client.value] == id {
        net := net.(owners := net.owners - {m.client.value}, presence := net.presence - {m.client.value});
        ghost var b := net;
        DeregisteredOk(a, b, id);
        Broadcast(RemovalFrame(m.client.value), id);
        EvictCasted(a, b, net, id);
      } else {
        DeregisteredOk(a, net, id);
      }
      return true;
    }

    /** Sends to every visible member but one, while members may vanish under the iteration. */
    method Broadcast(frame: Frame, except: ConnId)
      requires NetOk(net)
      modifies `net
      ensures NetOk(net) && Casted(old(net), net, {}, {}, ToAll(old(net.members), except, frame))
      decreases |net.members|, 2
    {
      hide Casted, NetOk, Visited, ToAll;
      var todo := net.members.Keys;
      ghost var a := net;
      ghost var post := VisitNone(a, except, frame);
      while todo != {}
        invariant NetOk(net) && NetOk(a)
        invariant |net.members| <= |a.members|
        invariant Visited(a, net, todo, except, frame, post)
        decreases |todo|
      {
        var id :| id in todo;
        ghost var was := todo;
        todo := todo - {id};
        ghost var b := net;
        if id in net.members && id != except && !net.members[id].pending {
          SendMember(id, frame);
          VisitSent(a, b, net, was, id, except, frame, post);
          post := post[id := frame];
        } else {
          VisitSkipped(a, net, was, id, except, frame, post);
        }
      }
      VisitAll(a, net, except, frame, post);
    }

    /** `broadcastControlExcept`, and the relaying of a member's awareness and ephemeral frames. */
    method BroadcastControl(frame: Frame, except: ConnId)
      requires Ledger() && !IsAnswer(frame) && OpsOf(frame) == {}
      modifies `net
      ensures Ledger()
      ensures Casted(old(net), net, {}, {}, ToAll(old(net.members), except, frame))
      ensures Thinned(old(net), net, {})
    {
      hide NetOk, PastOk, Casted, Converged, Settled, ParkedOk, NothingForgotten;
      ghost var a := net;
      Broadcast(frame, except);
      NeutralCast(a, net, history, D(), {}, {}, ToAll(a.members, except, frame));
      CastedThins(a, net, {}, {}, ToAll(a.members, except, frame));
    }

    /** `sendTo` with a frame that neither answers a request nor carries content. */
    method SendControl(id: ConnId, frame: Frame)
      requires Ledger() && !IsAnswer(frame) && OpsOf(frame) == {}
      modifies `net
      ensures Ledger()
      ensures id in old(net.members) ==> Casted(old(net), net, {id}, {}, map[id := frame])
      ensures id !in old(net.members) ==> net == old(net)
      ensures Thinned(old(net), net, {})
    {
      hide NetOk, PastOk, Casted, Converged, Settled, ParkedOk, NothingForgotten;
      ghost var a := net;
      ThinnedRefl(a);
      if id in net.members {
        SendMember(id, frame);
        NeutralCast(a, net, history, D(), {id}, {}, map[id := frame]);
        CastedThins(a, net, {id}, {}, map[id := frame]);
      }
    }

    // --- Durability requests ---------------------------------------------------------------------

    /** Clears one member's barrier and answers it: state first, send second. */
    method AnswerOne(id: ConnId, persisted: bool)
      requires Ledger() && id in net.members && net.members[id].barrier.Some?
      requires persisted ==> stored == doc
      modifies `net
      ensures Ledger()
      ensures Casted(Cleared(old(net), id), net, {id}, {}, map[id := AnswerTo(old(net.members)[id].barrier.value, persisted)])
      ensures id in net.members ==>
                var r := old(net).members[id].barrier.value;
                && net.members[id].barrier.None?
                && Sent(net, id, PersistedFrame(r)) == Sent(old(net), id, PersistedFrame(r)) + (if persisted then 1 else 0)
                && Sent(net, id, PersistFailedFrame(r)) == Sent(old(net), id, PersistFailedFrame(r)) + (if persisted then 0 else 1)
    {
      hide LedgerOk, NetOk, PastOk, RegistryOk, Casted, Covered;
      ghost var a := net;
      LedgerNet(a, history, D());
      AnswerReady(a, history, D(), id);
      var pending := net.members[id].barrier.value;
      net := net.(members := net.members[id := net.members[id].(barrier := None)]);
      assert net == Cleared(a, id);
      ClearedOk(a, id);
      SendMember(id, AnswerTo(pending, persisted));
      ParkedAnswer(a, net, history, D(), id, AnswerTo(pending, persisted));
      AnswerArrives(a, net, id, pending, persisted);
      CastedKeeps(Cleared(a, id), net, {id}, {}, map[id := AnswerTo(pending, persisted)]);
    }

    /** `resolveBarriers` when persisted, `failBarriers` otherwise: every outstanding request is answered. */
    method AnswerAll(persisted: bool)
      requires Ledger()
      requires persisted ==> stored == doc
      modifies `net
      ensures Ledger()
      ensures Answered(old(net), net, {}, persisted)
      ensures if persisted then ToldPersisted(old(net), net) else ToldFailed(old(net), net)
    {
      hide NetOk, PastOk, Casted, Converged, Settled, ParkedOk, NothingForgotten, Answered, ToldPersisted, ToldFailed;
      var todo := net.members.Keys;
      ghost var a := net;
      AnsweredNone(a, history, D(), persisted);
      while todo != {}
        invariant Ledger() && Answered(a, net, todo, persisted)
        decreases |todo|
      {
        var id :| id in todo;
        ghost var was := todo;
        todo := todo - {id};
        ghost var b := net;
        if id in net.members && net.members[id].barrier.Some? {
          AnswerOne(id, persisted);
          AnsweredStep(a, b, net, was, id, persisted);
        } else {
          AnsweredSkip(a, net, was, id, persisted);
        }
      }
      AnsweredTells(a, net, persisted);
    }

    /** `failMemberBarrier`. */
    method FailMemberBarrier(src: ConnId)
      requires Ledger()
      modifies `net
      ensures Ledger() && Thinned(old(net), net, {})
      ensures src in net.members ==> net.members[src].barrier.None?
      ensures RequestFailed(old(net), net, src) && OthersKept(old(net), net, src)
    {
      hide NetOk, PastOk, Casted, Converged, Settled, ParkedOk, NothingForgotten, Thinned;
      ghost var a := net;
      ThinnedRefl(a);
      if src !in net.members || net.members[src].barrier.None? {
        return;
      }
      ClearedThins(a, src);
      AnswerOne(src, false);
      CastedKeeps(Cleared(a, src), net, {src}, {}, map[src := AnswerTo(a.members[src].barrier.value, false)]);
      CastedThins(Cleared(a, src), net, {src}, {}, map[src := AnswerTo(a.members[src].barrier.value, false)]);
      ClearedOk(a, src);
      ThinnedTrans(a, Cleared(a, src), net, {}, {});
      NoneGone(a, net);
      FailureSent(a, net, src);
    }

    // --- Durability and teardown -----------------------------------------------------------------

    /** Live and stored content satisfy the schema, and a clean room is a stored room. */
    ghost predicate Documents()
      reads `content, `doc, `stored, `dirty
    {
      ValidContent(content, doc) && ValidContent(content, stored) && (!dirty ==> stored == doc)
    }

    ghost predicate Healthy()
      reads `flushFailures, `undurableSince, `dirty
    {
      && flushFailures < Threshold(cfg)
      && (flushFailures == 0 <==> undurableSince.None?)
      && (flushFailures > 0 ==> dirty)
    }

    /** What is left to say about a room that ended. */
    ghost predicate Past()
      reads `net
      reads `doc, `stored, `history
    {
      PastOk(net, history, D()) && RegistryOk(net)
    }

    method BeginTeardown() returns (claimed: bool)
      modifies `lc
      ensures claimed == (old(lc) in {Materializing, Active})
      ensures lc == if claimed then Draining else old(lc)
      ensures claimed ==> LegalTransition(old(lc), lc)
    {
      claimed := lc == Materializing || lc == Active;
      if claimed {
        lc := Draining;
      }
    }

    /** `CloseAfterDrain`: the first end a connection is handed is the one it will give. */
    method CloseAfterDrain(id: ConnId, code: EndCode)
      modifies `net
      ensures net == if id in old(net).ends then old(net) else old(net).(ends := old(net).ends[id := code])
    {
      if id !in net.ends {
        net := net.(ends := net.ends[id := code]);
      }
    }

    /** The reason first, the end behind it, and the member is gone. */
    method DismissOne(id: ConnId, code: EndCode) returns (ghost m: Net)
      requires id in net.members && id in net.log
      modifies `net
      ensures Closing(old(net), m, net, id, code)
    {
      var _ := Send(id, SessionEndFrame(code));
      m := net;
      CloseAfterDrain(id, code);
      if !net.members[id].pending {
        net := net.(connClosed := net.connClosed + 1);
      }
      net := net.(members := net.members - {id});
    }

    /** The last walk of a teardown: everyone left is told the reason, closed and removed. */
    method CloseMembers(code: EndCode)
      requires Past()
      modifies `net
      ensures Past() && net.members == map[]
      ensures Dismissed(old(net), net, code)
    {
      hide PastOk, RegistryOk, Dismissed, Closing;
      ghost var a := net;
      DismissedNone(a, code);
      while net.members != map[]
        invariant Past() && Dismissed(a, net, code)
        decreases |net.members|
      {
        var id :| id in net.members;
        ghost var b := net;
        DismissedHas(a, b, id, code);
        ghost var m := DismissOne(id, code);
        DismissedStep(a, b, m, net, history, D(), id, code);
      }
    }

    /** The checkpoint store replaces the whole state, or fails having done so or not. */
    method SaveCheckpoint(reply: Reply) returns (ok: bool)
      modifies `stored
      ensures ok <==> reply == Accepts
      ensures stored == if reply == FailsBefore then old(stored) else doc
    {
      if reply != FailsBefore {
        stored := doc;
      }
      return reply == Accepts;
    }

    /** The index row with the next version: accepted, or refused with or without effect. */
    method SaveIndex(reply: Reply) returns (ok: bool)
      modifies `indexed
      ensures ok <==> reply == Accepts
      ensures indexed == if reply == FailsBefore then old(indexed) else version + 1
    {
      if reply != FailsBefore {
        indexed := version + 1;
      }
      return reply == Accepts;
    }

    /** The single place where the room becomes clean: outstanding requests are answered here and only here. */
    method OnStoresAccepted()
      requires Ledger() && stored == doc
      modifies `net, `version, `dirty, `flushFailures, `undurableSince
      ensures !dirty && version == old(version) + 1 && flushFailures == 0 && undurableSince == None
      ensures Ledger() && Answered(old(net), net, {}, true) && Told(old(net), net, SavedFrame(version))
      ensures ToldPersisted(old(net), net)
    {
      hide LedgerOk, NetOk, PastOk, RegistryOk, Casted, ToAll, Answered, Told, ToldPersisted;
      ghost var a := net;
      version := version + 1;
      dirty := false;
      AnswerAll(true);
      flushFailures, undurableSince := 0, None;
      ghost var b := net;
      LedgerNet(b, history, D());
      BroadcastControl(SavedFrame(version), 0);
      AnsweredThenCast(a, b, net, ToAll(b.members, 0, SavedFrame(version)), true);
      ToldAfterAnswers(a, b, net, SavedFrame(version), true);
      AnsweredTells(a, net, true);
    }

    /**
     * The one way a room ends. The final flush, if any, comes first; then every request still
     * outstanding is failed; then every member is told the code and closed. Only the first caller
     * gets past the guard.
     */
    method Teardown(code: EndCode, flush: Option<Stores>)
      requires lc in {Materializing, Active} ==> Ledger() && Documents() && (flush.Some? ==> lc == Active && Healthy())
      modifies `lc, `shadow, `net
      modifies `stored, `indexed, `version, `dirty, `flushFailures, `undurableSince, `escalations
      ensures shadow == None
      ensures old(lc) in {Draining, Closed} ==>
                && net == old(net) && lc == old(lc) && stored == old(stored)
                && indexed == old(indexed) && version == old(version) && dirty == old(dirty)
                && flushFailures == old(flushFailures) && undurableSince == old(undurableSince)
                && escalations == old(escalations)
      ensures old(lc) in {Materializing, Active} ==>
                && lc == Closed && net.members == map[] && Past() && Documents()
                && stored == (if flush.Some? && old(dirty) && flush.value.checkpoint != FailsBefore then doc else old(stored))
                && Informed(old(net), net, code)
                && (if flush == Some(Stores(Accepts, Accepts)) && old(dirty) then ToldPersisted(old(net), net) && !dirty
                    else ToldFailed(old(net), net))
                && old(escalations) <= escalations <= old(escalations) + (if flush.Some? then 1 else 0)
      ensures flush.None? ==>
                && stored == old(stored)
                && indexed == old(indexed) && version == old(version) && dirty == old(dirty)
                && flushFailures == old(flushFailures) && undurableSince == old(undurableSince)
                && escalations == old(escalations)
      decreases if flush.Some? then 4 else 0
    {
      hide LedgerOk, NetOk, PastOk, RegistryOk, Casted, ToAll, ValidContent, Answered, AnsweredOrShed, Dismissed, Thinned, Informed, Told;
      hide ToldPersisted, ToldFailed;
      shadow := None;
      var claimed := BeginTeardown();
      if !claimed {
        return;
      }
      ghost var a := net;
      LedgerNet(a, history, D());
      ghost var outcome := Clean;
      if flush.Some? {
        outcome := Persist(flush.value);
      }
      ghost var b := net;
      AnswerAll(false);
      ghost var c := net;
      LedgerNet(c, history, D());
      SettledBefore(a, b, c, outcome);
      CloseMembers(code);
      InformedAfterClose(a, c, net, code);
      lc := Closed;
    }

    /** `persist`: checkpoint first, index row second; only both together make the room clean. */
    method Persist(stores: Stores) returns (ghost outcome: FlushOutcome)
      requires Ledger() && Documents() && Healthy()
      requires lc in {Active, Draining}
      modifies `lc, `shadow, `net
      modifies `stored, `indexed, `version, `dirty, `flushFailures, `undurableSince, `escalations
      ensures outcome == Clean <==> !old(dirty)
      ensures outcome == Saved <==> old(dirty) && stores == Stores(Accepts, Accepts)
      ensures stored == if old(dirty) && stores.checkpoint != FailsBefore then doc else old(stored)
      ensures indexed == if old(dirty) && stores.checkpoint == Accepts && stores.index != FailsBefore then old(version) + 1 else old(indexed)
      ensures old(shadow) == None ==> shadow == None
      ensures outcome == Clean ==>
                && net == old(net) && lc == old(lc) && shadow == old(shadow) && version == old(version) && !dirty
                && flushFailures == old(flushFailures) && undurableSince == old(undurableSince)
                && escalations == old(escalations)
      ensures outcome == Saved ==>
                && !dirty && indexed == version == old(version) + 1
                && flushFailures == 0 && undurableSince == None && escalations == old(escalations)
                && lc == old(lc) && shadow == old(shadow)
                && Ledger() && Answered(old(net), net, {}, true) && Told(old(net), net, SavedFrame(version))
                && ToldPersisted(old(net), net)
      ensures outcome in {Retrying, Escalated} ==>
                && dirty && version == old(version) && ToldFailed(old(net), net)
                && flushFailures == old(flushFailures) + 1
                && undurableSince == Some(if old(undurableSince).Some? then old(undurableSince).value else clock)
      ensures outcome == Retrying ==>
                && flushFailures < Threshold(cfg) && escalations == old(escalations)
                && lc == old(lc) && shadow == old(shadow)
                && Ledger() && Answered(old(net), net, {}, false) && Told(old(net), net, SaveErrorFrame)
      ensures outcome == Escalated ==>
                && flushFailures == Threshold(cfg) && escalations == old(escalations) + 1
      ensures outcome == Escalated && old(lc) == Draining ==>
                lc == Draining && Ledger() && Answered(old(net), net, {}, false)
      ensures outcome == Escalated && old(lc) == Active ==>
                lc == Closed && net.members == map[] && Past() && Informed(old(net), net, EditsNotSaved)
      ensures Documents()
      decreases 3
    {
      hide LedgerOk, NetOk, PastOk, RegistryOk, Casted, ToAll, ValidContent, Answered, AnsweredOrShed, Dismissed, Thinned, Informed, Told;
      hide ToldPersisted, ToldFailed;
      outcome := Clean;
      if dirty {
        var saved := SaveCheckpoint(stores.checkpoint);
        StoredNow(net, history, Docs(doc, old(stored)), D());
        var listed := false;
        if saved {
          listed := SaveIndex(stores.index);
        }
        if listed {
          OnStoresAccepted();
          outcome := Saved;
        } else {
          outcome := OnFlushFailed();
        }
      }
    }

    method OnFlushFailed() returns (ghost outcome: FlushOutcome)
      requires Ledger() && Documents() && Healthy() && dirty
      requires lc in {Active, Draining}
      modifies `lc, `shadow, `net
      modifies `version, `indexed, `dirty, `stored, `flushFailures, `undurableSince, `escalations
      ensures outcome in {Retrying, Escalated}
      ensures old(shadow) == None ==> shadow == None
      ensures dirty && stored == old(stored) && indexed == old(indexed) && version == old(version)
      ensures flushFailures == old(flushFailures) + 1 && ToldFailed(old(net), net)
      ensures undurableSince == Some(if old(undurableSince).Some? then old(undurableSince).value else clock)
      ensures outcome == Retrying ==>
                && flushFailures < Threshold(cfg) && escalations == old(escalations)
                && lc == old(lc) && shadow == old(shadow)
                && Ledger() && Answered(old(net), net, {}, false) && Told(old(net), net, SaveErrorFrame)
      ensures outcome == Escalated ==>
                && flushFailures == Threshold(cfg) && escalations == old(escalations) + 1
      ensures outcome == Escalated && old(lc) == Draining ==>
                lc == Draining && Ledger() && Answered(old(net), net, {}, false)
      ensures outcome == Escalated && old(lc) == Active ==>
                lc == Closed && net.members == map[] && Past() && Informed(old(net), net, EditsNotSaved)
      decreases 2
    {
      hide LedgerOk, NetOk, PastOk, RegistryOk, Casted, ToAll, ValidContent, Answered, AnsweredOrShed, Dismissed, Thinned, Informed, Told;
      hide ToldPersisted, ToldFailed;
      ghost var a := net;
      flushFailures := flushFailures + 1;
      if undurableSince.None? {
        undurableSince := Some(clock);
      }
      AnswerAll(false);
      ghost var b := net;
      LedgerNet(b, history, D());
      if flushFailures < Threshold(cfg) {
        BroadcastControl(SaveErrorFrame, 0);
        AnsweredThenCast(a, b, net, ToAll(b.members, 0, SaveErrorFrame), false);
        ToldAfterAnswers(a, b, net, SaveErrorFrame, false);
        AnsweredTells(a, net, false);
        return Retrying;
      }
      escalations := escalations + 1;
      Teardown(EditsNotSaved, None);
      if old(lc) == Active {
        InformedTwice(a, b, net, EditsNotSaved);
      }
      return Escalated;
    }

    // --- Sync messages -----------------------------------------------------------------------------

    /** The candidate copy is in lockstep with the live document whenever the content type has a schema. */
    ghost predicate Mirror()
      reads `content, `doc, `shadow
    {
      shadow == if HasSchema(content) then Some(doc) else None
    }

    /** `onDocUpdate`: fires when an apply changed the document, with what is new. */
    method OnDocUpdate(delta: Doc, src: ConnId)
      requires NetOk(net)
      modifies `net, `dirty, `docUpdates, `dirtySince
      ensures dirty && docUpdates == old(docUpdates) + 1
      ensures dirtySince == if old(dirty) then old(dirtySince) else clock
      ensures NetOk(net) && Casted(old(net), net, {}, {}, ToAll(old(net.members), src, UpdateFrame(delta)))
    {
      if !dirty {
        dirtySince := clock;
      }
      dirty := true;
      docUpdates := docUpdates + 1;
      Broadcast(UpdateFrame(delta), src);
    }

    /** Applies bytes the candidate has accepted, or bytes no candidate guards. */
    method ApplyLive(update: Update, src: ConnId)
      requires Ledger()
      requires src in history ==> Touched(update) <= history[src].own
      modifies `net, `doc, `dirty, `docUpdates, `dirtySince
      ensures Ledger() && doc == old(doc) + Touched(update)
      ensures Thinned(old(net), net, {}) && Spread(old(net), net, src, old(doc), doc)
      ensures dirty == (old(dirty) || doc != old(doc))
      ensures docUpdates == old(docUpdates) + if doc != old(doc) then 1 else 0
      ensures dirtySince == if dirty && !old(dirty) then clock else old(dirtySince)
    {
      hide LedgerOk, NetOk, PastOk, RegistryOk, Casted, Thinned, ToAll;
      ghost var a, d := net, D();
      LedgerNet(a, history, d);
      var delta := Touched(update) - doc;
      doc := doc + Touched(update);
      if delta != {} {
        OnDocUpdate(delta, src);
        assert delta == doc - d.live && doc != d.live;
        UpdateCast(a, net, history, d, src, Touched(update));
        CastedThins(a, net, {}, {}, ToAll(a.members, src, UpdateFrame(delta)));
      } else {
        assert forall o | o in Touched(update) :: o in delta || o in d.live;
        assert doc == d.live;
        ThinnedRefl(a);
      }
    }

    /** `rebuildShadow`: a fresh copy of the live document replaces the contaminated candidate. */
    method RebuildShadow()
      modifies `shadow
      ensures shadow == Some(doc)
    {
      shadow := Some(doc);
    }

    /**
     * `applyUpdate`, the one way anything enters the document: size, then the candidate and its
     * schema, then the live document. A refused or undecodable update leaves the live document
     * alone and a fresh candidate behind.
     */
    method ApplyUpdate(update: Update, src: ConnId, tooLarge: bool) returns (res: ApplyResult)
      requires Ledger() && Documents() && Mirror()
      requires src in history ==> Touched(update) <= history[src].own
      modifies `net, `doc, `shadow, `dirty, `docUpdates, `dirtySince
      ensures res == RejectedTooLarge <==> tooLarge
      ensures res == CandidateFailed <==> !tooLarge && content != Unrecognized && update.Truncated?
      ensures res == RejectedSchema <==> !tooLarge && update.Decodable? && !ValidContent(content, old(doc) + update.ops)
      ensures !tooLarge && update.Decodable? && ValidContent(content, old(doc) + update.ops) ==> doc == old(doc) + update.ops
      ensures res == ApplyOK ==> doc == old(doc) + Touched(update) && Spread(old(net), net, src, old(doc), doc)
      ensures res != ApplyOK ==> doc == old(doc) && net == old(net)
      ensures Ledger() && Documents() && Mirror() && Thinned(old(net), net, {})
      ensures dirty == (old(dirty) || doc != old(doc))
      ensures docUpdates == old(docUpdates) + if doc != old(doc) then 1 else 0
      ensures dirtySince == if dirty && !old(dirty) then clock else old(dirtySince)
    {
      hide LedgerOk, NetOk, PastOk, RegistryOk, Casted, Thinned, Spread;
      LedgerNet(net, history, D());
      ThinnedRefl(net);
      if tooLarge {
        return RejectedTooLarge;
      }
      if shadow.Some? {
        shadow := Some(shadow.value + Touched(update));
        if update.Truncated? {
          RebuildShadow();
          return CandidateFailed;
        }
        if !ValidContent(content, shadow.value) {
          RebuildShadow();
          return RejectedSchema;
        }
      }
      ApplyLive(update, src);
      return ApplyOK;
    }

    /** The reason, then the end, on the connection's own queue. */
    method Farewell(id: ConnId, code: EndCode)
      requires Ledger() && id in net.members
      modifies `net
      ensures Ledger()
      ensures net.members == old(net).members && old(net).shed <= net.shed && net.log.Keys == old(net).log.Keys && net.quota == old(net).quota
      ensures net.ends == if id in old(net).ends then old(net).ends else old(net).ends[id := code]
      ensures forall k, f {:trigger Sent(net, k, f)} :: Sent(old(net), k, f) <= Sent(net, k, f)
    {
      hide LedgerOk, NetOk;
      ghost var a := net;
      LedgerNet(a, history, D());
      LogHas(a, id);
      var _ := Send(id, SessionEndFrame(code));
      ghost var b := net;
      FarewellSent(a, b, history, D(), id, code);
      CloseAfterDrain(id, code);
      FarewellEnded(b, net, history, D(), id, code);
    }

    /** `disconnect`: the reason, the end, the eviction, and the news for the rest. */
    method Disconnect(id: ConnId, code: EndCode) returns (ghost users: nat)
      requires Ledger()
      modifies `net
      ensures id in old(net).members ==> Told(old(net), net, UserChangeFrame(users)) && |ActiveIds(net.members)| <= users
      ensures Grown(old(net), net) && OthersKept(old(net), net, id)
      ensures Ledger() && Evolved(old(net), net)
      ensures id !in net.members
      ensures EndsWith(old(net), net, id, code) && (id in old(net).members ==> id in net.ends)
      ensures id !in old(net.members) ==> net == old(net)
    {
      hide LedgerOk, NetOk, PastOk, RegistryOk, Casted, Thinned, Evolved, ToAll, Told, ActiveIds, Grown, OthersKept;
      ghost var a := net;
      users := 0;
      EvolvedRefl(a);
      GrownRefl(a, id);
      if id !in net.members {
        return;
      }
      Farewell(id, code);
      ghost var c := net;
      LedgerNet(c, history, D());
      var _ := DropMember(id);
      ghost var e := net;
      FarewellDropped(a, c, e, history, D(), id);
      users := |ActiveIds(net.members)|;
      BroadcastControl(UserChangeFrame(|ActiveIds(net.members)|), 0);
      FarewellTold(a, e, net);
      FarewellMonotone(a, c, e, id);
      ToldAll(a, e, net, UserChangeFrame(users));
      FarewellKeeps(a, c, e, net, id, UserChangeFrame(users));
    }

    /** A refused write: the session is poisoned, its request failed, the refusal named, the session over. */
    method Reject(src: ConnId, code: EndCode, notify: bool)
      requires Ledger()
      modifies `net
      ensures Ledger() && Evolved(old(net), net)
      ensures Refused(old(net), net, src, code)
      ensures notify && src in old(net).members ==> Notified(old(net), net, src)
    {
      hide LedgerOk, NetOk, PastOk, RegistryOk, Casted, Thinned, Evolved, Grown, OthersKept, RequestFailed, Notified;
      ghost var a := net;
      EvolvedRefl(a);
      if src in net.members {
        net := net.(members := net.members[src := net.members[src].(poisoned := true)]);
        PoisonLedger(a, history, D(), src);
      }
      ghost var b := net;
      FailMemberBarrier(src);
      ghost var c := net;
      if notify {
        SendControl(src, UpdateRejectedFrame);
        ControlKeeps(c, net, src, UpdateRejectedFrame);
      } else {
        LedgerNet(c, history, D());
        ThinnedRefl(c);
        GrownRefl(c, src);
      }
      ghost var e := net;
      var _ := Disconnect(src, code);
      ThinnedEvolves(b, c);
      ThinnedEvolves(c, e);
      EvolvedTrans(b, c, e);
      EvolvedTrans(b, e, net);
      EvolvedBut(a, b, net, src);
      ThinnedEnds(b, c);
      ThinnedEnds(c, e);
      RefusalTold(a, b, c, e, net, src);
      if notify && src in a.members {
        NotifiedOnce(a, b, c, e, net, src);
      }
    }

    // --- Messages ----------------------------------------------------------------------------------

    ghost predicate Requests()
      reads `net, `dirty
    {
      BarriersOk(net, dirty && cfg.saveDebounce > 0)
    }

    /** A SyncStep1 is answered with everything its state vector does not claim. */
    method CatchUp(src: ConnId, known: Doc)
      requires Ledger()
      requires src in net.members && src in history && src in net.log
      requires known <= history[src].own + Received(net.log[src])
      modifies `net
      ensures Ledger()
      ensures Casted(old(net), net, {src}, {}, map[src := SyncStep2Reply(doc - known)])
    {
      hide LedgerOk, NetOk, PastOk, RegistryOk, Casted, Received;
      ghost var a := net;
      LedgerNet(a, history, D());
      SendMember(src, SyncStep2Reply(doc - known));
      CatchUpCast(a, net, history, D(), src, known);
    }

    /**
     * A write is applied, or refused together with its session. A write by a viewer is refused unless
     * it is the canonically empty SyncStep2 of the handshake.
     */
    method HandleWrite(src: ConnId, frame: ClientFrame, fits: bool) returns (mutated: bool)
      requires Ledger() && Documents() && Mirror() && Requests()
      requires src in net.members && src in history && IsWrite(frame)
      requires Touched(frame.update) <= history[src].own
      requires frame.SyncStep2? && frame.canonicalEmpty ==> frame.update == Decodable({})
      modifies `net, `doc, `shadow, `dirty, `docUpdates, `dirtySince
      ensures Ledger() && Documents() && Mirror() && Requests() && Evolved(old(net), net)
      ensures mutated == (dirty && !old(dirty)) && (old(dirty) ==> dirty)
      ensures dirtySince == if mutated then clock else old(dirtySince)
      ensures src in net.members ==> Landed(frame, doc)
      ensures WriteEffect(old(net), net, src, frame, fits, content, old(doc), doc)
      ensures old(net).members[src].mode == Collaborator && fits && frame.update.Decodable?
              && ValidContent(content, old(doc) + frame.update.ops) ==>
                doc == old(doc) + frame.update.ops && (src in net.members || src in net.shed)
      ensures old(net).members[src].mode == Collaborator && fits && frame.update.Truncated? && content != Unrecognized ==>
                doc == old(doc) && net == old(net)
    {
      hide LedgerOk, NetOk, PastOk, RegistryOk, Casted, Thinned, Evolved, BarriersOk, ValidContent;
      hide Spread, Grown, OthersKept, RequestFailed;
      ghost var a := net;
      EvolvedRefl(a);
      if net.members[src].mode != Collaborator {
        if frame.SyncUpdate? || !frame.canonicalEmpty {
          Reject(src, Forbidden, false);
          EvolvedBarriers(a, net, dirty && cfg.saveDebounce > 0, dirty && cfg.saveDebounce > 0);
        }
        return false;
      }
      var wasDirty := dirty;
      var verdict := ApplyUpdate(frame.update, src, !fits);
      ghost var b := net;
      ThinnedEvolves(a, b);
      ThinnedEnds(a, b);
      if verdict == RejectedTooLarge {
        FailMemberBarrier(src);
        ghost var c := net;
        var _ := Disconnect(src, DocumentSizeLimitExceeded);
        ThinnedEvolves(b, c);
        ThinnedEnds(b, c);
        FailedStays(a, c, net, src);
        EvolvedTrans(b, c, net);
        EvolvedTrans(a, b, net);
      } else if verdict == RejectedSchema {
        Reject(src, ContentRefused, true);
        EvolvedTrans(a, b, net);
      } else if verdict == ApplyOK {
        SpreadKeeps(a, net, src, old(doc), doc);
      }
      EvolvedBarriers(a, net, wasDirty && cfg.saveDebounce > 0, dirty && cfg.saveDebounce > 0);
      return dirty && !wasDirty;
    }

    /** `handleSync`. */
    method HandleSync(src: ConnId, frame: ClientFrame, fits: bool) returns (mutated: bool)
      requires Ledger() && Documents() && Mirror() && Requests()
      requires src in net.members && src in history && frame in history[src].sent
      requires frame.SyncStep1? || IsWrite(frame) || frame.SyncInvalid?
      modifies `net, `doc, `shadow, `dirty, `docUpdates, `dirtySince, `history
      ensures Ledger() && Documents() && Mirror() && Requests() && Evolved(old(net), net)
      ensures mutated == (dirty && !old(dirty)) && (old(dirty) ==> dirty)
      ensures dirtySince == if mutated then clock else old(dirtySince)
      ensures Relabelled(old(history), history)
      ensures src in net.members ==> Landed(frame, doc)
      ensures SyncEffect(old(net), net, src, frame, fits, content, old(doc), doc)
      ensures frame.SyncStep1? && src in net.members && !net.members[src].pending ==> history[src].synced
    {
      hide LedgerOk, NetOk, PastOk, RegistryOk, Casted, Evolved, BarriersOk, Relabelled, ValidContent, Received, WriteEffect;
      ghost var a := net;
      SentFacts(a, history, D(), src, frame);
      RelabelledRefl(history, src);
      EvolvedRefl(a);
      if frame.SyncInvalid? {
        return false;
      }
      if frame.SyncStep1? {
        CatchUp(src, frame.known);
        LedgerNet(net, history, D());
        CatchUpCast(a, net, history, D(), src, frame.known);
        CaughtUp(a, net, src, SyncStep2Reply(doc - frame.known));
        EvolvedBarriers(a, net, dirty && cfg.saveDebounce > 0, dirty && cfg.saveDebounce > 0);
        if src in net.members && !net.members[src].pending {
          history := history[src := history[src].(synced := true)];
        }
        return false;
      }
      mutated := HandleWrite(src, frame, fits);
    }

    /** `answerBarrier` and `failBarrier` for a request that was never parked. */
    method AnswerDirectly(src: ConnId, r: Request, persisted: bool)
      requires Ledger() && Requests()
      requires src in net.members && Fresh(net, history, src, r.pos)
      requires persisted ==> Covered(history, stored, src, r.pos)
      modifies `net
      ensures Ledger() && Requests()
      ensures Casted(old(net), net, {src}, {}, map[src := AnswerTo(r, persisted)])
      ensures src in net.members ==>
                && Answers(net, src, r) == 1
                && Sent(net, src, if persisted then PersistedFrame(r) else PersistFailedFrame(r)) == 1
    {
      hide LedgerOk, NetOk, PastOk, RegistryOk, Casted, Covered, BarriersOk;
      ghost var a := net;
      LedgerNet(a, history, D());
      var f := AnswerTo(r, persisted);
      SendMember(src, f);
      ImmediateAnswer(a, net, history, D(), src, f, r);
      AnswerArrives(a, net, src, r, persisted);
      CastedThins(a, net, {src}, {}, map[src := f]);
      ThinnedEvolves(a, net);
      EvolvedBarriers(a, net, dirty && cfg.saveDebounce > 0, dirty && cfg.saveDebounce > 0);
    }

    /** `handleDurabilityRequest`. A request without a valid identifier is the one case met with silence. */
    method HandleDurabilityRequest(src: ConnId, pos: nat, id: Option<nat>, sessionDropped: bool)
      requires Ledger() && Documents() && Requests()
      requires src in net.members && Fresh(net, history, src, pos)
      requires history[src].sent[pos] == DurabilityRequest(id)
      requires !sessionDropped ==> forall q | q in history[src].refused :: q > pos
      modifies `net
      ensures Ledger() && Requests()
      ensures src in net.members ==> Accounted(net, src, pos, DurabilityRequest(id))
      ensures RequestEffect(old(net), net, src, pos, id, sessionDropped, dirty, cfg.saveDebounce > 0)
      ensures id.Some? ==>
                var r, m := Request(id.value, pos), old(net).members[src];
                var trusted := m.mode == Collaborator && !m.poisoned && !sessionDropped && m.barrier.None?;
                && (trusted && !dirty && src in net.members ==> Sent(net, src, PersistedFrame(r)) == 1)
                && (trusted && dirty && cfg.saveDebounce > 0 ==>
                      src in net.members && net.members[src].barrier == Some(r) && net.log == old(net).log)
                && ((!trusted || (dirty && cfg.saveDebounce <= 0)) && src in net.members ==> Sent(net, src, PersistFailedFrame(r)) == 1)
    {
      hide LedgerOk, NetOk, PastOk, RegistryOk, Casted, Covered;
      if id.None? {
        return;
      }
      ghost var a := net;
      LedgerNet(a, history, D());
      var m := net.members[src];
      var r := Request(id.value, pos);
      if m.poisoned || sessionDropped || m.mode != Collaborator || m.barrier.Some? {
        AnswerDirectly(src, r, false);
      } else if !dirty {
        CoveredNow(a, history, D(), src, pos);
        AnswerDirectly(src, r, true);
      } else if cfg.saveDebounce <= 0 {
        AnswerDirectly(src, r, false);
      } else {
        ParkLedger(a, history, D(), src, r);
        net := net.(members := net.members[src := m.(barrier := Some(r))]);
      }
    }

    /** `trackAwarenessID`: the first client id a member announces becomes its own, and it the current owner. */
    method TrackAwarenessID(src: ConnId, first: Option<ClientId>)
      requires Ledger() && Requests()
      modifies `net
      ensures Ledger() && Requests() && Evolved(old(net), net)
      ensures net == Tracked(old(net), src, first)
      ensures src in old(net).members && old(net).members[src].client.None? && first.Some? ==>
                net.members[src].client == first && first.value in net.owners && net.owners[first.value] == src
      ensures src in old(net).members && old(net).members[src].client.Some? ==> net == old(net)
    {
      hide LedgerOk, BarriersOk, Evolved;
      EvolvedRefl(net);
      if src !in net.members || first.None? || net.members[src].client.Some? {
        return;
      }
      ghost var a := net;
      net := net.(members := net.members[src := net.members[src].(client := first)],
                  owners := net.owners[first.value := src]);
      TrackedLedger(a, net, history, D(), src, first);
    }

    /** A relayed awareness or ephemeral frame: never stored, and the sender does not get it back. */
    method Relay(frame: ClientFrame, src: ConnId)
      requires Ledger() && Requests() && (frame.Awareness? || frame.Ephemeral?)
      modifies `net
      ensures Ledger() && Requests() && Evolved(old(net), net) && Relayed(old(net), net, src, frame)
    {
      hide LedgerOk, NetOk, PastOk, RegistryOk, Casted, Thinned, Evolved, BarriersOk, Tracked, ToAll;
      ghost var a := net;
      LedgerNet(a, history, D());
      EvolvedRefl(a);
      if frame.Awareness? {
        net := net.(presence := net.presence + frame.online - frame.offline);
        PresenceLedger(a, net, history, D());
        ghost var b := net;
        EvolvedBarriers(a, b, dirty && cfg.saveDebounce > 0, dirty && cfg.saveDebounce > 0);
        TrackAwarenessID(src, frame.first);
        EvolvedTrans(a, b, net);
      }
      ghost var c := net;
      BroadcastControl(RelayFrame(frame), src);
      ThinnedEvolves(c, net);
      EvolvedTrans(a, c, net);
      EvolvedBarriers(c, net, dirty && cfg.saveDebounce > 0, dirty && cfg.saveDebounce > 0);
    }

    /** `handleMessage`: late frames of a session that is gone are ignored; the rate limit comes first. */
    method HandleMessage(src: ConnId, pos: nat, frame: ClientFrame, sessionDropped: bool, o: Oracle) returns (mutated: bool)
      requires Ledger() && Documents() && Mirror() && Requests()
      requires src in history && pos < |history[src].sent| && frame == history[src].sent[pos]
      requires src in net.members ==> Fresh(net, history, src, pos)
      requires !sessionDropped ==> forall q | q in history[src].refused :: q > pos
      modifies `net, `doc, `shadow, `dirty, `docUpdates, `dirtySince, `history
      ensures Ledger() && Documents() && Mirror() && Requests()
      ensures mutated == (dirty && !old(dirty)) && (old(dirty) ==> dirty)
      ensures dirtySince == if mutated then clock else old(dirtySince)
      ensures Relabelled(old(history), history)
      ensures src in net.members ==> Landed(frame, doc) && Accounted(net, src, pos, frame)
      ensures MessageEffect(old(net), net, CmdMessage(src, pos, frame, sessionDropped), o, old(dirty), cfg.saveDebounce > 0, content, old(doc), doc)
      ensures frame.SyncStep1? && src in net.members && !net.members[src].pending ==> src in history && history[src].synced
      ensures Settling(old(net), net)
    {
      hide LedgerOk, NetOk, PastOk, RegistryOk, Casted, Evolved, BarriersOk, Settling, Covered, Answered;
      hide SyncEffect, Relayed, RequestEffect;
      ghost var a := net;
      EvolvedRefl(a);
      EvolvedSettles(a, net);
      if src !in net.members {
        mutated := false;
        return;
      }
      if !o.allowed {
        var _ := Disconnect(src, UpdateRateExceeded);
        EvolvedBarriers(a, net, dirty && cfg.saveDebounce > 0, dirty && cfg.saveDebounce > 0);
        EvolvedSettles(a, net);
        mutated := false;
        return;
      }
      match frame {
        case SyncStep1(_) | SyncStep2(_, _) | SyncUpdate(_) | SyncInvalid =>
          mutated := HandleSync(src, frame, o.fits);
          EvolvedSettles(a, net);
          return;
        case Awareness(_, _, _) | Ephemeral =>
          Relay(frame, src);
          EvolvedSettles(a, net);
        case DurabilityRequest(id) =>
          HandleDurabilityRequest(src, pos, id, sessionDropped);
          RequestSettles(a, net, src, pos, id, sessionDropped, dirty, cfg.saveDebounce > 0);
        case Malformed | AwarenessInvalid | UnknownType =>
      }
      mutated := false;
    }

    /** `handlePeer` with a document update: never refused for its size, refused for its content like any other. */
    method HandlePeer(update: Update) returns (mutated: bool)
      requires Ledger() && Documents() && Mirror() && Requests() && 0 !in history
      modifies `net, `doc, `shadow, `dirty, `docUpdates, `dirtySince
      ensures Ledger() && Documents() && Mirror() && Requests() && Evolved(old(net), net)
      ensures mutated == (dirty && !old(dirty)) && (old(dirty) ==> dirty)
      ensures dirtySince == if mutated then clock else old(dirtySince)
      ensures update.Decodable? ==> doc == if ValidContent(content, old(doc) + update.ops) then old(doc) + update.ops else old(doc)
      ensures update.Truncated? ==> doc == if content == Unrecognized then old(doc) + update.applied else old(doc)
      ensures Spread(old(net), net, 0, old(doc), doc)
    {
      hide LedgerOk, Thinned, Evolved, BarriersOk, Casted;
      ghost var a := net;
      var wasDirty := dirty;
      var _ := ApplyUpdate(update, 0, false);
      ThinnedEvolves(a, net);
      EvolvedBarriers(a, net, wasDirty && cfg.saveDebounce > 0, dirty && cfg.saveDebounce > 0);
      return dirty && !wasDirty;
    }

    // --- Membership --------------------------------------------------------------------------------

    /**
     * `resolveJoinCapability`: on a document known to be single-user, a writer joins as a viewer while
     * another writer is registered.
     */
    method ResolveJoinCapability(requested: Mode, decision: Option<bool>) returns (mode: Mode)
      modifies `isMultiUser, `single
      ensures isMultiUser == if decision.Some? then decision else old(isMultiUser)
      ensures single == (old(single) && decision != Some(true))
      ensures requested == Viewer ==> mode == Viewer
      ensures requested == Collaborator ==>
                (mode == Viewer <==> isMultiUser == Some(false) && exists k | k in net.members :: net.members[k].mode == Collaborator)
    {
      single := single && decision != Some(true);
      if decision.Some? {
        isMultiUser := decision;
      }
      if requested == Collaborator && isMultiUser == Some(false)
         && exists k | k in net.members :: net.members[k].mode == Collaborator
      {
        return Viewer;
      }
      return requested;
    }

    /** `handleJoin`: a pending member under a fresh id, or a refusal when the room is full or its admission cannot be encoded. */
    method HandleJoin(requested: Mode, decision: Option<bool>, own: Doc, encodes: bool) returns (id: Option<ConnId>)
      requires Ledger() && Requests()
      requires forall k | k in history :: 0 < k <= nextID
      modifies `net, `nextID, `isMultiUser, `history, `dropped, `single, `asked
      ensures Ledger() && Requests()
      ensures id.None? <==> (cfg.maxConns > 0 && |old(net).members| >= cfg.maxConns) || !encodes
      ensures nextID == old(nextID) + if cfg.maxConns > 0 && |old(net).members| >= cfg.maxConns then 0 else 1
      ensures isMultiUser == if decision.Some? then decision else old(isMultiUser)
      ensures single == (old(single) && decision != Some(true))
      ensures id.None? ==> net == old(net) && history == old(history) && dropped == old(dropped) && asked == old(asked)
      ensures id.Some? ==>
                && id.value == nextID && id.value in net.members
                && net == old(net).(members := net.members, log := old(net).log[id.value := []])
                && net.members == old(net).members[id.value := net.members[id.value]]
                && net.members[id.value] == Member(net.members[id.value].mode, true, None, false, None)
                && history == old(history)[id.value := Session([], {}, 0, 0, own, false)]
                && dropped == old(dropped)[id.value := false] && asked == old(asked)[id.value := requested]
      ensures id.Some? && requested == Viewer ==> net.members[id.value].mode == Viewer
      ensures id.Some? && requested == Collaborator ==>
                (net.members[id.value].mode == Viewer <==>
                  isMultiUser == Some(false) && exists k | k in old(net).members :: old(net).members[k].mode == Collaborator)
    {
      hide LedgerOk, BarriersOk;
      var mode := ResolveJoinCapability(requested, decision);
      if cfg.maxConns > 0 && |net.members| >= cfg.maxConns {
        return None;
      }
      ghost var a, h := net, history;
      nextID := nextID + 1;
      if !encodes {
        return None;
      }
      var m := Member(mode, true, None, false, None);
      net := net.(members := net.members[nextID := m], log := net.log[nextID := []]);
      history := history[nextID := NewSession(own)];
      dropped := dropped[nextID := false];
      asked := asked[nextID := requested];
      JoinLedger(a, h, D(), nextID, m, own);
      JoinBarriers(a, net, nextID, m, dirty && cfg.saveDebounce > 0);
      return Some(nextID);
    }

    /** `handleActivate`: only now do broadcasts reach the member, and only now is it counted as connected. */
    method HandleActivate(id: ConnId) returns (ok: bool)
      requires Ledger() && Requests()
      modifies `net
      ensures Ledger() && Requests() && Settling(old(net), net)
      ensures ok == (id in old(net).members)
      ensures id in net.members ==> !net.members[id].pending
      ensures id in old(net).members && !old(net).members[id].pending ==> net == old(net)
      ensures net.connOpened == old(net).connOpened +
                                if id in old(net).members && old(net).members[id].pending then 1 else 0
      ensures id in old(net).members && old(net).members[id].pending ==>
                Told(old(net), net, UserChangeFrame(|ActiveIds(old(net).members)| + 1))
      ensures OthersKept(old(net), net, id) && net.ends == old(net).ends
    {
      hide LedgerOk, NetOk, BarriersOk, Casted, Thinned, Evolved, Settling, ToAll, Told;
      ghost var a := net;
      SettlingRefl(a);
      if id !in net.members {
        return false;
      }
      if !net.members[id].pending {
        return true;
      }
      net := net.(members := net.members[id := net.members[id].(pending := false)], connOpened := net.connOpened + 1);
      ActivateLedger(a, net, history, D(), id);
      ghost var b := net;
      BroadcastControl(UserChangeFrame(|ActiveIds(net.members)|), 0);
      ThinnedEvolves(b, net);
      EvolvedBarriers(b, net, dirty && cfg.saveDebounce > 0, dirty && cfg.saveDebounce > 0);
      ActivateSettles(a, b, net, id);
      ActivateCounts(a, b, id);
      CastedKeeps(b, net, {}, {}, ToAll(b.members, 0, UserChangeFrame(|ActiveIds(b.members)|)));
      ToldAll(a, b, net, UserChangeFrame(|ActiveIds(b.members)|));
      return true;
    }

    /** `handleLeave`. */
    method HandleLeave(id: ConnId) returns (ghost users: nat)
      requires Ledger() && Requests()
      modifies `net, `left
      ensures Ledger() && Requests()
      ensures id !in net.members && left == old(left) + {id}
      ensures id in old(net).members && !old(net).members[id].pending ==>
                Told(old(net), net, UserChangeFrame(users)) && |ActiveIds(net.members)| <= users
      ensures SettlingBut(old(net), net, id) && net.ends == old(net).ends
    {
      hide LedgerOk, NetOk, BarriersOk, Casted, Thinned, Evolved, SettlingBut, ToAll, Told, ActiveIds;
      left := left + {id};
      users := 0;
      ghost var a := net;
      SettlingButRefl(a, id);
      LedgerNet(a, history, D());
      if id !in net.members {
        return;
      }
      var m := net.members[id];
      var _ := DropMember(id);
      ghost var b := net;
      LeaveDropped(a, b, history, D(), id, dirty && cfg.saveDebounce > 0);
      if m.pending {
        return;
      }
      users := |ActiveIds(net.members)|;
      BroadcastControl(UserChangeFrame(|ActiveIds(net.members)|), 0);
      LeaveTold(a, b, net, id, dirty && cfg.saveDebounce > 0);
      CastedMonotone(a, b, {id}, {id}, map[]);
      ToldAll(a, b, net, UserChangeFrame(users));
    }

    // --- Timers ------------------------------------------------------------------------------------

    /** `armSaveTimer`: a no-op when periodic saving is off. */
    method ArmSaveTimer()
      modifies `saveTimer
      ensures saveTimer == if cfg.saveDebounce <= 0 then old(saveTimer) else Some(clock + cfg.saveDebounce)
    {
      if cfg.saveDebounce <= 0 {
        return;
      }
      saveTimer := Some(clock + cfg.saveDebounce);
    }

    /** `armRetryTimer`: only a room left dirty by a failed flush retries. */
    method ArmRetryTimer()
      modifies `saveTimer
      ensures saveTimer == if !dirty || flushFailures == 0 || cfg.saveDebounce <= 0 then old(saveTimer)
                           else Some(clock + RetryBackoff(cfg.saveDebounce, flushFailures))
    {
      if !dirty || flushFailures == 0 || cfg.saveDebounce <= 0 {
        return;
      }
      saveTimer := Some(clock + RetryBackoff(cfg.saveDebounce, flushFailures));
    }

    method ArmIdleTimer()
      modifies `idleTimer
      ensures idleTimer == Some(clock + if cfg.idleTimeout <= 0 then 0 else cfg.idleTimeout)
    {
      idleTimer := Some(clock + if cfg.idleTimeout <= 0 then 0 else cfg.idleTimeout);
    }

    // --- The invariant of a serving room -------------------------------------------------------------

    /**
     * A dirty room with periodic saving has its next flush scheduled: within one debounce of the
     * first unsaved edit, and after failures no later than thirty seconds per failure since the first.
     */
    ghost predicate SaveScheduled()
      reads `dirty, `flushFailures, `undurableSince, `saveTimer, `clock, `dirtySince
    {
      && (cfg.saveDebounce > 0 && dirty ==>
            && saveTimer.Some?
            && (flushFailures == 0 ==> saveTimer.value == dirtySince + cfg.saveDebounce)
            && (flushFailures > 0 && undurableSince.Some? ==>
                  saveTimer.value <= undurableSince.value + flushFailures * MAX_FLUSH_RETRY_BACKOFF))
      && (saveTimer.Some? ==> cfg.saveDebounce > 0 && clock <= saveTimer.value)
    }

    /** No armed timer is overdue. */
    ghost predicate Scheduled()
      reads `dirty, `flushFailures, `undurableSince, `saveTimer, `idleTimer, `clock, `dirtySince
    {
      SaveScheduled() && (idleTimer.Some? ==> clock <= idleTimer.value)
    }

    ghost predicate Books()
      reads `commands, `history, `dropped, `left, `nextID
    {
      BooksOk(commands, history, dropped, left, nextID)
    }

    /**
     * An empty room is never forgotten: with no idle release scheduled, somebody who acquired the
     * room still owes it a command, or a session that joined has not had its leave processed.
     */
    ghost predicate Watched()
      reads `net, `idleTimer, `waiting, `commands, `history, `left
    {
      WatchedOk(net, idleTimer.Some?, waiting, commands, history, left)
    }

    /** No session ends up nowhere: each is a member, left, was handed an end, or refused a frame. Nobody may do more than it asked for. */
    ghost predicate NobodyVanished()
      reads `net, `history, `left, `single, `isMultiUser, `asked
    {
      PlacedOk(net, history, left) && WritersOk(net, single, isMultiUser, asked) && asked.Keys == history.Keys && net.quota == quota
    }

    /** The document is single-user, and no join under way says otherwise. */
    ghost predicate SingleUser()
      reads `single, `commands
    {
      single && AskedSingle(commands)
    }

    /** What the room holds and owes. */
    ghost predicate Kernel()
      reads `net, `doc, `stored, `history, `content, `dirty, `shadow, `commands, `dropped, `left, `nextID, `single, `isMultiUser, `asked
    {
      Ledger() && Documents() && Mirror() && Requests() && Books() && NobodyVanished()
    }

    /** Everything but the timers. */
    ghost predicate Sound()
      reads `lc, `escalations, `flushFailures, `undurableSince
      reads `net, `doc, `stored, `history, `content, `dirty, `shadow, `commands, `dropped, `left, `nextID, `single, `isMultiUser, `asked
    {
      lc == Active && escalations == 0 && Healthy() && Kernel()
    }

    ghost predicate Serving()
      reads this
    {
      Sound() && Scheduled() && Watched()
    }

    ghost predicate Over()
      reads this
    {
      && lc == Closed && escalations <= 1 && net.members == map[]
      && Past() && Documents() && NobodyVanished() && DroppedOk(dropped, history)
    }

    // --- The run loop --------------------------------------------------------------------------------

    /** Takes the client frame off the head of the queue. */
    method BeginMessage() returns (c: Command)
      requires Ledger() && Books() && commands != [] && commands[0].CmdMessage?
      modifies `commands, `history
      ensures c == old(commands)[0] && commands == old(commands)[1..]
      ensures c.src in old(history) && c.pos < |old(history)[c.src].sent| && c.frame == old(history)[c.src].sent[c.pos]
      ensures history == old(history)[c.src := Begun(old(history)[c.src], c.pos)]
      ensures history[c.src].handled == c.pos + 1 && history[c.src].settled == c.pos
      ensures Ledger() && QueueOk(commands, history)
      ensures c.src in net.members ==> Fresh(net, history, c.src, c.pos)
      ensures !c.sessionDropped ==> forall q | q in history[c.src].refused :: q > c.pos
    {
      hide LedgerOk, BooksOk, Fresh, QueueOk;
      ghost var queue, h := commands, history;
      c := commands[0];
      commands := commands[1..];
      TakeFrame(net, queue, h, D(), dropped, left, nextID);
      history := history[c.src := Begun(history[c.src], c.pos)];
    }

    /** Takes the client frame at the head of the queue and handles it to the end. */
    method TakeMessage(o: Oracle) returns (mutated: bool)
      requires Kernel() && commands != [] && commands[0].CmdMessage?
      modifies `commands, `net, `doc, `shadow, `dirty, `docUpdates, `dirtySince, `history
      ensures Kernel() && commands == old(commands)[1..] && history.Keys == old(history).Keys
      ensures net.members.Keys <= old(net).members.Keys
      ensures mutated == (dirty && !old(dirty)) && (old(dirty) ==> dirty)
      ensures dirtySince == if mutated then clock else old(dirtySince)
      ensures MessageEffect(old(net), net, old(commands)[0], o, old(dirty), cfg.saveDebounce > 0, content, old(doc), doc)
    {
      hide LedgerOk, BarriersOk, Fresh, Relabelled, Settling, BooksOk, PlacedOk, WritersOk, Expected, Landed, Accounted;
      hide ValidContent, QueueOk, Threshold, MessageEffect, Mirror, Documents, Requests;
      ghost var a, queue, h := net, commands, history;
      var c := BeginMessage();
      ghost var g := history;
      mutated := HandleMessage(c.src, c.pos, c.frame, c.sessionDropped, o);
      FinishFrame(a, net, queue, h, g, history, D(), dropped, left, nextID);
      history := history[c.src := Done(history[c.src])];
    }

    /** After a message: an edit schedules its save, and an empty room its release. */
    method Rearm(mutated: bool)
      modifies `saveTimer, `idleTimer
      ensures saveTimer == if mutated && cfg.saveDebounce > 0 then Some(clock + cfg.saveDebounce) else old(saveTimer)
      ensures idleTimer == if net.members == map[] then Some(clock + if cfg.idleTimeout <= 0 then 0 else cfg.idleTimeout) else old(idleTimer)
    {
      if mutated {
        ArmSaveTimer();
      }
      if net.members == map[] {
        ArmIdleTimer();
      }
    }

    /** `handleMessageCmd`: the first unsaved edit schedules a save, an emptied room its release. */
    method DispatchMessage(o: Oracle)
      requires Serving() && commands != [] && commands[0].CmdMessage?
      modifies `commands, `net, `doc, `shadow, `dirty, `docUpdates, `dirtySince, `history, `saveTimer, `idleTimer
      ensures Serving() && commands == old(commands)[1..] && history.Keys == old(history).Keys
      ensures net.members == map[] ==> idleTimer.Some?
      ensures dirty && !old(dirty) && cfg.saveDebounce > 0 ==> saveTimer == Some(clock + cfg.saveDebounce)
      ensures MessageEffect(old(net), net, old(commands)[0], o, old(dirty), cfg.saveDebounce > 0, content, old(doc), doc)
    {
      hide Kernel, Expected, MessageEffect, WatchedOk;
      ghost var a, was, queue, h := net, idleTimer.Some?, commands, history;
      var mutated := TakeMessage(o);
      Rearm(mutated);
      PopWatched(a, net, was, idleTimer.Some?, waiting, queue, h, history, left);
    }

    method TakeJoin(encodes: bool) returns (id: Option<ConnId>)
      requires Kernel() && commands != [] && commands[0].CmdJoin?
      modifies `commands, `net, `nextID, `isMultiUser, `single, `history, `dropped, `asked
      ensures Kernel() && commands == old(commands)[1..]
      ensures old(SingleUser()) ==> SingleUser()
      ensures id.None? <==> Crowded(old(net), cfg.maxConns) || !encodes
      ensures id.None? ==> net == old(net) && history == old(history) && asked == old(asked)
      ensures Remembered(old(asked), asked) && (id.Some? ==> asked == old(asked)[id.value := old(commands)[0].mode])
      ensures id.Some? ==>
                && id.value !in old(history) && id.value !in left && id.value in net.members && net.members[id.value].pending
                && net.members == old(net).members[id.value := net.members[id.value]]
                && history.Keys == old(history).Keys + {id.value}
    {
      hide LedgerOk, BarriersOk, BooksOk, PlacedOk, WritersOk, ValidContent;
      ghost var was, before, modes := single, isMultiUser, asked;
      ghost var queue, h, n, flags, last := commands, history, net, dropped, nextID;
      BooksIds(queue, h, flags, left, last);
      BooksPop(queue, h, flags, left, last);
      var c := commands[0];
      commands := commands[1..];
      id := HandleJoin(c.mode, c.isMultiUser, c.own, encodes);
      JoinWriters(n, net, before, c.isMultiUser, was, c.mode, modes, asked, id);
      if id.None? {
        BooksSkip(commands, h, flags, left, last, nextID);
      } else {
        BooksJoin(commands, h, flags, left, last, c.own);
        PlacesJoin(n, net, h, left, id.value, c.own);
      }
    }

    /** A joining member cancels a scheduled release; a refusal that leaves the room empty schedules one. */
    method DispatchJoin(encodes: bool) returns (id: Option<ConnId>)
      requires Serving() && commands != [] && commands[0].CmdJoin?
      modifies `commands, `net, `nextID, `isMultiUser, `single, `history, `dropped, `asked, `idleTimer
      ensures Serving() && commands == old(commands)[1..]
      ensures old(SingleUser()) ==> SingleUser()
      ensures id.None? <==> Crowded(old(net), cfg.maxConns) || !encodes
      ensures id.Some? ==> id.value !in old(history) && id.value in net.members && net.members[id.value].pending && idleTimer.None?
      ensures id.None? ==> net == old(net) && history == old(history) && asked == old(asked)
      ensures Remembered(old(asked), asked)
    {
      hide Kernel, Expected, Healthy, SingleUser, WatchedOk, Remembered, Crowded, SaveScheduled;
      ghost var a, h, was, queue := net, history, idleTimer.Some?, commands;
      idleTimer := None;
      id := TakeJoin(encodes);
      if net.members == map[] {
        ArmIdleTimer();
      }
      JoinWatched(a, net, was, idleTimer.Some?, waiting, queue, commands, h, history, left, id);
    }

    method TakeActivate() returns (ok: bool)
      requires Kernel() && commands != [] && commands[0].CmdActivate?
      modifies `commands, `net
      ensures Kernel() && commands == old(commands)[1..]
      ensures net.members.Keys <= old(net).members.Keys
      ensures ok == (commands == old(commands)[1..] && old(commands)[0].src in old(net).members)
      ensures old(commands)[0].src in net.members ==> !net.members[old(commands)[0].src].pending
    {
      hide LedgerOk, BarriersOk, BooksOk, PlacedOk, WritersOk, ValidContent, Settling;
      ghost var n := net;
      BooksPop(commands, history, dropped, left, nextID);
      var c := commands[0];
      commands := commands[1..];
      ok := HandleActivate(c.src);
      SettlingPlaces(n, net, history, left);
      SettlingShrinks(n, net);
    }

    method DispatchActivate() returns (ok: bool)
      requires Serving() && commands != [] && commands[0].CmdActivate?
      modifies `commands, `net
      ensures Serving() && commands == old(commands)[1..]
      ensures ok == (old(commands)[0].src in old(net).members)
      ensures old(commands)[0].src in net.members ==> !net.members[old(commands)[0].src].pending
    {
      hide Kernel, Expected;
      ExpectedAfterPop(commands);
      ok := TakeActivate();
    }

    method TakeLeave() returns (src: ConnId)
      requires Kernel() && commands != [] && commands[0].CmdLeave?
      modifies `commands, `net, `left
      ensures Kernel() && commands == old(commands)[1..] && src == old(commands)[0].src
      ensures net.members.Keys <= old(net).members.Keys - {src} && left == old(left) + {src}
    {
      hide LedgerOk, BarriersOk, BooksOk, PlacedOk, WritersOk, ValidContent, SettlingBut;
      ghost var n, was := net, left;
      BooksPop(commands, history, dropped, left, nextID);
      BooksLeave(commands, history, dropped, left, nextID);
      src := commands[0].src;
      commands := commands[1..];
      var _ := HandleLeave(src);
      PlacesLeave(n, net, history, was, src);
    }

    /** A leave that empties the room schedules its release, and so does the leave of a refused admission. */
    method DispatchLeave()
      requires Serving() && commands != [] && commands[0].CmdLeave?
      modifies `commands, `net, `left, `idleTimer
      ensures Serving() && commands == old(commands)[1..]
      ensures old(commands)[0].src in left && old(commands)[0].src !in net.members
      ensures net.members == map[] ==> idleTimer.Some?
    {
      hide Kernel, Expected;
      var src := TakeLeave();
      if net.members == map[] {
        ArmIdleTimer();
      }
    }

    /** A shutdown flushes first; the deletion of the document must not write it again. */
    method DispatchClose(stores: Stores)
      requires Serving() && commands != [] && (commands[0].CmdClose? || commands[0].CmdCloseDeleted?)
      modifies `lc, `shadow, `net, `stored, `indexed, `version, `dirty, `flushFailures, `undurableSince, `escalations
      ensures Over() && old(stored) <= stored
      ensures commands[0].CmdCloseDeleted? ==> stored == old(stored) && ToldFailed(old(net), net)
      ensures commands[0].CmdClose? ==> stored == if old(dirty) && stores.checkpoint != FailsBefore then doc else old(stored)
      ensures commands[0].CmdClose? && old(dirty) && stores == Stores(Accepts, Accepts) ==> ToldPersisted(old(net), net) && !dirty
      ensures Informed(old(net), net, if commands[0].CmdClose? then ServerShutdown else DocumentDeleted)
    {
      hide LedgerOk, PastOk, RegistryOk, BarriersOk, BooksOk, PlacedOk, WritersOk, ValidContent, Informed;
      ghost var n := net;
      BooksFlags(commands, history, dropped, left, nextID);
      StoredSub(n, history, D());
      var code := if commands[0].CmdClose? then ServerShutdown else DocumentDeleted;
      Teardown(code, if commands[0].CmdClose? then Some(stores) else None);
      PlacedAfterEnd(n, net, history, left, code);
    }

    // --- Timer, peer and failure events ----------------------------------------------------------------

    /** One flush attempt from the loop: afterwards no request is outstanding, and the room serves on or is over. */
    method Flush(stores: Stores) returns (ghost outcome: FlushOutcome)
      requires Sound()
      modifies `lc, `shadow, `net, `stored, `indexed, `version, `dirty, `flushFailures, `undurableSince, `escalations
      ensures outcome == Clean <==> !old(dirty)
      ensures outcome == Saved <==> old(dirty) && stores == Stores(Accepts, Accepts)
      ensures stored == if old(dirty) && stores.checkpoint != FailsBefore then doc else old(stored)
      ensures if outcome == Clean || outcome == Saved then ToldPersisted(old(net), net) else ToldFailed(old(net), net)
      ensures outcome == Clean ==> Sound() && net == old(net) && !dirty && stored == doc
      ensures outcome == Saved ==> Sound() && !dirty && stored == doc && flushFailures == 0
      ensures outcome == Retrying ==> Sound() && dirty && flushFailures == old(flushFailures) + 1
      ensures outcome == Retrying ==> undurableSince == Some(if old(undurableSince).Some? then old(undurableSince).value else clock)
      ensures outcome == Escalated ==>
                && Over() && flushFailures == Threshold(cfg) == old(flushFailures) + 1 && escalations == 1
                && Informed(old(net), net, EditsNotSaved)
      ensures old(stored) <= stored && net.members.Keys <= old(net).members.Keys
      ensures AnsweredOrShed(old(net), net) && (lc == Active ==> BarriersOk(net, false))
    {
      hide LedgerOk, PastOk, RegistryOk, BarriersOk, BooksOk, PlacedOk, WritersOk, ValidContent, Informed, Answered, AnsweredOrShed, Told;
      hide ToldPersisted, ToldFailed;
      ghost var n := net;
      BooksFlags(commands, history, dropped, left, nextID);
      StoredSub(n, history, D());
      outcome := Persist(stores);
      if outcome == Clean {
        FlushNothing(n);
      } else if outcome == Escalated {
        PlacedAfterEnd(n, net, history, left, EditsNotSaved);
        EndAnswers(n, net, EditsNotSaved);
      } else {
        FlushKeeps(n, net, history, left, outcome == Saved, cfg.saveDebounce > 0);
      }
    }

    /** A teardown without a flush. */
    method End(code: EndCode)
      requires Sound()
      modifies `lc, `shadow, `net, `stored, `indexed, `version, `dirty, `flushFailures, `undurableSince, `escalations
      ensures Over() && Informed(old(net), net, code)
      ensures stored == old(stored) && dirty == old(dirty) && escalations == old(escalations)
    {
      hide LedgerOk, PastOk, RegistryOk, BarriersOk, BooksOk, PlacedOk, WritersOk, ValidContent, Informed;
      ghost var n := net;
      BooksFlags(commands, history, dropped, left, nextID);
      Teardown(code, None);
      PlacedAfterEnd(n, net, history, left, code);
    }

    /** The save timer went off: flush, and retry on backoff for as long as the room is left dirty. */
    method SaveTimerFired(stores: Stores)
      requires Serving() && saveTimer.Some? && saveTimer.value == clock
      modifies `lc, `shadow, `net, `stored, `indexed, `version, `dirty, `flushFailures, `undurableSince, `escalations, `saveTimer
      ensures if lc == Active then Serving() else Over()
      ensures old(stored) <= stored && stored == if old(dirty) && stores.checkpoint != FailsBefore then doc else old(stored)
      ensures AnsweredOrShed(old(net), net)
      ensures lc == Active && dirty ==>
                flushFailures == old(flushFailures) + 1 && saveTimer == Some(clock + RetryBackoff(cfg.saveDebounce, flushFailures))
      ensures lc == Active && !dirty ==> stored == doc && ToldPersisted(old(net), net)
      ensures old(dirty) && stores == Stores(Accepts, Accepts) ==> lc == Active && !dirty
      ensures lc != Active || dirty ==> ToldFailed(old(net), net)
      ensures lc != Active ==>
                && flushFailures == (if cfg.flushFailureThreshold > 0 then cfg.flushFailureThreshold else 5)
                && escalations == 1 && Informed(old(net), net, EditsNotSaved)
      ensures lc != Active && old(undurableSince).Some? ==>
                clock <= old(undurableSince).value + (Threshold(cfg) - 1) * MAX_FLUSH_RETRY_BACKOFF
    {
      hide Kernel, Expected, Informed, AnsweredOrShed, PastOk, RegistryOk, PlacedOk, WritersOk, DroppedOk, ValidContent, ToldPersisted, ToldFailed;
      saveTimer := None;
      ghost var outcome := Flush(stores);
      if lc != Active {
        return;
      }
      ArmRetryTimer();
    }

    /** `releaseIfEmpty`: a final flush first, and no release while that flush can still be retried. */
    method IdleTimerFired(stores: Stores)
      requires Serving() && idleTimer.Some? && idleTimer.value == clock
      modifies `lc, `shadow, `net, `stored, `indexed, `version, `dirty, `flushFailures, `undurableSince, `escalations
      modifies `saveTimer, `idleTimer
      ensures if lc == Active then Serving() else Over()
      ensures old(stored) <= stored && stored == if old(net).members == map[] && old(dirty) && stores.checkpoint != FailsBefore then doc else old(stored)
      ensures old(net).members != map[] ==> lc == Active && net == old(net)
      ensures old(net).members == map[] && (!old(dirty) || stores == Stores(Accepts, Accepts)) ==> lc == Closed
      ensures lc == Active && net.members == map[] ==> dirty && idleTimer.Some? && saveTimer.Some?
      ensures lc != Active && cfg.saveDebounce > 0 ==> escalations == 1 || (!dirty && stored == doc)
    {
      hide Kernel, Expected, Informed, AnsweredOrShed, PastOk, RegistryOk, PlacedOk, WritersOk, DroppedOk, ValidContent, ToldPersisted, ToldFailed;
      idleTimer := None;
      if net.members != map[] {
        MemberOwes(net, history, left);
        return;
      }
      ghost var outcome := Flush(stores);
      if lc == Active && dirty && flushFailures > 0 && cfg.saveDebounce > 0 {
        ArmRetryTimer();
        ArmIdleTimer();
      } else if lc == Active {
        End(ServerShutdown);
      }
    }

    /** The loop recovered from a panic: nothing of a document left in the middle of a change is written. */
    method Panic()
      requires Serving()
      modifies `lc, `shadow, `net, `stored, `indexed, `version, `dirty, `flushFailures, `undurableSince, `escalations
      ensures Over() && stored == old(stored) && escalations == 0
      ensures Informed(old(net), net, EditsNotSaved) && AnsweredOrShed(old(net), net)
    {
      hide Kernel, Informed, Scheduled, Watched, AnsweredOrShed;
      ghost var n := net;
      End(EditsNotSaved);
      EndAnswers(n, net, EditsNotSaved);
    }

    method TakePeer(update: Update) returns (mutated: bool)
      requires Kernel()
      modifies `net, `doc, `shadow, `dirty, `docUpdates, `dirtySince
      ensures Kernel() && net.members.Keys <= old(net).members.Keys
      ensures mutated == (dirty && !old(dirty)) && (old(dirty) ==> dirty)
      ensures dirtySince == if mutated then clock else old(dirtySince)
      ensures update.Decodable? ==> doc == if ValidContent(content, old(doc) + update.ops) then old(doc) + update.ops else old(doc)
      ensures update.Truncated? ==> doc == if content == Unrecognized then old(doc) + update.applied else old(doc)
    {
      hide LedgerOk, BarriersOk, BooksOk, PlacedOk, WritersOk, ValidContent, Evolved, Settling;
      ghost var n := net;
      BooksFlags(commands, history, dropped, left, nextID);
      mutated := HandlePeer(update);
      EvolvedSettles(n, net);
      SettlingPlaces(n, net, history, left);
      SettlingShrinks(n, net);
    }

    /** A document update from another process. */
    method PeerUpdate(update: Update)
      requires Serving()
      modifies `net, `doc, `shadow, `dirty, `docUpdates, `dirtySince, `saveTimer
      ensures Serving()
      ensures update.Decodable? ==> doc == if ValidContent(content, old(doc) + update.ops) then old(doc) + update.ops else old(doc)
      ensures update.Truncated? ==> doc == if content == Unrecognized then old(doc) + update.applied else old(doc)
    {
      hide Kernel, Expected, ValidContent;
      var mutated := TakePeer(update);
      if mutated {
        ArmSaveTimer();
      }
    }

    /** An awareness or ephemeral frame from another process goes to every visible member here. */
    method PeerEphemeral(frame: ClientFrame)
      requires Serving() && (frame.Awareness? || frame.Ephemeral?)
      modifies `net
      ensures Serving() && Relayed(old(net), net, 0, frame)
    {
      hide LedgerOk, BarriersOk, BooksOk, PlacedOk, WritersOk, ValidContent, Evolved, Settling, Expected, Relayed;
      ghost var n := net;
      Relay(frame, 0);
      EvolvedSettles(n, net);
      SettlingPlaces(n, net, history, left);
      SettlingShrinks(n, net);
    }

    // --- The sessions and the clock ------------------------------------------------------------------

    /** The last word to a session whose frame was refused, straight to its connection. */
    method Excuse(k: ConnId)
      requires Ledger() && Requests() && NobodyVanished() && k in history
      modifies `net
      ensures Ledger() && Requests() && NobodyVanished() && k in net.ends
      ensures net.members == old(net).members && EndsWith(old(net), net, k, UpdateNotAccepted)
    {
      hide LedgerOk, BarriersOk, PlacedOk, WritersOk;
      ghost var a := net;
      HasLog(net, history, left, k);
      var _ := Send(k, SessionEndFrame(UpdateNotAccepted));
      ghost var b := net;
      LastWord(a, b, history, D(), left, k, UpdateNotAccepted);
      CloseAfterDrain(k, UpdateNotAccepted);
      FarewellEnded(b, net, history, D(), k, UpdateNotAccepted);
      EndPlaces(b, net, history, left, dirty && cfg.saveDebounce > 0);
    }

    /** The queue takes the frame with its session's mark, or the frame is lost and the session marked for good. */
    method Enqueue(k: ConnId, frame: ClientFrame, edits: Doc, admitted: bool) returns (already: bool)
      requires Serving() && k in history && Sendable(net, history[k], k, frame, edits)
      modifies `commands, `history, `dropped
      ensures Serving() && k in old(dropped) && already == old(dropped)[k]
      ensures history == old(history)[k := Forwarded(old(history)[k], frame, edits, admitted)]
      ensures commands == if admitted then old(commands) + [CmdMessage(k, |old(history)[k].sent|, frame, already)] else old(commands)
      ensures dropped == if admitted then old(dropped) else old(dropped)[k := true]
    {
      hide LedgerOk, BarriersOk, PlacedOk, WritersOk, ValidContent, Sendable, Expected, BooksOk, Healthy, Documents, Mirror, Requests, Scheduled, WatchedOk;
      ForwardBoth(net, commands, history, D(), dropped, left, nextID, k, frame, edits, admitted);
      ghost var queue, h := commands, history;
      already := dropped[k];
      if admitted {
        commands := commands + [CmdMessage(k, |history[k].sent|, frame, already)];
      } else {
        dropped := dropped[k := true];
      }
      history := history[k := Forwarded(history[k], frame, edits, admitted)];
      QueuedWatched(net, net, idleTimer.Some?, waiting, queue, commands, h, history, left);
    }

    /**
     * `Session.Forward`. A refused frame marks its session for good; the first refusal under
     * backpressure also tells the client and closes it behind that word.
     */
    method Forward(k: ConnId, frame: ClientFrame, edits: Doc, admitted: bool)
      requires Serving() && k in history && Sendable(net, history[k], k, frame, edits)
      modifies `commands, `history, `dropped, `net
      ensures Serving()
      ensures history == old(history)[k := Forwarded(old(history)[k], frame, edits, admitted)]
      ensures admitted ==>
                && commands == old(commands) + [CmdMessage(k, |old(history)[k].sent|, frame, k in old(dropped) && old(dropped)[k])]
                && net == old(net) && dropped == old(dropped)
      ensures !admitted ==>
                && commands == old(commands) && dropped == old(dropped)[k := true]
                && net.members == old(net).members
                && if k in old(dropped) && old(dropped)[k] then net == old(net)
                   else k in net.ends && EndsWith(old(net), net, k, UpdateNotAccepted)
    {
      hide LedgerOk, PlacedOk, WritersOk, ValidContent, Sendable, Expected, Healthy, Documents, Mirror, Requests, Scheduled, Books;
      var already := Enqueue(k, frame, edits, admitted);
      if !admitted && !already {
        Excuse(k);
      }
    }

    /** A frame forwarded to a room that is over: lost, and its session marked, without a word. */
    method ForwardLate(k: ConnId, frame: ClientFrame, edits: Doc)
      requires Over() && k in history && Sendable(net, history[k], k, frame, edits)
      modifies `history, `dropped
      ensures Over() && history == old(history)[k := Forwarded(old(history)[k], frame, edits, false)]
    {
      hide PastOk, RegistryOk, PlacedOk, WritersOk, ValidContent, Sendable;
      ForwardPast(net, history, D(), k, frame, edits, false);
      ForwardPlaces(net, history, left, k, frame, edits, false);
      LateFlags(history, dropped, k, frame, edits);
      history := history[k := Forwarded(history[k], frame, edits, false)];
      dropped := dropped[k := true];
    }

    /**
     * A command other than a frame is queued, or refused by a queue that stays full: an acquirer's join
     * or refusal, an activation, a leave, a close.
     */
    method Submit(c: Command, admitted: bool)
      requires Serving() && !c.CmdMessage?
      requires c.CmdJoin? || c == CmdLeave(0) ==> waiting > 0
      requires c.CmdLeave? ==> c.src == 0 || c.src in history
      modifies `commands, `waiting
      ensures Serving() && commands == if admitted then old(commands) + [c] else old(commands)
      ensures waiting == if admitted && (c.CmdJoin? || c == CmdLeave(0)) then old(waiting) - 1 else old(waiting)
    {
      hide LedgerOk, BarriersOk, PlacedOk, WritersOk, ValidContent, Expected, BooksOk;
      if !admitted {
        return;
      }
      ghost var queue := commands;
      BooksSubmit(queue, history, dropped, left, nextID, c);
      ExpectedAfterAppend(queue, c);
      if c.CmdJoin? || c == CmdLeave(0) {
        waiting := waiting - 1;
      }
      commands := commands + [c];
    }

    /** The registry hands the room to one more acquirer. */
    method Acquire()
      requires Serving()
      modifies `waiting
      ensures Serving() && waiting == old(waiting) + 1
    {
      hide Sound, Expected;
      waiting := waiting + 1;
    }

    /** Time passes, up to the next deadline. */
    method Tick(now: nat)
      requires Serving() && clock <= now
      requires saveTimer.Some? ==> now <= saveTimer.value
      requires idleTimer.Some? ==> now <= idleTimer.value
      modifies `clock
      ensures Serving() && clock == now
    {
      hide Sound, Watched;
      clock := now;
    }

    // --- Whole runs ------------------------------------------------------------------------------------

    /** A room as the registry publishes it: restored, clean, and held by the acquirer it was made for. */
    constructor (cfg: Config, content: ContentType, checkpoint: Doc, isMultiUser: Option<bool>, now: nat, quota: ConnId -> nat)
      requires ValidContent(content, checkpoint)
      ensures this.cfg == cfg && this.quota == quota && this.content == content
      ensures Serving() && doc == stored == checkpoint && history == map[] && asked == map[] && waiting == 1
      ensures isMultiUser == Some(false) ==> SingleUser()
    {
      this.cfg, this.quota, this.content, this.isMultiUser := cfg, quota, content, isMultiUser;
      net := Net(map[], map[], {}, map[], map[], {}, 0, 0, quota);
      lc, nextID := Active, 0;
      doc, stored, docUpdates := checkpoint, checkpoint, 0;
      shadow := if HasSchema(content) then Some(checkpoint) else None;
      dirty, flushFailures, undurableSince, version, indexed := false, 0, None, 0, 0;
      saveTimer, idleTimer, commands := None, None, [];
      clock, dropped, waiting := now, map[], 1;
      left, escalations, history, dirtySince, asked := {}, 0, map[], now, map[];
      single := isMultiUser == Some(false);
      new;
      hide ValidContent;
      FreshLedger(net, D(), isMultiUser);
      FreshBooks(nextID);
    }

    /** `newRoom`: stored content that violates its schema never becomes a room. */
    static method Materialize(cfg: Config, content: ContentType, checkpoint: Doc, isMultiUser: Option<bool>, now: nat, quota: ConnId -> nat)
      returns (room: Room?)
      ensures room == null <==> !ValidContent(content, checkpoint)
      ensures room != null ==>
                && fresh(room) && room.cfg == cfg && room.quota == quota && room.content == content && room.Serving()
                && room.doc == room.stored == checkpoint && room.history == map[] && room.asked == map[]
                && (isMultiUser == Some(false) ==> room.SingleUser())
    {
      if !ValidContent(content, checkpoint) {
        return null;
      }
      room := new Room(cfg, content, checkpoint, isMultiUser, now, quota);
    }

    /** `dispatch`. */
    method Dispatch(o: Oracle, stores: Stores)
      requires Serving() && commands != []
      modifies this
      ensures if lc == Active then Serving() else Over()
      ensures content == old(content) && old(stored) <= stored
      ensures old(SingleUser()) ==> SingleUser()
      ensures Remembered(old(asked), asked)
      ensures lc == Active ==> commands == old(commands)[1..]
      ensures old(commands)[0].CmdClose? || old(commands)[0].CmdCloseDeleted? ==> lc == Closed
    {
      hide Kernel, Healthy, Scheduled, Watched, PastOk, RegistryOk, PlacedOk, WritersOk, DroppedOk, ValidContent, Expected, Informed;
      SingleTail(commands);
      match commands[0] {
        case CmdJoin(_, _, _) => var _ := DispatchJoin(o.encodes);
        case CmdActivate(_) => var _ := DispatchActivate();
        case CmdLeave(_) => DispatchLeave();
        case CmdMessage(_, _, _, _) => DispatchMessage(o);
        case CmdClose | CmdCloseDeleted => DispatchClose(stores);
      }
    }

    /** What sessions, acquirers and the clock do to a serving room. */
    method Surroundings(e: Event)
      requires Serving()
      modifies `commands, `history, `dropped, `net, `waiting, `clock
      ensures Serving()
      ensures old(SingleUser()) && SingleEvent(e) ==> SingleUser()
      ensures e.Acquiring? ==> waiting == old(waiting) + 1
      ensures e.Passing? && InTime(e.now, old(clock), saveTimer, idleTimer) ==> clock == e.now
      ensures e.Submitting? && e.taken && Submittable(e.command, old(waiting), old(history)) ==> commands == old(commands) + [e.command]
      ensures e.Forwarding? && e.k in old(history) && Sendable(old(net), old(history)[e.k], e.k, e.frame, e.edits) ==>
                history == old(history)[e.k := Forwarded(old(history)[e.k], e.frame, e.edits, e.admitted)]
    {
      hide Kernel, Healthy, Scheduled, Watched, Expected, Sendable;
      match e {
        case Forwarding(k, frame, edits, admitted) =>
          if k in history && Sendable(net, history[k], k, frame, edits) {
            Forward(k, frame, edits, admitted);
          }
        case Submitting(c, taken) =>
          if Submittable(c, waiting, history) {
            Submit(c, taken);
          }
        case Acquiring => Acquire();
        case Passing(now) =>
          if InTime(now, clock, saveTimer, idleTimer) {
            Tick(now);
          }
        case _ =>
      }
    }

    /** An event of the world, where the room allows it. Once a room is over only late frames reach it. */
    method Step(e: Event)
      requires if lc == Active then Serving() else Over()
      modifies this
      ensures if lc == Active then Serving() else Over()
      ensures content == old(content) && old(stored) <= stored
      ensures old(SingleUser()) && SingleEvent(e) ==> SingleUser()
      ensures old(lc) != Active ==> lc == old(lc) && stored == old(stored)
      ensures Remembered(old(asked), asked)
      ensures e.Panicked? ==> lc == Closed
      ensures e.Dispatching? && old(lc) == Active && old(commands) != [] && lc == Active ==> commands == old(commands)[1..]
      ensures e.SaveTimeout? && old(lc) == Active && old(saveTimer) == Some(clock) && old(dirty) && e.stores == Stores(Accepts, Accepts) ==>
                lc == Active && !dirty && stored == doc
      ensures e.IdleTimeout? && old(lc) == Active && old(idleTimer) == Some(clock) && old(net).members == map[] ==>
                !old(dirty) || e.stores == Stores(Accepts, Accepts) ==> lc == Closed
      ensures e.PeerUpdated? && old(lc) == Active && e.update.Decodable? && ValidContent(content, old(doc) + e.update.ops) ==>
                doc == old(doc) + e.update.ops
      ensures e.PeerFramed? && old(lc) == Active && (e.peerFrame.Awareness? || e.peerFrame.Ephemeral?) ==>
                Relayed(old(net), net, 0, e.peerFrame)
      ensures e.Passing? && old(lc) == Active && InTime(e.now, old(clock), old(saveTimer), old(idleTimer)) ==> clock == e.now
      ensures e.Acquiring? && old(lc) == Active ==> waiting == old(waiting) + 1
      ensures e.Submitting? && e.taken && old(lc) == Active && Submittable(e.command, old(waiting), old(history)) ==>
                commands == old(commands) + [e.command]
      ensures e.Forwarding? && e.k in old(history) && Sendable(old(net), old(history)[e.k], e.k, e.frame, e.edits) ==>
                e.k in history && history[e.k].sent == old(history)[e.k].sent + [e.frame]
    {
      hide Kernel, Healthy, Scheduled, Watched, PastOk, RegistryOk, PlacedOk, WritersOk, DroppedOk;
      hide ValidContent, Expected, Informed, AnsweredOrShed, Relayed, Sendable;
      if lc != Active {
        if e.Forwarding? && e.k in history && Sendable(net, history[e.k], e.k, e.frame, e.edits) {
          ForwardLate(e.k, e.frame, e.edits);
        }
        return;
      }
      match e {
        case Dispatching(oracle, stores) => if commands != [] { Dispatch(oracle, stores); }
        case SaveTimeout(stores) => if saveTimer == Some(clock) { SaveTimerFired(stores); }
        case IdleTimeout(stores) => if idleTimer == Some(clock) { IdleTimerFired(stores); }
        case PeerUpdated(update) => PeerUpdate(update);
        case PeerFramed(frame) => if frame.Awareness? || frame.Ephemeral? { PeerEphemeral(frame); }
        case Panicked => Panic();
        case _ => Surroundings(e);
      }
    }

    /** Any finite run of the room: it ends serving or over, and the store never loses anything. */
    method Run(script: seq<Event>)
      requires if lc == Active then Serving() else Over()
      modifies this
      ensures if lc == Active then Serving() else Over()
      ensures Past() && Documents() && old(stored) <= stored && content == old(content)
      ensures AnswersStand(net, history, stored)
      ensures NoMoreThanAsked(net, asked) && Remembered(old(asked), asked)
      ensures old(SingleUser()) && (forall e | e in script :: SingleEvent(e)) ==> SingleUser() && SingleWriter(net)
    {
      hide PastOk, RegistryOk, PlacedOk, DroppedOk, ValidContent, Expected, Scheduled, Watched, LedgerOk;
      for i := 0 to |script|
        invariant if lc == Active then Serving() else Over()
        invariant old(stored) <= stored && content == old(content) && Remembered(old(asked), asked)
        invariant old(SingleUser()) && (forall e | e in script :: SingleEvent(e)) ==> SingleUser()
      {
        Step(script[i]);
      }
      if lc == Active {
        LedgerNet(net, history, D());
      }
      PastStands(net, history, D());
    }
  }
}
