/**
 * What the invariants of the room mean for the people using it: over every run of one room, and over
 * every sequence of rooms that follow each other on the same stored document.
 */
module RoomRuns {
  import opened Basics
  import opened Crdt
  import opened Lifecycle
  import opened RoomNet
  import opened RoomLedger
  import opened RoomQueue
  import opened RoomRules
  import opened RoomSteps
  import opened RoomLoop

  /** What is left of a room when its process forgets it: the traffic and the sessions' histories. */
  datatype Life = Life(net: Net, history: History)

  /** A store that only grows never takes an answer back. */
  lemma AnswersStandLater(n: Net, h: History, stored: Doc, later: Doc)
    requires AnswersStand(n, h, stored) && stored <= later
    ensures AnswersStand(n, h, later)
  {
    forall k, r | k in n.log
      ensures Answers(n, k, r) <= 1 && (Sent(n, k, PersistedFrame(r)) > 0 ==> Covered(h, later, k, r.pos))
    {
      assert Answers(n, k, r) <= 1;
    }
  }

  /**
   * A document over its whole life: rooms come and go, cut off anywhere, each restored from what the
   * previous one left in the store. Nothing stored is ever lost and every `persisted` that was ever
   * said stays true.
   */
  method Lives(cfg: Config, content: ContentType, initial: Doc, scripts: seq<seq<Event>>, quotas: nat -> ConnId -> nat)
    returns (stored: Doc, ghost lives: seq<Life>)
    ensures initial <= stored
    ensures ValidContent(content, initial) ==> ValidContent(content, stored) && |lives| == |scripts|
    ensures !ValidContent(content, initial) ==> stored == initial && lives == []
    ensures forall l | l in lives :: AnswersStand(l.net, l.history, stored)
  {
    hide ValidContent, PastOk, RegistryOk, PlacedOk, AnswersStand;
    stored, lives := initial, [];
    for i := 0 to |scripts|
      invariant initial <= stored
      invariant ValidContent(content, initial) ==> ValidContent(content, stored) && |lives| == i
      invariant !ValidContent(content, initial) ==> stored == initial && lives == []
      invariant forall l | l in lives :: AnswersStand(l.net, l.history, stored)
    {
      var room := Room.Materialize(cfg, content, stored, None, i, quotas(i));
      if room != null {
        ghost var before := stored;
        stored := RunOf(room, scripts[i]);
        forall l | l in lives ensures AnswersStand(l.net, l.history, stored) {
          if AnswersStand(l.net, l.history, before) {
            AnswersStandLater(l.net, l.history, before, stored);
          }
        }
        lives := lives + [Life(room.net, room.history)];
      }
    }
  }

  /** One room's run, up to wherever its process stops. */
  method RunOf(room: Room, script: seq<Event>) returns (stored: Doc)
    requires room.Serving()
    modifies room
    ensures stored == room.stored && old(room.stored) <= stored
    ensures AnswersStand(room.net, room.history, stored) && ValidContent(room.content, stored) && room.content == old(room.content)
  {
    hide ValidContent, PastOk, RegistryOk, PlacedOk, AnswersStand;
    room.Run(script);
    stored := room.stored;
  }

  /** However often writers come and go, a room that is single-user from the start never has two of them. */
  method SingleUserRun(cfg: Config, content: ContentType, checkpoint: Doc, script: seq<Event>, quota: ConnId -> nat) returns (room: Room?)
    requires forall e | e in script :: SingleEvent(e)
    ensures room == null <==> !ValidContent(content, checkpoint)
    ensures room != null ==> SingleWriter(room.net)
  {
    hide ValidContent, PastOk, RegistryOk, PlacedOk, AnswersStand, LedgerOk, SingleWriter;
    room := Room.Materialize(cfg, content, checkpoint, Some(false), 0, quota);
    if room != null {
      room.Run(script);
    }
  }

  /** Whatever happens in between, nobody whose join asked to read is ever registered as a writer. */
  method ReadersStayReaders(cfg: Config, content: ContentType, checkpoint: Doc, isMultiUser: Option<bool>, script: seq<Event>, quota: ConnId -> nat)
    returns (room: Room?)
    ensures room == null <==> !ValidContent(content, checkpoint)
    ensures room != null ==>
              forall k | k in room.net.members :: k in room.asked && (room.asked[k] == Viewer ==> room.net.members[k].mode == Viewer)
  {
    hide ValidContent, PastOk, RegistryOk, PlacedOk, AnswersStand, LedgerOk;
    room := Room.Materialize(cfg, content, checkpoint, isMultiUser, 0, quota);
    if room != null {
      room.Run(script);
    }
  }

  // --- Convergence ---------------------------------------------------------------------------------

  /** What the client behind a connection has once it has read everything it was sent. */
  function ClientDoc(n: Net, h: History, k: ConnId): Doc
    requires k in n.log && k in h
  {
    h[k].own + Received(n.log[k])
  }

  ghost predicate Synchronised(n: Net, h: History, k: ConnId) {
    k in n.members && k in h && k in n.log && h[k].synced
  }

  /** A synchronised client never lacks anything, and has more than the server only by its own unsent or refused edits. */
  lemma ClientAgreesExactly(n: Net, h: History, d: Docs, k: ConnId)
    requires LedgerOk(n, h, d) && Synchronised(n, h, k)
    ensures d.live <= ClientDoc(n, h, k) <= d.live + h[k].own
    ensures ClientDoc(n, h, k) == d.live <==> h[k].own <= d.live
  {
    assert Received(n.log[k]) <= d.live;
  }

  /** Everything the client made it forwarded, and nothing it forwarded was refused or cut short. */
  ghost predicate Forwarding(s: Session) {
    forall o | o in s.own ::
      exists q :: 0 <= q < |s.sent| && q !in s.refused && IsWrite(s.sent[q]) && s.sent[q].update.Decodable? && o in s.sent[q].update.ops
  }

  /** Once the queue is drained, every frame of every session is handled or was refused. */
  lemma DrainedQueue(h: History, k: ConnId, q: nat)
    requires QueueOk([], h) && AllSettled(h) && k in h && q < |h[k].sent| && q !in h[k].refused
    ensures Finished(h[k], q)
  {
    assert !IsQueued([], k, q);
  }

  lemma DrainedWriter(n: Net, h: History, d: Docs, k: ConnId)
    requires LedgerOk(n, h, d) && QueueOk([], h) && AllSettled(h)
    requires Synchronised(n, h, k) && Forwarding(h[k])
    ensures ClientDoc(n, h, k) == d.live
  {
    forall o | o in h[k].own ensures o in d.live {
      var q :| 0 <= q < |h[k].sent| && q !in h[k].refused && IsWrite(h[k].sent[q])
               && h[k].sent[q].update.Decodable? && o in h[k].sent[q].update.ops;
      DrainedQueue(h, k, q);
      assert Landed(h[k].sent[q], d.live);
    }
    ClientAgreesExactly(n, h, d, k);
  }

  /** When the room has nothing left to do, every registered writer has the server's document, and so all have the same. */
  lemma QuietRoomConverges(room: Room, j: ConnId, k: ConnId)
    requires room.Serving() && room.commands == []
    requires Synchronised(room.net, room.history, j) && Forwarding(room.history[j])
    requires Synchronised(room.net, room.history, k) && Forwarding(room.history[k])
    ensures ClientDoc(room.net, room.history, j) == room.doc == ClientDoc(room.net, room.history, k)
  {
    hide LedgerOk, QueueOk, Forwarding, Received;
    DrainedWriter(room.net, room.history, room.D(), j);
    DrainedWriter(room.net, room.history, room.D(), k);
  }

  // --- Liveness of timers --------------------------------------------------------------------------

  /**
   * A request is parked only while its answer is scheduled: the room is dirty, the next flush has a
   * deadline that has not passed, and no flush outcome leaves a request parked (`Room.Flush`).
   */
  lemma ParkedRequestIsScheduled(room: Room, k: ConnId)
    requires room.Serving() && k in room.net.members && room.net.members[k].barrier.Some?
    ensures room.dirty && room.cfg.saveDebounce > 0
    ensures room.saveTimer.Some? && room.clock <= room.saveTimer.value
    ensures room.net.members[k].mode == Collaborator && !room.net.members[k].poisoned
    ensures room.flushFailures == 0 ==> room.saveTimer.value == room.dirtySince + room.cfg.saveDebounce
    ensures k in room.history && room.net.members[k].barrier.value.pos < |room.history[k].sent|
    ensures Answers(room.net, k, room.net.members[k].barrier.value) == 0
  {
    hide PastOk, Converged, Settled, NothingForgotten, NetOk;
    assert Parked(room.net, room.history, k);
  }

  /** Once every acquirer sent its command and every session's leave was processed, the release is scheduled. */
  lemma DesertedRoomIsReleased(room: Room)
    requires room.Serving() && room.waiting == 0 && room.commands == [] && room.history.Keys <= room.left
    ensures room.net.members == map[]
    ensures room.idleTimer.Some? && room.clock <= room.idleTimer.value
  {
    assert room.history.Keys - room.left == {};
  }

  /** The store cannot fail for long: every failure is one step to the threshold, and all the waiting together is bounded. */
  lemma UndurableIsBrief(room: Room)
    requires room.Serving() && room.cfg.saveDebounce > 0 && room.undurableSince.Some?
    ensures var limit := if room.cfg.flushFailureThreshold > 0 then room.cfg.flushFailureThreshold else 5;
            && 0 < room.flushFailures < limit
            && room.clock <= room.saveTimer.value <= room.undurableSince.value + (limit - 1) * 30_000
  {
    hide LedgerOk, BooksOk, PlacedOk, WatchedOk;
  }

  /** Whoever was ever let in is still a member, was told an end, would not take a frame, or left. */
  lemma NobodyIsForgotten(room: Room, k: ConnId)
    requires (room.Serving() || room.Over()) && k in room.history
    ensures k in room.net.members || k in room.net.ends || k in room.net.shed || k in room.left
  {}

  /** Nobody is closed without the reason: it was sent on the same connection before, or the connection takes nothing any more. */
  lemma ReasonGoesFirst(room: Room, k: ConnId)
    requires (room.Serving() || room.Over()) && k in room.net.ends
    ensures k in room.net.shed || Sent(room.net, k, SessionEndFrame(room.net.ends[k])) > 0
  {}

  /** Every registered writer's valid request that was handled is parked or has had exactly one answer. */
  lemma HandledRequestIsAccounted(room: Room, k: ConnId, q: nat)
    requires room.Serving() && k in room.net.members && k in room.history && Finished(room.history[k], q)
    requires room.history[k].sent[q].DurabilityRequest? && room.history[k].sent[q].id.Some?
    ensures var r := Request(room.history[k].sent[q].id.value, q);
            room.net.members[k].barrier == Some(r) || Answers(room.net, k, r) == 1
  {
    hide PastOk, Converged, Settled, ParkedOk, NetOk;
    assert Accounted(room.net, k, q, room.history[k].sent[q]);
  }
}
