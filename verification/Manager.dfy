/**
 * The registry of rooms under concurrent joins, deletions and shutdown (internal/domain/service/manager.go).
 * Every method is one critical section, or one step outside the lock, of one caller, of one shared
 * materialization or of one room; a sequence of calls is any interleaving of them.
 */
module Manager {
  import opened Basics
  import opened Lifecycle

  type Doc = string
  type RoomId = nat
  type CallerId = nat
  type ExecId = nat

  /** Five minutes, in milliseconds. */
  const DELETE_TOMBSTONE_TTL := 300_000

  /** A shared execution: whose document and whose epoch it runs with, and how far it got. */
  datatype Stage = Looking | Making | Made(room: RoomId) | Finished(result: Option<RoomId>)
  datatype Exec = Exec(doc: Doc, epoch: nat, stage: Stage)

  /** Where a caller of `Join` or `CloseDeleted` is. `retry` marks the second and last attempt to join. */
  datatype Caller =
    | Knocking(doc: Doc)
    | Gated(doc: Doc, epoch: nat)
    | Acquiring(doc: Doc, epoch: nat, retry: bool)
    | Sharing(doc: Doc, epoch: nat, retry: bool, exec: ExecId)
    | Handed(doc: Doc, epoch: nat, retry: bool, room: RoomId)
    | Admitted(doc: Doc, epoch: nat, retry: bool, room: RoomId)
    | Queued(doc: Doc, epoch: nat, retry: bool, room: RoomId)
    | Joined(doc: Doc, room: RoomId)
    | Refused
    | Deleting(doc: Doc, found: Option<RoomId>, expires: nat)
    | Closing(doc: Doc, room: RoomId, expires: nat)
    | Deleted(doc: Doc, expires: nat)

  /** How many steps of its own a caller is from its end at most; the second attempt is the last. */
  ghost function StepsLeft(c: Caller): nat {
    match c
    case Knocking(_) => 12
    case Gated(_, _) => 11
    case Acquiring(_, _, retry) => if retry then 5 else 10
    case Sharing(_, _, retry, _) => if retry then 4 else 9
    case Handed(_, _, retry, _) => if retry then 3 else 8
    case Admitted(_, _, retry, _) => if retry then 2 else 7
    case Queued(_, _, retry, _) => if retry then 1 else 6
    case Deleting(_, _, _) => 2
    case Closing(_, _, _) => 1
    case Joined(_, _) | Refused | Deleted(_, _) => 0
  }

  predicate HasEpoch(c: Caller) {
    c.Gated? || c.Acquiring? || c.Sharing? || c.Handed? || c.Admitted? || c.Queued?
  }

  /** The caller has the room and owes it a command. */
  predicate Owes(c: Caller, execs: map<ExecId, Exec>, r: RoomId) {
    || ((c.Handed? || c.Admitted?) && c.room == r)
    || (c.Sharing? && c.exec in execs && execs[c.exec].stage == Finished(Some(r)))
  }

  /** Everything there is, as a value: the registry's fields, the executions, the rooms, the callers and what is remembered about them. */
  datatype World = World(
    clock: nat,
    rooms: map<Doc, RoomId>,
    tombstones: map<Doc, nat>,
    epoch: nat,
    closed: bool,
    flights: map<Doc, ExecId>,
    execs: map<ExecId, Exec>,
    phases: map<RoomId, Phase>,
    callers: map<CallerId, Caller>,
    docs: map<RoomId, Doc>,
    guarded: map<Doc, nat>,
    drained: set<RoomId>,
    addressed: set<RoomId>,
    maker: map<RoomId, CallerId>)

  /** A deleted document is protected until its tombstone expires. */
  predicate Protected(w: World, doc: Doc) {
    doc in w.guarded && w.clock < w.guarded[doc]
  }

  /** An epoch that is still current was captured when no tombstone stood. */
  predicate EpochOk(w: World, doc: Doc, epoch: nat) {
    epoch <= w.epoch && (epoch == w.epoch ==> !Protected(w, doc))
  }

  ghost predicate Epochs(w: World) {
    && (forall t | t in w.callers && HasEpoch(w.callers[t]) :: EpochOk(w, w.callers[t].doc, w.callers[t].epoch))
    && (forall x | x in w.execs :: EpochOk(w, w.execs[x].doc, w.execs[x].epoch))
  }

  /** A tombstone stands until it expires, and none outlives its time to live. */
  ghost predicate Tombstones(w: World) {
    && (forall d | d in w.tombstones :: d in w.guarded && w.tombstones[d] == w.guarded[d])
    && (forall d | d in w.guarded :: (d in w.tombstones || w.guarded[d] <= w.clock) && w.guarded[d] <= w.clock + DELETE_TOMBSTONE_TTL)
  }

  predicate Registered(w: World, r: RoomId) {
    r in w.phases && r in w.docs && w.docs[r] in w.rooms && w.rooms[w.docs[r]] == r
  }

  predicate Unreleased(p: Phase) {
    p == Active || p == Draining
  }

  /** The room is registered, or it is the one an execution is about to register. */
  predicate Placed(w: World, r: RoomId)
    requires r in w.docs
  {
    var d := w.docs[r];
    || (d in w.rooms && w.rooms[d] == r)
    || (d in w.flights && w.flights[d] in w.execs && w.execs[w.flights[d]].stage == Made(r))
  }

  /** A room is registered from its insertion to its release, and one execution at a time makes rooms for a document. */
  ghost predicate Rooms(w: World) {
    && w.docs.Keys == w.phases.Keys
    && (forall d | d in w.rooms :: w.rooms[d] in w.phases && w.docs[w.rooms[d]] == d && Unreleased(w.phases[w.rooms[d]]))
    && (forall r | r in w.phases && Unreleased(w.phases[r]) :: Placed(w, r))
  }

  predicate MadeOk(w: World, r: RoomId, doc: Doc) {
    r in w.phases && w.phases[r] == Active && r in w.docs && w.docs[r] == doc
  }

  ghost predicate Flights(w: World) {
    && (forall d | d in w.flights :: w.flights[d] in w.execs && w.execs[w.flights[d]].doc == d)
    && (forall x | x in w.execs ::
          && (!w.execs[x].stage.Finished? <==> w.execs[x].doc in w.flights && w.flights[w.execs[x].doc] == x)
          && (w.execs[x].stage.Making? || w.execs[x].stage.Made? ==> w.execs[x].doc !in w.rooms)
          && (w.execs[x].stage.Made? ==> MadeOk(w, w.execs[x].stage.room, w.execs[x].doc)))
  }

  /** What a deletion found is all there can be while its tombstone stands; once it succeeded, nothing of it is active. */
  predicate DeletionOk(w: World, c: Caller) {
    match c
    case Deleting(doc, found, expires) =>
      && doc in w.guarded && expires <= w.guarded[doc]
      && (w.clock < expires && doc in w.rooms ==> found == Some(w.rooms[doc]))
      && (found.Some? ==> found.value in w.phases)
    case Closing(doc, room, expires) =>
      && doc in w.guarded && expires <= w.guarded[doc] && room in w.phases
      && (w.clock < expires && doc in w.rooms ==> room == w.rooms[doc])
    case Deleted(doc, expires) =>
      && doc in w.guarded && expires <= w.guarded[doc]
      && (w.clock < expires && doc in w.rooms && w.rooms[doc] in w.phases ==> w.phases[w.rooms[doc]] != Active)
    case _ => true
  }

  ghost predicate Deletions(w: World) {
    forall t | t in w.callers :: DeletionOk(w, w.callers[t])
  }

  ghost predicate Drains(w: World) {
    w.closed ==> forall d | d in w.rooms :: w.rooms[d] in w.drained
  }

  /** No room is started and then forgotten: it was sent a command, or its maker still owes it one. */
  ghost predicate Owed(w: World) {
    forall d | d in w.rooms && w.rooms[d] !in w.addressed :: OwedBy(w, w.rooms[d])
  }

  predicate OwedBy(w: World, r: RoomId) {
    r in w.maker && w.maker[r] in w.callers && Owes(w.callers[w.maker[r]], w.execs, r)
  }

  predicate ShareOk(w: World, c: Caller) {
    && (c.Sharing? ==> c.exec in w.execs && w.execs[c.exec].doc == c.doc)
    && (c.Handed? || c.Admitted? || c.Queued? ==> c.room in w.phases)
  }

  /** Whoever made a room that is not registered yet is still waiting for it. */
  predicate Led(w: World, x: ExecId)
    requires x in w.execs && w.execs[x].stage.Made?
  {
    var r := w.execs[x].stage.room;
    r in w.maker && w.maker[r] in w.callers && w.callers[w.maker[r]].Sharing? && w.callers[w.maker[r]].exec == x
  }

  ghost predicate Shares(w: World) {
    && (forall t | t in w.callers :: ShareOk(w, w.callers[t]))
    && (forall x | x in w.execs && w.execs[x].stage.Made? :: Led(w, x))
    && (forall x | x in w.execs && w.execs[x].stage.Finished? && w.execs[x].stage.result.Some? ::
          w.execs[x].stage.result.value in w.phases)
  }

  ghost predicate Ok(w: World) {
    && Tombstones(w) && Epochs(w) && Rooms(w) && Flights(w) && Deletions(w) && Drains(w) && Owed(w) && Shares(w)
  }

  // --- What one step keeps -----------------------------------------------------------------------

  /** A caller moves on, its room perhaps sent a command. */
  lemma CallerMoves(w: World, t: CallerId, c: Caller, sent: set<RoomId>)
    requires Ok(w)
    requires HasEpoch(c) ==> EpochOk(w, c.doc, c.epoch)
    requires DeletionOk(w, c) && ShareOk(w, c)
    requires t in w.callers && w.callers[t].Sharing? ==>
               c == w.callers[t] || (w.callers[t].exec in w.execs && w.execs[w.callers[t].exec].stage.Finished?)
    requires forall r | t in w.callers && Owes(w.callers[t], w.execs, r) :: Owes(c, w.execs, r) || r in sent
    ensures Ok(w.(callers := w.callers[t := c], addressed := w.addressed + sent))
  {
    hide Tombstones, Epochs, Rooms, Flights, Deletions, Owed, Shares, DeletionOk, EpochOk, ShareOk;
    var v := w.(callers := w.callers[t := c], addressed := w.addressed + sent);
    TombstonesSame(w, v);
    CallerMovesEpochs(w, v, t, c);
    CallerMovesRooms(w, v);
    CallerMovesOwed(w, v, t, c, sent);
    CallerMovesShares(w, v, t, c);
  }

  lemma CallerMovesEpochs(w: World, v: World, t: CallerId, c: Caller)
    requires Epochs(w) && Deletions(w) && v == w.(callers := w.callers[t := c], addressed := v.addressed)
    requires HasEpoch(c) ==> EpochOk(w, c.doc, c.epoch)
    requires DeletionOk(w, c)
    ensures Epochs(v) && Deletions(v)
  {}

  lemma CallerMovesOwed(w: World, v: World, t: CallerId, c: Caller, sent: set<RoomId>)
    requires Owed(w) && v == w.(callers := w.callers[t := c], addressed := w.addressed + sent)
    requires forall r | t in w.callers && Owes(w.callers[t], w.execs, r) :: Owes(c, w.execs, r) || r in sent
    ensures Owed(v)
  {
    forall d | d in v.rooms && v.rooms[d] !in v.addressed ensures OwedBy(v, v.rooms[d]) {
      assert OwedBy(w, v.rooms[d]);
    }
  }

  lemma CallerMovesShares(w: World, v: World, t: CallerId, c: Caller)
    requires Shares(w) && v == w.(callers := w.callers[t := c], addressed := v.addressed)
    requires ShareOk(w, c)
    requires t in w.callers && w.callers[t].Sharing? ==>
               c == w.callers[t] || (w.callers[t].exec in w.execs && w.execs[w.callers[t].exec].stage.Finished?)
    ensures Shares(v)
  {
    forall x | x in v.execs && v.execs[x].stage.Made? ensures Led(v, x) {
      assert Led(w, x);
    }
  }

  lemma CallerMovesRooms(w: World, v: World)
    requires Rooms(w) && Flights(w)
    requires v == w.(callers := v.callers, addressed := v.addressed)
    ensures Rooms(v) && Flights(v)
  {
    assert forall r | r in w.docs :: Placed(v, r) == Placed(w, r);
  }

  lemma TombstonesSame(w: World, v: World)
    requires Tombstones(w) && v.tombstones == w.tombstones && v.guarded == w.guarded && v.clock == w.clock
    ensures Tombstones(v)
  {}

  /** A tombstone that expired may go. */
  lemma TombstoneGoes(w: World, doc: Doc)
    requires Ok(w) && (doc in w.tombstones ==> w.tombstones[doc] <= w.clock)
    ensures Ok(w.(tombstones := w.tombstones - {doc}))
  {
    hide Rooms, Flights, Owed, Shares;
    var v := w.(tombstones := w.tombstones - {doc});
    SameRegistry(w, v);
  }

  /** Nothing but clocks, tombstones, epochs and the shutdown mark changed. */
  lemma SameRegistry(w: World, v: World)
    requires Rooms(w) && Flights(w) && Owed(w) && Shares(w)
    requires v == w.(clock := v.clock, tombstones := v.tombstones, epoch := v.epoch, guarded := v.guarded,
                    closed := v.closed, drained := v.drained)
    ensures Rooms(v) && Flights(v) && Owed(v) && Shares(v)
  {
    assert forall r | r in w.docs :: Placed(v, r) == Placed(w, r);
    forall d | d in v.rooms && v.rooms[d] !in v.addressed ensures OwedBy(v, v.rooms[d]) {
      assert OwedBy(w, v.rooms[d]);
    }
    forall x | x in v.execs && v.execs[x].stage.Made? ensures Led(v, x) {
      assert Led(w, x);
    }
  }

  lemma TimePasses(w: World, now: nat)
    requires Ok(w) && w.clock <= now
    ensures Ok(w.(clock := now))
  {
    hide Rooms, Flights, Owed, Shares;
    SameRegistry(w, w.(clock := now));
  }

  lemma Shut(w: World)
    requires Ok(w)
    ensures Ok(w.(closed := true, drained := w.rooms.Values))
  {
    hide Rooms, Flights, Owed, Shares, Tombstones;
    var v := w.(closed := true, drained := w.rooms.Values);
    SameRegistry(w, v);
    TombstonesSame(w, v);
  }

  /** A deletion makes every epoch captured so far stale, and finds the one room there can be until its tombstone expires. */
  lemma DeletionStarts(w: World, t: CallerId, doc: Doc)
    requires Ok(w) && t !in w.callers
    ensures var expires := w.clock + DELETE_TOMBSTONE_TTL;
            var found := if doc in w.rooms then Some(w.rooms[doc]) else None;
            Ok(w.(epoch := w.epoch + 1, tombstones := w.tombstones[doc := expires], guarded := w.guarded[doc := expires],
                  callers := w.callers[t := Deleting(doc, found, expires)]))
  {
    var expires := w.clock + DELETE_TOMBSTONE_TTL;
    var v := w.(epoch := w.epoch + 1, tombstones := w.tombstones[doc := expires], guarded := w.guarded[doc := expires]);
    assert Ok(v) by {
      hide Rooms, Flights, Owed, Shares;
      SameRegistry(w, v);
    }
    var found := if doc in w.rooms then Some(w.rooms[doc]) else None;
    hide Rooms, Flights, Owed, Shares, Epochs, Tombstones, Deletions;
    FoundIsKnown(w, doc);
    CallerMoves(v, t, Deleting(doc, found, expires), {});
    assert v.addressed + {} == v.addressed;
  }

  lemma FoundIsKnown(w: World, doc: Doc)
    requires Rooms(w)
    ensures doc in w.rooms ==> w.rooms[doc] in w.phases && w.rooms[doc] in w.docs && w.docs[w.rooms[doc]] == doc
  {}

  // --- Executions and rooms ------------------------------------------------------------------------

  lemma EpochsKept(w: World, v: World)
    requires Epochs(w) && v.clock == w.clock && v.guarded == w.guarded && v.epoch == w.epoch && v.callers == w.callers
    requires forall x | x in v.execs ::
               || (x in w.execs && v.execs[x].doc == w.execs[x].doc && v.execs[x].epoch == w.execs[x].epoch)
               || EpochOk(w, v.execs[x].doc, v.execs[x].epoch)
    ensures Epochs(v)
  {}

  /** Rooms may go or end: a deletion has less to worry about. */
  lemma DeletionsKept(w: World, v: World)
    requires Deletions(w) && Rooms(w) && v.clock == w.clock && v.guarded == w.guarded && v.callers == w.callers
    requires forall d | d in v.rooms :: d in w.rooms && v.rooms[d] == w.rooms[d]
    requires forall r | r in w.phases :: r in v.phases && (v.phases[r] == Active ==> w.phases[r] == Active)
    ensures Deletions(v)
  {
    forall t | t in v.callers ensures DeletionOk(v, v.callers[t]) {
      assert DeletionOk(w, w.callers[t]);
    }
  }

  /** A room may come for a document whose every tombstone expired. */
  lemma DeletionsAllow(w: World, v: World, doc: Doc)
    requires Deletions(w) && v.clock == w.clock && v.guarded == w.guarded && v.callers == w.callers && v.phases == w.phases
    requires !Protected(w, doc) && v.rooms - {doc} == w.rooms - {doc}
    ensures Deletions(v)
  {
    forall t | t in v.callers ensures DeletionOk(v, v.callers[t]) {
      var c := w.callers[t];
      assert DeletionOk(w, c);
      if (c.Deleting? || c.Closing? || c.Deleted?) && c.doc != doc {
        assert c.doc in v.rooms <==> c.doc in v.rooms - {doc};
        assert c.doc in w.rooms <==> c.doc in w.rooms - {doc};
        assert c.doc in v.rooms ==> v.rooms[c.doc] == (v.rooms - {doc})[c.doc] == w.rooms[c.doc];
      }
    }
  }

  lemma OwedKept(w: World, v: World)
    requires Owed(w) && v.addressed == w.addressed && v.callers == w.callers
    requires forall d | d in v.rooms :: d in w.rooms && v.rooms[d] == w.rooms[d]
    requires forall r | r in w.maker && r in v.rooms.Values :: r in v.maker && v.maker[r] == w.maker[r]
    requires forall x | x in w.execs && w.execs[x].stage.Finished? :: x in v.execs && v.execs[x] == w.execs[x]
    ensures Owed(v)
  {
    forall d | d in v.rooms && v.rooms[d] !in v.addressed ensures OwedBy(v, v.rooms[d]) {
      assert OwedBy(w, v.rooms[d]);
    }
  }

  /** One execution moved on; everybody still shares what they shared. */
  lemma SharesKept(w: World, v: World, x: ExecId)
    requires Shares(w) && v.callers == w.callers && w.phases.Keys <= v.phases.Keys
    requires forall y | y in w.execs :: y in v.execs && v.execs[y].doc == w.execs[y].doc
    requires forall y | y in v.execs && y != x :: y in w.execs && v.execs[y] == w.execs[y]
    requires forall y | y in w.execs && y != x && w.execs[y].stage.Made? && w.execs[y].stage.room in w.maker ::
               w.execs[y].stage.room in v.maker && v.maker[w.execs[y].stage.room] == w.maker[w.execs[y].stage.room]
    requires x in v.execs ==> (v.execs[x].stage.Made? ==> Led(v, x))
    requires x in v.execs && v.execs[x].stage.Finished? && v.execs[x].stage.result.Some? ==> v.execs[x].stage.result.value in v.phases
    ensures Shares(v)
  {
    forall y | y in v.execs && v.execs[y].stage.Made? ensures Led(v, y) {
      if y != x {
        assert Led(w, y);
      }
    }
  }

  function Staged(w: World, x: ExecId, stage: Stage): World
    requires x in w.execs
  {
    w.(execs := w.execs[x := w.execs[x].(stage := stage)],
       flights := if stage.Finished? then w.flights - {w.execs[x].doc} else w.flights)
  }

  lemma PlacesStart(w: World, v: World, x: ExecId, doc: Doc, epoch: nat)
    requires Rooms(w) && Flights(w) && x !in w.execs && doc !in w.flights
    requires v == w.(flights := w.flights[doc := x], execs := w.execs[x := Exec(doc, epoch, Looking)])
    ensures Rooms(v) && Flights(v)
  {
    forall r | r in v.phases && Unreleased(v.phases[r]) ensures Placed(v, r) {
      assert Placed(w, r);
    }
  }

  /** A caller leads an execution of its own, there being none for its document. */
  lemma FlightStarts(w: World, x: ExecId, doc: Doc, epoch: nat)
    requires Ok(w) && x !in w.execs && doc !in w.flights && EpochOk(w, doc, epoch)
    ensures Ok(w.(flights := w.flights[doc := x], execs := w.execs[x := Exec(doc, epoch, Looking)]))
  {
    hide Tombstones, Epochs, Rooms, Flights, Deletions, Owed, Shares, EpochOk;
    var v := w.(flights := w.flights[doc := x], execs := w.execs[x := Exec(doc, epoch, Looking)]);
    TombstonesSame(w, v);
    EpochsKept(w, v);
    PlacesStart(w, v, x, doc, epoch);
    DeletionsKept(w, v);
    OwedKept(w, v);
    SharesKept(w, v, x);
  }

  /** An execution without a room moves on: to making one when there is none, or to its end. */
  lemma PlacesStage(w: World, x: ExecId, stage: Stage)
    requires Rooms(w) && Flights(w) && x in w.execs && (w.execs[x].stage.Looking? || w.execs[x].stage.Making?)
    requires stage.Finished? || (stage.Making? && w.execs[x].doc !in w.rooms)
    ensures Rooms(Staged(w, x, stage)) && Flights(Staged(w, x, stage))
  {
    var v := Staged(w, x, stage);
    forall r | r in v.phases && Unreleased(v.phases[r]) ensures Placed(v, r) {
      assert Placed(w, r);
    }
  }

  lemma ExecMoves(w: World, x: ExecId, stage: Stage)
    requires Ok(w) && x in w.execs && (w.execs[x].stage.Looking? || w.execs[x].stage.Making?)
    requires stage.Finished? || (stage.Making? && w.execs[x].doc !in w.rooms)
    requires stage.Finished? && stage.result.Some? ==> stage.result.value in w.phases
    ensures Ok(Staged(w, x, stage))
  {
    hide Tombstones, Epochs, Rooms, Flights, Deletions, Owed, Shares;
    var v := Staged(w, x, stage);
    TombstonesSame(w, v);
    EpochsKept(w, v);
    PlacesStage(w, x, stage);
    DeletionsKept(w, v);
    OwedKept(w, v);
    SharesKept(w, v, x);
  }

  function WithRoom(w: World, x: ExecId, t: CallerId, r: RoomId): World
    requires x in w.execs
  {
    Staged(w, x, Made(r)).(phases := w.phases[r := Active], docs := w.docs[r := w.execs[x].doc], maker := w.maker[r := t])
  }

  lemma PlacesMade(w: World, x: ExecId, t: CallerId, r: RoomId)
    requires Rooms(w) && Flights(w) && x in w.execs && w.execs[x].stage.Making? && r !in w.phases
    ensures Rooms(WithRoom(w, x, t, r)) && Flights(WithRoom(w, x, t, r))
    ensures r !in w.rooms.Values
    ensures forall y | y in w.execs && w.execs[y].stage.Made? :: w.execs[y].stage.room != r
  {
    var v := WithRoom(w, x, t, r);
    forall s | s in v.phases && Unreleased(v.phases[s]) ensures Placed(v, s) {
      if s != r {
        assert Placed(w, s);
      }
    }
  }

  /** The leader of an execution has a room ready. */
  lemma RoomMade(w: World, x: ExecId, t: CallerId, r: RoomId)
    requires Ok(w) && x in w.execs && w.execs[x].stage.Making? && r !in w.phases
    requires t in w.callers && w.callers[t].Sharing? && w.callers[t].exec == x
    ensures Ok(WithRoom(w, x, t, r))
  {
    hide Tombstones, Epochs, Rooms, Flights, Deletions, Owed, Shares;
    var v := WithRoom(w, x, t, r);
    TombstonesSame(w, v);
    EpochsKept(w, v);
    PlacesMade(w, x, t, r);
    DeletionsKept(w, v);
    OwedKept(w, v);
    SharesKept(w, v, x);
  }

  function Discarded(w: World, x: ExecId): World
    requires x in w.execs && w.execs[x].stage.Made?
  {
    Staged(w, x, Finished(None)).(phases := w.phases[w.execs[x].stage.room := Closed])
  }

  lemma PlacesDiscarded(w: World, x: ExecId)
    requires Rooms(w) && Flights(w) && x in w.execs && w.execs[x].stage.Made?
    ensures Rooms(Discarded(w, x)) && Flights(Discarded(w, x))
  {
    var v := Discarded(w, x);
    forall s | s in v.phases && Unreleased(v.phases[s]) ensures Placed(v, s) {
      assert Placed(w, s);
    }
  }

  /** A room made under a stale epoch or during a shutdown is torn down and never registered. */
  lemma RoomDiscarded(w: World, x: ExecId)
    requires Ok(w) && x in w.execs && w.execs[x].stage.Made?
    ensures Ok(Discarded(w, x))
  {
    hide Tombstones, Epochs, Rooms, Flights, Deletions, Owed, Shares;
    var v := Discarded(w, x);
    TombstonesSame(w, v);
    EpochsKept(w, v);
    PlacesDiscarded(w, x);
    DeletionsKept(w, v);
    OwedKept(w, v);
    SharesKept(w, v, x);
  }

  function Inserted(w: World, x: ExecId): World
    requires x in w.execs && w.execs[x].stage.Made?
  {
    var r := w.execs[x].stage.room;
    Staged(w, x, Finished(Some(r))).(rooms := w.rooms[w.execs[x].doc := r])
  }

  lemma PlacesInserted(w: World, x: ExecId)
    requires Rooms(w) && Flights(w) && x in w.execs && w.execs[x].stage.Made?
    ensures w.execs[x].doc !in w.rooms
    ensures Rooms(Inserted(w, x)) && Flights(Inserted(w, x))
  {
    var v := Inserted(w, x);
    forall s | s in v.phases && Unreleased(v.phases[s]) ensures Placed(v, s) {
      assert Placed(w, s);
    }
  }

  lemma OwedInserted(w: World, x: ExecId)
    requires Owed(w) && Shares(w) && x in w.execs && w.execs[x].stage.Made?
    ensures Owed(Inserted(w, x))
  {
    var v := Inserted(w, x);
    assert Led(w, x);
    forall d | d in v.rooms && v.rooms[d] !in v.addressed ensures OwedBy(v, v.rooms[d]) {
      if d != w.execs[x].doc {
        assert OwedBy(w, v.rooms[d]);
      }
    }
  }

  lemma MadeIsCurrent(w: World, x: ExecId)
    requires Epochs(w) && x in w.execs && w.execs[x].epoch == w.epoch
    ensures !Protected(w, w.execs[x].doc)
  {
    assert EpochOk(w, w.execs[x].doc, w.execs[x].epoch);
  }

  /** The one way a room is registered: never for a protected document, never after the shutdown began. */
  lemma RoomInserted(w: World, x: ExecId)
    requires Ok(w) && x in w.execs && w.execs[x].stage.Made? && w.execs[x].epoch == w.epoch && !w.closed
    ensures w.execs[x].doc !in w.rooms && !Protected(w, w.execs[x].doc)
    ensures Ok(Inserted(w, x))
  {
    hide Tombstones, Epochs, Rooms, Flights, Deletions, Owed, Shares;
    var v := Inserted(w, x);
    MadeIsCurrent(w, x);
    TombstonesSame(w, v);
    EpochsKept(w, v);
    PlacesInserted(w, x);
    DeletionsAllow(w, v, w.execs[x].doc);
    OwedInserted(w, x);
    SharesKept(w, v, x);
  }

  lemma PlacesTorn(w: World, v: World, r: RoomId)
    requires Rooms(w) && Flights(w) && Registered(w, r) && v == w.(phases := w.phases[r := Draining])
    ensures Rooms(v) && Flights(v)
  {
    forall s | s in v.phases && Unreleased(v.phases[s]) ensures Placed(v, s) {
      assert Placed(w, s);
    }
  }

  lemma TeardownBegins(w: World, r: RoomId)
    requires Ok(w) && Registered(w, r) && w.phases[r] == Active
    ensures Ok(w.(phases := w.phases[r := Draining]))
  {
    hide Tombstones, Epochs, Rooms, Flights, Deletions, Owed, Shares;
    var v := w.(phases := w.phases[r := Draining]);
    TombstonesSame(w, v);
    EpochsKept(w, v);
    PlacesTorn(w, v, r);
    DeletionsKept(w, v);
    OwedKept(w, v);
    KeptShares(w, v);
  }

  function Released(w: World, r: RoomId): World
    requires r in w.docs
  {
    var d := w.docs[r];
    w.(phases := w.phases[r := Closed], rooms := if d in w.rooms && w.rooms[d] == r then w.rooms - {d} else w.rooms)
  }

  lemma PlacesReleased(w: World, r: RoomId)
    requires Rooms(w) && Flights(w) && r in w.phases && r in w.docs && w.phases[r] == Draining
    ensures Rooms(Released(w, r)) && Flights(Released(w, r))
  {
    var v := Released(w, r);
    forall s | s in v.phases && Unreleased(v.phases[s]) ensures Placed(v, s) {
      assert Placed(w, s);
    }
  }

  lemma KeptShares(w: World, v: World)
    requires Shares(w) && v.callers == w.callers && v.execs == w.execs && v.maker == w.maker && w.phases.Keys <= v.phases.Keys
    ensures Shares(v)
  {
    forall y | y in v.execs && v.execs[y].stage.Made? ensures Led(v, y) {
      assert Led(w, y);
    }
  }

  lemma RoomReleased(w: World, r: RoomId)
    requires Ok(w) && r in w.phases && r in w.docs && w.phases[r] == Draining
    ensures Ok(Released(w, r))
  {
    hide Tombstones, Epochs, Rooms, Flights, Deletions, Owed, Shares;
    var v := Released(w, r);
    TombstonesSame(w, v);
    EpochsKept(w, v);
    PlacesReleased(w, r);
    DeletionsKept(w, v);
    OwedKept(w, v);
    KeptShares(w, v);
  }

  lemma Moved(w: World, t: CallerId, c: Caller)
    requires Ok(w)
    requires HasEpoch(c) ==> EpochOk(w, c.doc, c.epoch)
    requires DeletionOk(w, c) && ShareOk(w, c)
    requires t in w.callers && w.callers[t].Sharing? ==>
               c == w.callers[t] || (w.callers[t].exec in w.execs && w.execs[w.callers[t].exec].stage.Finished?)
    requires forall r | t in w.callers && Owes(w.callers[t], w.execs, r) :: Owes(c, w.execs, r)
    ensures Ok(w.(callers := w.callers[t := c]))
  {
    hide Ok;
    CallerMoves(w, t, c, {});
    assert w.addressed + {} == w.addressed;
  }

  lemma TombstoneMeansProtected(w: World, doc: Doc)
    requires Ok(w)
    ensures Protected(w, doc) <==> doc in w.tombstones && w.clock < w.tombstones[doc]
  {}

  /** Whoever passes the gate holds the current epoch of a document that is not protected. */
  lemma GateKeeps(w: World, t: CallerId)
    requires Ok(w) && t in w.callers && w.callers[t].Knocking?
    ensures var doc := w.callers[t].doc;
            && (Protected(w, doc) <==> doc in w.tombstones && w.clock < w.tombstones[doc])
            && Ok(w.(callers := w.callers[t := Refused]))
            && (!Protected(w, doc) ==>
                  && Ok(w.(callers := w.callers[t := Gated(doc, w.epoch)]))
                  && Ok(w.(callers := w.callers[t := Gated(doc, w.epoch)], tombstones := w.tombstones - {doc})))
  {
    hide Ok;
    var doc := w.callers[t].doc;
    TombstoneMeansProtected(w, doc);
    Moved(w, t, Refused);
    if !Protected(w, doc) {
      Moved(w, t, Gated(doc, w.epoch));
      TombstoneGoes(w.(callers := w.callers[t := Gated(doc, w.epoch)]), doc);
    }
  }

  lemma EpochStands(w: World, t: CallerId)
    requires Ok(w) && t in w.callers && HasEpoch(w.callers[t])
    ensures EpochOk(w, w.callers[t].doc, w.callers[t].epoch) && ShareOk(w, w.callers[t])
  {}

  lemma FlightKnown(w: World, doc: Doc)
    requires Ok(w)
    ensures doc in w.flights ==> w.flights[doc] in w.execs && w.execs[w.flights[doc]].doc == doc
  {}

  lemma RegisteredKnown(w: World, doc: Doc)
    requires Ok(w)
    ensures doc in w.rooms ==> w.rooms[doc] in w.phases
  {}

  lemma ResultKnown(w: World, x: ExecId)
    requires Ok(w) && x in w.execs && w.execs[x].stage.Finished? && w.execs[x].stage.result.Some?
    ensures w.execs[x].stage.result.value in w.phases
  {}

  lemma DeletionStands(w: World, t: CallerId)
    requires Ok(w) && t in w.callers
    ensures DeletionOk(w, w.callers[t])
  {}

  /** What may happen to the registry between two moments of any run. */
  ghost predicate Advances(v: World, w: World) {
    && v.clock <= w.clock && v.epoch <= w.epoch
    && (forall d | d in v.guarded :: d in w.guarded && v.guarded[d] <= w.guarded[d])
    && (forall d | d in v.guarded && w.clock < v.guarded[d] && d in w.rooms :: d in v.rooms && w.rooms[d] == v.rooms[d])
    && (v.closed ==> w.closed && forall d | d in w.rooms :: d in v.rooms && w.rooms[d] == v.rooms[d])
  }

  /** Whatever is registered now was so before, or is new for an unprotected document of an open registry. */
  ghost predicate RegisteredSince(v: World, rooms: map<Doc, RoomId>) {
    forall d | d in rooms :: (d in v.rooms && rooms[d] == v.rooms[d]) || (!v.closed && !Protected(v, d))
  }

  lemma AdvancesRefl(w: World)
    ensures Advances(w, w)
  {}

  lemma AdvancesTrans(u: World, v: World, w: World)
    requires Advances(u, v) && Advances(v, w)
    ensures Advances(u, w)
  {}

  lemma GuardsBounded(w: World)
    requires Ok(w)
    ensures forall d | d in w.guarded :: w.guarded[d] <= w.clock + DELETE_TOMBSTONE_TTL
  {}

  lemma StepAdvances(v: World, w: World)
    requires v.clock <= w.clock && v.epoch <= w.epoch && (v.closed ==> w.closed)
    requires forall d | d in v.guarded :: d in w.guarded && v.guarded[d] <= w.guarded[d]
    requires RegisteredSince(v, w.rooms)
    ensures Advances(v, w)
  {}

  /** One step of the world; `name` is a name nobody has yet. */
  datatype Action =
    | Joining(t: CallerId, doc: Doc)
    | Deletes(t: CallerId, doc: Doc)
    | Proceeding(t: CallerId, ok: bool, name: nat)
    | Executing(x: ExecId, t: CallerId, ok: bool, name: RoomId)
    | Winding(doc: Doc)
    | Expiring(doc: Doc, expires: nat)
    | Passing(now: nat)
    | Shutting

  /** One more attempt, if there is one. */
  function Again(c: Caller): Caller
    requires c.Admitted? || c.Queued?
  {
    if c.retry then Refused else Acquiring(c.doc, c.epoch, true)
  }

  class Registry {
    var clock: nat
    var rooms: map<Doc, RoomId>
    var tombstones: map<Doc, nat>
    var epoch: nat
    var closed: bool

    var flights: map<Doc, ExecId>
    var execs: map<ExecId, Exec>
    var phases: map<RoomId, Phase>
    var docs: map<RoomId, Doc>
    var callers: map<CallerId, Caller>

    // The last expiry of every document's tombstone, kept when
    // the tombstone is gone; what the shutdown set out to drain; which rooms were sent a command (or
    // had a full queue of them); and who made each room.
    ghost var guarded: map<Doc, nat>
    ghost var drained: set<RoomId>
    ghost var addressed: set<RoomId>
    ghost var maker: map<RoomId, CallerId>

    ghost function W(): World
      reads this
    {
      World(clock, rooms, tombstones, epoch, closed, flights, execs, phases, callers, docs, guarded, drained, addressed, maker)
    }

    ghost predicate Valid()
      reads this
    {
      Ok(W())
    }

    constructor ()
      ensures Valid() && rooms == map[] && callers == map[] && !closed
    {
      clock, rooms, tombstones, epoch, closed := 0, map[], map[], 0, false;
      flights, execs, phases, callers := map[], map[], map[], map[];
      docs, guarded, drained, addressed, maker := map[], map[], {}, {}, map[];
    }

    // --- Joining ---------------------------------------------------------------------------------

    method Knock(t: CallerId, doc: Doc)
      requires Valid() && t !in callers
      modifies `callers
      ensures Valid() && callers == old(callers)[t := Knocking(doc)]
    {
      hide Ok;
      ghost var w := W();
      callers := callers[t := Knocking(doc)];
      Moved(w, t, Knocking(doc));
    }

    /** The tombstone is checked and the epoch captured in one critical section. */
    method Gate(t: CallerId)
      requires Valid() && t in callers && callers[t].Knocking?
      modifies `callers, `tombstones
      ensures Valid()
      ensures var doc := old(callers)[t].doc;
              callers == old(callers)[t := if Protected(old(W()), doc) then Refused else Gated(doc, epoch)]
    {
      hide Ok;
      var doc := callers[t].doc;
      GateKeeps(W(), t);
      if doc in tombstones {
        if clock < tombstones[doc] {
          callers := callers[t := Refused];
          return;
        }
        tombstones := tombstones - {doc};
      }
      callers := callers[t := Gated(doc, epoch)];
    }

    /** `requireDocument`: the index knows the document and it is migrated, or the join is refused. */
    method ReadIndex(t: CallerId, present: bool)
      requires Valid() && t in callers && callers[t].Gated?
      modifies `callers
      ensures Valid()
      ensures callers == old(callers)[t := if present then Acquiring(old(callers)[t].doc, old(callers)[t].epoch, false) else Refused]
    {
      hide Ok;
      var c := if present then Acquiring(callers[t].doc, callers[t].epoch, false) else Refused;
      EpochStands(W(), t);
      Moved(W(), t, c);
      callers := callers[t := c];
    }

    /** `singleflight.Do`: the first caller leads an execution, the others share it. */
    method Acquire(t: CallerId, name: ExecId)
      requires Valid() && t in callers && callers[t].Acquiring? && name !in execs
      modifies `callers, `flights, `execs
      ensures Valid()
      ensures var c := old(callers)[t];
              if c.doc in old(flights)
              then callers == old(callers)[t := Sharing(c.doc, c.epoch, c.retry, old(flights)[c.doc])] && execs == old(execs)
              else callers == old(callers)[t := Sharing(c.doc, c.epoch, c.retry, name)]
                   && execs == old(execs)[name := Exec(c.doc, c.epoch, Looking)]
    {
      hide Ok;
      var c := callers[t];
      EpochStands(W(), t);
      FlightKnown(W(), c.doc);
      if c.doc in flights {
        Moved(W(), t, Sharing(c.doc, c.epoch, c.retry, flights[c.doc]));
        callers := callers[t := Sharing(c.doc, c.epoch, c.retry, flights[c.doc])];
      } else {
        FlightStarts(W(), name, c.doc, c.epoch);
        flights := flights[c.doc := name];
        execs := execs[name := Exec(c.doc, c.epoch, Looking)];
        Moved(W(), t, Sharing(c.doc, c.epoch, c.retry, name));
        callers := callers[t := Sharing(c.doc, c.epoch, c.retry, name)];
      }
    }

    /** The execution ends; its result is there for everyone who shares it. */
    method Finish(x: ExecId, result: Option<RoomId>)
      requires x in execs
      modifies `execs, `flights
      ensures execs == old(execs)[x := old(execs)[x].(stage := Finished(result))]
      ensures flights == old(flights) - {old(execs)[x].doc}
    {
      flights := flights - {execs[x].doc};
      execs := execs[x := execs[x].(stage := Finished(result))];
    }

    /** The first critical section of the execution: a registered room is the result, a shutdown the error. */
    method Look(x: ExecId)
      requires Valid() && x in execs && execs[x].stage.Looking?
      modifies `execs, `flights
      ensures Valid()
      ensures execs == old(execs)[x := old(execs)[x].(stage :=
                if old(execs)[x].doc in rooms then Finished(Some(rooms[old(execs)[x].doc]))
                else if closed then Finished(None) else Making)]
    {
      hide Ok;
      var doc := execs[x].doc;
      RegisteredKnown(W(), doc);
      if doc in rooms {
        ExecMoves(W(), x, Finished(Some(rooms[doc])));
        Finish(x, Some(rooms[doc]));
      } else if closed {
        ExecMoves(W(), x, Finished(None));
        Finish(x, None);
      } else {
        ExecMoves(W(), x, Making);
        execs := execs[x := execs[x].(stage := Making)];
      }
    }

    /** `newRoom`, off the lock: a room ready to serve, or an error. `t` is the leader. */
    method Make(x: ExecId, t: CallerId, ok: bool, name: RoomId)
      requires Valid() && x in execs && execs[x].stage.Making? && name !in phases
      requires t in callers && callers[t].Sharing? && callers[t].exec == x
      modifies `execs, `flights, `phases, `docs, `maker
      ensures Valid()
      ensures phases == if ok then old(phases)[name := Active] else old(phases)
      ensures execs == old(execs)[x := old(execs)[x].(stage := if ok then Made(name) else Finished(None))]
    {
      hide Ok;
      if ok {
        RoomMade(W(), x, t, name);
        phases := phases[name := Active];
        docs := docs[name := execs[x].doc];
        maker := maker[name := t];
        execs := execs[x := execs[x].(stage := Made(name))];
      } else {
        ExecMoves(W(), x, Finished(None));
        Finish(x, None);
      }
    }

    /**
     * The second critical section: a room is registered only if nothing was deleted since the leader's
     * gate and no shutdown began; otherwise it is torn down on the spot.
     */
    method Insert(x: ExecId)
      requires Valid() && x in execs && execs[x].stage.Made?
      modifies `execs, `flights, `rooms, `phases
      ensures Valid()
      ensures var doc, r := old(execs)[x].doc, old(execs)[x].stage.room;
              if old(execs)[x].epoch == epoch && !closed
              then rooms == old(rooms)[doc := r] && doc !in old(rooms) && !Protected(W(), doc) && phases == old(phases)
                   && execs[x].stage == Finished(Some(r))
              else rooms == old(rooms) && phases == old(phases)[r := Closed] && execs[x].stage == Finished(None)
    {
      hide Ok;
      var doc, r := execs[x].doc, execs[x].stage.room;
      if execs[x].epoch != epoch || closed {
        RoomDiscarded(W(), x);
        phases := phases[r := Closed];
        Finish(x, None);
        return;
      }
      RoomInserted(W(), x);
      rooms := rooms[doc := r];
      Finish(x, Some(r));
    }

    /** `sf.Do` returned to one of its callers. */
    method Collect(t: CallerId)
      requires Valid() && t in callers && callers[t].Sharing?
      requires callers[t].exec in execs && execs[callers[t].exec].stage.Finished?
      modifies `callers
      ensures Valid()
      ensures var c := old(callers)[t];
              callers == old(callers)[t := match old(execs)[c.exec].stage.result
                                           case None => Refused
                                           case Some(r) => Handed(c.doc, c.epoch, c.retry, r)]
    {
      hide Ok;
      var c := callers[t];
      EpochStands(W(), t);
      match execs[c.exec].stage.result {
        case None =>
          Moved(W(), t, Refused);
          callers := callers[t := Refused];
        case Some(r) =>
          ResultKnown(W(), c.exec);
          Moved(W(), t, Handed(c.doc, c.epoch, c.retry, r));
          callers := callers[t := Handed(c.doc, c.epoch, c.retry, r)];
      }
    }

    /** The epoch check every caller makes for itself; whoever fails it leaves the room a command to look after itself. */
    method CheckEpoch(t: CallerId)
      requires Valid() && t in callers && callers[t].Handed?
      modifies `callers, `addressed
      ensures Valid()
      ensures var c := old(callers)[t];
              if c.epoch == epoch then callers == old(callers)[t := Admitted(c.doc, c.epoch, c.retry, c.room)] && !Protected(W(), c.doc)
              else callers == old(callers)[t := Refused] && addressed == old(addressed) + {c.room}
    {
      hide Ok;
      var c := callers[t];
      EpochStands(W(), t);
      if c.epoch != epoch {
        CallerMoves(W(), t, Refused, {c.room});
        addressed := addressed + {c.room};
        callers := callers[t := Refused];
      } else {
        Moved(W(), t, Admitted(c.doc, c.epoch, c.retry, c.room));
        callers := callers[t := Admitted(c.doc, c.epoch, c.retry, c.room)];
      }
    }

    /** The join command: taken only by an active room, and tried twice. */
    method Enqueue(t: CallerId, room: bool)
      requires Valid() && t in callers && callers[t].Admitted?
      modifies `callers, `addressed
      ensures Valid() && addressed == old(addressed) + {old(callers)[t].room}
      ensures var c := old(callers)[t];
              callers == old(callers)[t := if room && phases[c.room] == Active then Queued(c.doc, c.epoch, c.retry, c.room)
                                           else if c.retry then Refused else Acquiring(c.doc, c.epoch, true)]
    {
      hide Ok;
      var c := callers[t];
      EpochStands(W(), t);
      var next := if room && phases[c.room] == Active then Queued(c.doc, c.epoch, c.retry, c.room) else Again(c);
      CallerMoves(W(), t, next, {c.room});
      addressed := addressed + {c.room};
      callers := callers[t := next];
    }

    /** The room answered the join, or went down with it still queued. */
    method AwaitJoin(t: CallerId, admitted: bool)
      requires Valid() && t in callers && callers[t].Queued?
      requires callers[t].room in phases && (phases[callers[t].room] == Active || !admitted)
      modifies `callers
      ensures Valid()
      ensures var c := old(callers)[t];
              callers == old(callers)[t := if phases[c.room] != Active then (if c.retry then Refused else Acquiring(c.doc, c.epoch, true))
                                           else if admitted then Joined(c.doc, c.room) else Refused]
    {
      hide Ok;
      var c := callers[t];
      EpochStands(W(), t);
      var next := if phases[c.room] != Active then Again(c) else if admitted then Joined(c.doc, c.room) else Refused;
      Moved(W(), t, next);
      callers := callers[t := next];
    }

    // --- Rooms -------------------------------------------------------------------------------------

    /** A room begins its teardown, for any reason of its own. */
    method BeginTeardown(r: RoomId)
      requires Valid() && Registered(W(), r) && phases[r] == Active
      modifies `phases
      ensures Valid() && phases == old(phases)[r := Draining]
    {
      hide Ok;
      TeardownBegins(W(), r);
      phases := phases[r := Draining];
    }

    /** `remove`, from the end of the room's teardown. */
    method Release(doc: Doc, r: RoomId)
      requires Valid() && r in phases && phases[r] == Draining && r in docs && docs[r] == doc
      modifies `phases, `rooms
      ensures Valid() && phases == old(phases)[r := Closed]
      ensures rooms == if doc in old(rooms) && old(rooms)[doc] == r then old(rooms) - {doc} else old(rooms)
    {
      hide Ok;
      RoomReleased(W(), r);
      phases := phases[r := Closed];
      if doc in rooms && rooms[doc] == r {
        rooms := rooms - {doc};
      }
    }

    // --- Deletion and shutdown ---------------------------------------------------------------------

    /** The critical section of `CloseDeleted`: admissions in flight are invalidated, new ones refused, the live room found. */
    method Delete(t: CallerId, doc: Doc)
      requires Valid() && t !in callers
      modifies `callers, `epoch, `tombstones, `guarded
      ensures Valid() && Protected(W(), doc) && epoch == old(epoch) + 1
      ensures guarded == old(guarded)[doc := clock + 300_000]
      ensures callers == old(callers)[t := Deleting(doc, if doc in rooms then Some(rooms[doc]) else None, clock + 300_000)]
    {
      hide Ok;
      var expires := clock + DELETE_TOMBSTONE_TTL;
      DeletionStarts(W(), t, doc);
      epoch := epoch + 1;
      tombstones := tombstones[doc := expires];
      guarded := guarded[doc := expires];
      callers := callers[t := Deleting(doc, if doc in rooms then Some(rooms[doc]) else None, expires)];
    }

    /** The close command: refused by a room that is no longer active, which is as good as done, or by a stuck one, which is not. */
    method DeleteEnqueue(t: CallerId, room: bool)
      requires Valid() && t in callers && callers[t].Deleting?
      modifies `callers
      ensures Valid()
      ensures var c := old(callers)[t];
              callers == old(callers)[t :=
                if c.found.None? then Deleted(c.doc, c.expires)
                else if phases[c.found.value] != Active then Deleted(c.doc, c.expires)
                else if room then Closing(c.doc, c.found.value, c.expires)
                else Refused]
    {
      hide Ok;
      var c := callers[t];
      DeletionStands(W(), t);
      ghost var next := if c.found.None? || phases[c.found.value] != Active then Deleted(c.doc, c.expires)
                        else if room then Closing(c.doc, c.found.value, c.expires) else Refused;
      Moved(W(), t, next);
      if c.found.None? || phases[c.found.value] != Active {
        callers := callers[t := Deleted(c.doc, c.expires)];
      } else if room {
        callers := callers[t := Closing(c.doc, c.found.value, c.expires)];
      } else {
        callers := callers[t := Refused];
      }
    }

    /** The wait for the room: it is told done, or finds the room gone, or gives up. */
    method DeleteAwait(t: CallerId, patient: bool)
      requires Valid() && t in callers && callers[t].Closing?
      modifies `callers
      ensures Valid()
      ensures var c := old(callers)[t];
              callers == if phases[c.room] != Active && patient then old(callers)[t := Deleted(c.doc, c.expires)]
                         else if !patient then old(callers)[t := Refused] else old(callers)
    {
      hide Ok;
      var c := callers[t];
      DeletionStands(W(), t);
      Moved(W(), t, if !patient then Refused else if phases[c.room] != Active then Deleted(c.doc, c.expires) else c);
      if !patient {
        callers := callers[t := Refused];
      } else if phases[c.room] != Active {
        callers := callers[t := Deleted(c.doc, c.expires)];
      }
    }

    /** The timer of one deletion: it removes its own tombstone, not a renewed one. */
    method Expire(doc: Doc, expires: nat)
      requires Valid() && expires <= clock
      modifies `tombstones
      ensures Valid()
      ensures tombstones == if doc in old(tombstones) && old(tombstones)[doc] == expires then old(tombstones) - {doc} else old(tombstones)
    {
      hide Ok;
      if doc in tombstones && tombstones[doc] == expires {
        TombstoneGoes(W(), doc);
        tombstones := tombstones - {doc};
      }
    }

    method Tick(now: nat)
      requires Valid() && clock <= now
      modifies `clock
      ensures Valid() && clock == now
    {
      hide Ok;
      TimePasses(W(), now);
      clock := now;
    }

    /** The critical section of `Close`: from here on nothing is registered that the drain does not know. */
    method Close() returns (snapshot: set<RoomId>)
      requires Valid()
      modifies `closed, `drained
      ensures Valid() && closed && snapshot == drained == rooms.Values
    {
      hide Ok;
      Shut(W());
      closed := true;
      snapshot := rooms.Values;
      drained := snapshot;
    }

    // --- Every interleaving ------------------------------------------------------------------------

    /** The next step of one caller of `Join` or `CloseDeleted`; `ok` is how the world answers it. */
    method Proceed(t: CallerId, ok: bool, name: nat)
      requires Valid() && t in callers
      modifies `callers, `tombstones, `flights, `execs, `addressed
      ensures Valid() && rooms == old(rooms)
      ensures t in callers && callers == old(callers)[t := callers[t]]
      ensures callers[t] == old(callers)[t] || StepsLeft(callers[t]) < StepsLeft(old(callers)[t])
      ensures callers[t] == old(callers)[t] && StepsLeft(callers[t]) > 0 ==>
                callers[t].Acquiring? || callers[t].Sharing? || callers[t].Queued? || callers[t].Closing?
    {
      hide Ok, Protected;
      match callers[t] {
        case Knocking(_) => Gate(t);
        case Gated(_, _) => ReadIndex(t, ok);
        case Acquiring(_, _, _) => if name !in execs { Acquire(t, name); }
        case Sharing(_, _, _, exec) => if exec in execs && execs[exec].stage.Finished? { Collect(t); }
        case Handed(_, _, _, _) => CheckEpoch(t);
        case Admitted(_, _, _, _) => Enqueue(t, ok);
        case Queued(_, _, _, room) => if room in phases && (phases[room] == Active || !ok) { AwaitJoin(t, ok); }
        case Deleting(_, _, _) => DeleteEnqueue(t, ok);
        case Closing(_, _, _) => DeleteAwait(t, ok);
        case Joined(_, _) | Refused | Deleted(_, _) =>
      }
    }

    /** The next step of one shared execution, on behalf of its leader. */
    method Execute(x: ExecId, t: CallerId, ok: bool, name: RoomId)
      requires Valid() && x in execs
      modifies `execs, `flights, `phases, `docs, `maker, `rooms
      ensures Valid() && RegisteredSince(old(W()), rooms)
    {
      hide Ok;
      match execs[x].stage {
        case Looking => Look(x);
        case Making =>
          if name !in phases && t in callers && callers[t].Sharing? && callers[t].exec == x {
            Make(x, t, ok, name);
          }
        case Made(_) => Insert(x);
        case Finished(_) =>
      }
    }

    /** The next step of a registered room: its teardown begins, or ends. */
    method Wind(doc: Doc)
      requires Valid() && doc in rooms
      modifies `phases, `rooms
      ensures Valid() && RegisteredSince(old(W()), rooms)
    {
      RegisteredKnown(W(), doc);
      FoundIsKnown(W(), doc);
      hide Ok, Protected;
      if phases[rooms[doc]] == Active {
        BeginTeardown(rooms[doc]);
      } else if phases[rooms[doc]] == Draining {
        Release(doc, rooms[doc]);
      }
    }

    method Act(a: Action)
      requires Valid()
      modifies this
      ensures Valid() && Advances(old(W()), W())
    {
      hide Ok, Protected;
      ghost var w := W();
      GuardsBounded(w);
      match a {
        case Joining(t, doc) => if t !in callers { Knock(t, doc); }
        case Deletes(t, doc) => if t !in callers { Delete(t, doc); }
        case Proceeding(t, ok, name) => if t in callers { Proceed(t, ok, name); }
        case Executing(x, t, ok, name) => if x in execs { Execute(x, t, ok, name); }
        case Winding(doc) => if doc in rooms { Wind(doc); }
        case Expiring(doc, expires) => if expires <= clock { Expire(doc, expires); }
        case Passing(now) => if clock <= now { Tick(now); }
        case Shutting => var _ := Close();
      }
      StepAdvances(w, W());
    }

    /**
     * Any interleaving whatsoever. While a tombstone that stood at the beginning still stands at the end,
     * the document has no room it did not have; and once shutdown began nothing is registered at all.
     */
    method Run(schedule: seq<Action>)
      requires Valid()
      modifies this
      ensures Valid() && Advances(old(W()), W())
    {
      hide Ok, Advances;
      AdvancesRefl(W());
      for i := 0 to |schedule|
        invariant Valid() && Advances(old(W()), W())
      {
        ghost var w := W();
        Act(schedule[i]);
        AdvancesTrans(old(W()), w, W());
      }
    }
  }

  // --- What it means -----------------------------------------------------------------------------------

  /** There is never more than one room of a document that still serves or drains. */
  lemma OneRoomPerDocument(m: Registry, r: RoomId, s: RoomId)
    requires m.Valid() && r in m.phases && s in m.phases && Unreleased(m.phases[r]) && Unreleased(m.phases[s])
    requires r in m.docs && s in m.docs && m.docs[r] == m.docs[s]
    ensures r == s
  {
    assert Placed(m.W(), r) && Placed(m.W(), s);
  }

  /** As long as a successful deletion's tombstone stands, whatever room of the document is registered is on its way out. */
  lemma DeletedStaysDown(m: Registry, t: CallerId)
    requires m.Valid() && t in m.callers && m.callers[t].Deleted? && m.clock < m.callers[t].expires
    ensures var doc := m.callers[t].doc;
            Protected(m.W(), doc) && (doc in m.rooms ==> m.rooms[doc] in m.phases && m.phases[m.rooms[doc]] == Draining)
  {
    assert DeletionOk(m.W(), m.callers[t]);
    RegisteredKnown(m.W(), m.callers[t].doc);
  }

  /** While a deletion is still at work, the only room that can be registered is the one it found. */
  lemma OnlyTheFoundRoom(m: Registry, t: CallerId)
    requires m.Valid() && t in m.callers && m.callers[t].Deleting? && m.clock < m.callers[t].expires
    ensures m.callers[t].doc in m.rooms ==> m.callers[t].found == Some(m.rooms[m.callers[t].doc])
  {
    assert DeletionOk(m.W(), m.callers[t]);
  }

  /** A shutdown drains everything: no room outside its snapshot is ever registered again. */
  lemma ShutdownSeesEverything(m: Registry, doc: Doc)
    requires m.Valid() && m.closed && doc in m.rooms
    ensures m.rooms[doc] in m.drained
  {}

  /** A registered room nobody ever addressed has a caller who still will, whatever the epochs do in between. */
  lemma StartedRoomIsOwed(m: Registry, doc: Doc)
    requires m.Valid() && doc in m.rooms && m.rooms[doc] !in m.addressed
    ensures m.rooms[doc] in m.maker && m.maker[m.rooms[doc]] in m.callers
    ensures Owes(m.callers[m.maker[m.rooms[doc]]], m.execs, m.rooms[doc])
  {
    assert OwedBy(m.W(), m.rooms[doc]);
  }
}
