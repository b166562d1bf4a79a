/**
 * One connection's outbound queue (internal/adapter/inbound/ws/conn.go): any number of senders and of
 * callers that end the connection, one patient handshake sender, one writer, and a hard close at any
 * moment. Every method is one atomic step of one of them, so a schedule is any interleaving.
 */
module Outbound {
  import opened Basics
  import opened RoomNet

  type ThreadId = nat

  /** The handler that sends the handshake batch, the only caller of `sendInitial`. */
  const HANDLER: ThreadId := 0

  const DEFAULT_BUFFER := 64

  /** What the queue carries: a frame to write, or the intent to close behind everything before it. */
  datatype Item = FrameItem(frame: Frame) | EndItem(code: EndCode)

  datatype Admission = Admitted | RefusedTerminal | RefusedFull

  /**
   * Where a caller is. `Enqueuing`, `EnqueuingEnd` and `EnqueuingInitial` hold the admission lock with
   * the terminal check behind them. `end` is the end a caller of `Send` hands over next.
   */
  datatype Pc =
    | Idle
    | Sending(frame: Frame, end: Option<EndCode>)
    | Enqueuing(frame: Frame, end: Option<EndCode>)
    | Shedding(end: Option<EndCode>)
    | Finishing(code: EndCode)
    | EnqueuingEnd(code: EndCode)
    | SheddingEnd
    | Initial(frame: Frame)
    | EnqueuingInitial(frame: Frame)
    | Parked(frame: Frame)

  /** The writer took an item off the queue, announced the space, and stopped for good. */
  datatype Writer = Ready | Took(item: Item) | Announced(item: Item) | Stopped

  /** Whoever sent the reason for an end goes on to hand over the end. */
  function After(pc: Pc): Pc {
    if (pc.Sending? || pc.Enqueuing? || pc.Shedding?) && pc.end.Some? then Finishing(pc.end.value) else Idle
  }

  /** The caller still has this end to hand over. */
  ghost predicate Carries(pc: Pc, code: EndCode) {
    || ((pc.Sending? || pc.Enqueuing? || pc.Shedding?) && pc.end == Some(code))
    || pc == Finishing(code)
  }

  predicate Holds(pc: Pc) {
    pc.Enqueuing? || pc.EnqueuingEnd? || pc.EnqueuingInitial?
  }

  predicate Patient(pc: Pc) {
    pc.Initial? || pc.EnqueuingInitial? || pc.Parked?
  }

  function InHand(w: Writer): seq<Item> {
    if w.Took? || w.Announced? then [w.item] else []
  }

  predicate HasEnd(admitted: seq<Item>) {
    admitted != [] && admitted[|admitted| - 1].EndItem?
  }

  function Control(code: EndCode): Item {
    FrameItem(SessionEndFrame(code))
  }

  /** An end is the last thing ever admitted, behind its own reason. */
  ghost predicate EndsLast(admitted: seq<Item>, ending: bool) {
    && (forall i | 0 <= i < |admitted| - 1 :: admitted[i].FrameItem?)
    && (HasEnd(admitted) ==> ending && Control(admitted[|admitted| - 1].code) in admitted)
  }

  /** Nothing is lost or reordered between admission and the socket. */
  ghost predicate InOrder(admitted: seq<Item>, written: seq<Item>, w: Writer, queue: seq<Item>) {
    && written <= admitted
    && (forall i | 0 <= i < |written| :: written[i].FrameItem?)
    && (!w.Stopped? ==> written + InHand(w) + queue == admitted)
  }

  ghost predicate ThreadOk(pc: Pc, t: ThreadId, lock: Option<ThreadId>, ending: bool, closed: bool, admitted: seq<Item>) {
    && (Holds(pc) <==> lock == Some(t))
    && (Patient(pc) ==> t == HANDLER)
    && (pc.Enqueuing? || pc.EnqueuingInitial? ==> !ending)
    && (pc.EnqueuingEnd? ==> ending && !HasEnd(admitted) && Control(pc.code) in admitted)
    && (pc.Finishing? ==> ending || closed || Control(pc.code) in admitted)
    && ((pc.Sending? || pc.Enqueuing?) && pc.end.Some? ==> pc.frame == SessionEndFrame(pc.end.value))
  }

  datatype Action =
    | Start(t: ThreadId, frame: Frame, end: Option<EndCode>)
    | StartInitial(frame: Frame)
    | Continue(t: ThreadId)
    | WriterMoves(ok: bool)
    | TimedOut
    | Severed

  predicate Later(before: seq<Item>, after: seq<Item>) {
    before <= after
  }

  /** A promised end is still in its caller's hand or the connection is on its way out; and once the boundary moved, its end comes. */
  ghost predicate PromisesOk(threads: map<ThreadId, Pc>, promised: map<ThreadId, EndCode>, ender: ThreadId,
                             ending: bool, closed: bool, admitted: seq<Item>) {
    && (forall t | t in promised :: t in threads && (Carries(threads[t], promised[t]) || ending || closed))
    && (ending ==> HasEnd(admitted) || closed || (ender in threads && (threads[ender].EnqueuingEnd? || threads[ender].SheddingEnd?)))
  }

  /** Offering a frame takes no promise back. */
  lemma PromisesStand(threads: map<ThreadId, Pc>, promised: map<ThreadId, EndCode>, ender: ThreadId, ending: bool, closed: bool,
                      admitted: seq<Item>, t: ThreadId, next: Pc, after: seq<Item>)
    requires PromisesOk(threads, promised, ender, ending, closed, admitted) && t in threads
    requires threads[t].Enqueuing? || threads[t].EnqueuingInitial?
    requires !ending && (threads[t].Enqueuing? ==> next == After(threads[t]) || next == Shedding(threads[t].end))
    ensures PromisesOk(threads[t := next], promised, ender, ending, closed, after)
  {}

  lemma OrderKept(admitted: seq<Item>, written: seq<Item>, w: Writer, queue: seq<Item>, item: Item)
    requires InOrder(admitted, written, w, queue)
    ensures InOrder(admitted + [item], written, w, queue + [item])
  {
    assert written + InHand(w) + (queue + [item]) == written + InHand(w) + queue + [item];
  }

  /** What the holder of the lock leaves behind, whether its frame was admitted or not. */
  lemma OfferLeaves(pc: Pc, t: ThreadId, lock: Option<ThreadId>, ending: bool, closed: bool, admitted: seq<Item>)
    requires ThreadOk(pc, t, lock, ending, closed, admitted) && (pc.Enqueuing? || pc.EnqueuingInitial?)
    ensures lock == Some(t) && !ending && (pc.EnqueuingInitial? ==> t == HANDLER)
    ensures ThreadOk(After(pc), t, None, ending, closed, admitted + [FrameItem(pc.frame)])
    ensures ThreadOk(if pc.Enqueuing? then Shedding(pc.end) else Parked(pc.frame), t, None, ending, closed, admitted)
  {
    assert FrameItem(pc.frame) in admitted + [FrameItem(pc.frame)];
  }

  /** Nobody else notices that the holder let go of the lock, nor one more frame. */
  lemma OthersStand(threads: map<ThreadId, Pc>, t: ThreadId, later: map<ThreadId, Pc>, ending: bool, closed: bool,
                    before: seq<Item>, after: seq<Item>)
    requires forall u | u in threads :: ThreadOk(threads[u], u, Some(t), ending, closed, before)
    requires t in later && later == threads[t := later[t]] && ThreadOk(later[t], t, None, ending, closed, after)
    requires forall x | x in before :: x in after
    ensures forall u | u in later :: ThreadOk(later[u], u, None, ending, closed, after)
  {}

  lemma AdmittedOne(admitted: seq<Item>, item: Item, ending: bool)
    ensures forall x | x in admitted :: x in admitted + [item]
    ensures item in admitted + [item]
    ensures HasEnd(admitted + [item]) <==> item.EndItem?
    ensures EndsLast(admitted, ending) && !HasEnd(admitted) && (item.EndItem? ==> ending && Control(item.code) in admitted) ==>
              EndsLast(admitted + [item], ending)
    ensures EndsLast(admitted, ending) && !ending && item.FrameItem? ==> EndsLast(admitted + [item], ending) && !HasEnd(admitted)
  {
    assert (admitted + [item])[|admitted|] == item;
  }

  /** The end in the writer's hand is the last of everything, and its reason was written. */
  lemma LastInHand(admitted: seq<Item>, written: seq<Item>, queue: seq<Item>, code: EndCode, ending: bool)
    requires EndsLast(admitted, ending) && written + [EndItem(code)] + queue == admitted
    ensures queue == [] && admitted == written + [EndItem(code)] && Control(code) in written
  {
    assert admitted[|written|] == EndItem(code);
    if queue != [] {
      assert false;
    }
    assert Control(code) in written + [EndItem(code)];
  }

  class Conn {
    const capacity: nat
    var queue: seq<Item>
    var ending: bool
    var closed: bool
    var space: bool
    var lock: Option<ThreadId>
    var writer: Writer
    var threads: map<ThreadId, Pc>
    var written: seq<Item>
    var graceful: Option<EndCode>
    ghost var admitted: seq<Item>

    // The end each caller of `Send` is to hand over, and the caller that moved the boundary.
    ghost var promised: map<ThreadId, EndCode>
    ghost var ender: ThreadId

    ghost predicate Threads()
      reads this
    {
      && (forall t | t in threads :: ThreadOk(threads[t], t, lock, ending, closed, admitted))
      && (lock.Some? ==> lock.value in threads)
    }

    /** A parked handler is woken: there is no room, or a token, or one about to be announced, or nothing to wait for. */
    ghost predicate NoLostWakeup()
      reads this
    {
      HANDLER in threads && threads[HANDLER].Parked? && |queue| < capacity ==> space || writer.Took? || closed
    }

    ghost predicate Valid()
      reads this
    {
      && |queue| <= capacity && 0 < capacity
      && InOrder(admitted, written, writer, queue) && EndsLast(admitted, ending)
      && Threads() && NoLostWakeup() && PromisesOk(threads, promised, ender, ending, closed, admitted)
      && (writer.Stopped? ==> closed)
      && (graceful.Some? ==> closed && writer.Stopped? && admitted == written + [EndItem(graceful.value)])
    }

    constructor (buffer: int)
      ensures Valid() && capacity == if buffer <= 0 then 64 else buffer
      ensures queue == [] && !ending && !closed && threads == map[] && graceful.None? && promised == map[]
    {
      capacity := if buffer <= 0 then DEFAULT_BUFFER else buffer;
      queue, ending, closed, space, lock := [], false, false, false, None;
      writer, threads, written, graceful, admitted := Ready, map[], [], None, [];
      promised, ender := map[], HANDLER;
    }

    // --- Callers ---------------------------------------------------------------------------------

    /** A caller of `Send`; one that is going to end the connection sends the reason first. */
    method BeginSend(t: ThreadId, frame: Frame, end: Option<EndCode>)
      requires Valid() && (t in threads ==> threads[t].Idle?)
      requires end.Some? ==> frame == SessionEndFrame(end.value)
      modifies `threads, `promised
      ensures Valid() && threads == old(threads)[t := Sending(frame, end)]
      ensures promised == if end.Some? then old(promised)[t := end.value] else old(promised)
    {
      if end.Some? {
        promised := promised[t := end.value];
      }
      threads := threads[t := Sending(frame, end)];
    }

    method BeginInitial(frame: Frame)
      requires Valid() && (HANDLER in threads ==> threads[HANDLER].Idle?)
      modifies `threads
      ensures Valid() && threads == old(threads)[HANDLER := Initial(frame)]
    {
      threads := threads[HANDLER := Initial(frame)];
    }

    /** `offer` up to the enqueue: the lock is taken and the boundary checked; a refusal lets go again. */
    method OfferCheck(t: ThreadId) returns (terminal: bool)
      requires Valid() && lock.None? && t in threads && (threads[t].Sending? || threads[t].Initial?)
      modifies `threads, `lock
      ensures Valid() && terminal == (ending || closed)
      ensures lock == if terminal then None else Some(t)
      ensures var pc := old(threads)[t];
              threads == old(threads)[t := if terminal && pc.Sending? && pc.end.Some? then Finishing(pc.end.value)
                                           else if terminal then Idle
                                           else if pc.Sending? then Enqueuing(pc.frame, pc.end) else EnqueuingInitial(pc.frame)]
    {
      var pc := threads[t];
      terminal := ending || closed;
      if terminal {
        threads := threads[t := After(pc)];
      } else {
        lock := Some(t);
        threads := threads[t := if pc.Sending? then Enqueuing(pc.frame, pc.end) else EnqueuingInitial(pc.frame)];
      }
    }

    /** The enqueue of `offer`, and the release of the lock. The patient sender parks on a full queue, the others shed. */
    method OfferEnqueue(t: ThreadId) returns (result: Admission)
      requires Valid() && t in threads && (threads[t].Enqueuing? || threads[t].EnqueuingInitial?)
      modifies `threads, `lock, `queue, `admitted
      ensures Valid() && lock.None?
      ensures result == if |old(queue)| < capacity then Admitted else RefusedFull
      ensures t in threads && threads == old(threads)[t := threads[t]]
      ensures var pc := old(threads)[t];
              if result == Admitted
              then && queue == old(queue) + [FrameItem(pc.frame)] && admitted == old(admitted) + [FrameItem(pc.frame)]
                   && threads[t] == if pc.Enqueuing? && pc.end.Some? then Finishing(pc.end.value) else Idle
              else && queue == old(queue) && admitted == old(admitted)
                   && threads[t] == if pc.Enqueuing? then Shedding(pc.end) else Parked(pc.frame)
    {
      hide ThreadOk, PromisesOk, EndsLast, InOrder;
      var pc := threads[t];
      assert ThreadOk(pc, t, lock, ending, closed, admitted);
      ghost var before, was := admitted, threads;
      var item := FrameItem(pc.frame);
      OfferLeaves(pc, t, lock, ending, closed, admitted);
      lock := None;
      if |queue| == capacity {
        threads := threads[t := if pc.Enqueuing? then Shedding(pc.end) else Parked(pc.frame)];
        result := RefusedFull;
      } else {
        AdmittedOne(admitted, item, ending);
        OrderKept(admitted, written, writer, queue, item);
        queue := queue + [item];
        admitted := admitted + [item];
        threads := threads[t := After(pc)];
        result := Admitted;
      }
      OthersStand(was, t, threads, ending, closed, before, admitted);
      PromisesStand(was, promised, ender, ending, closed, before, t, threads[t], admitted);
    }

    /** `close`. */
    method HardClose()
      requires Valid()
      modifies `closed
      ensures Valid() && closed
    {
      closed := true;
    }

    /** A sender that met a full queue sheds the connection, and may still have an end to hand over. */
    method Shed(t: ThreadId)
      requires Valid() && t in threads && (threads[t].Shedding? || threads[t].SheddingEnd?)
      modifies `threads, `closed
      ensures Valid() && closed
      ensures var pc := old(threads)[t];
              threads == old(threads)[t := if pc.Shedding? && pc.end.Some? then Finishing(pc.end.value) else Idle]
    {
      closed := true;
      threads := threads[t := After(threads[t])];
    }

    /** `admitEnd` up to the enqueue: the boundary moves here, whether or not the intent finds room. */
    method EndCheck(t: ThreadId) returns (terminal: bool)
      requires Valid() && lock.None? && t in threads && threads[t].Finishing?
      modifies `threads, `lock, `ending, `ender
      ensures Valid() && terminal == (old(ending) || closed)
      ensures ending == (old(ending) || !terminal) && lock == (if terminal then None else Some(t))
      ensures threads == old(threads)[t := if terminal then Idle else EnqueuingEnd(old(threads)[t].code)]
      ensures !terminal ==> Control(old(threads)[t].code) in admitted && !HasEnd(admitted)
    {
      var code := threads[t].code;
      assert ThreadOk(threads[t], t, lock, ending, closed, admitted);
      terminal := ending || closed;
      if terminal {
        threads := threads[t := Idle];
      } else {
        ending, ender := true, t;
        lock := Some(t);
        threads := threads[t := EnqueuingEnd(code)];
      }
    }

    method EndEnqueue(t: ThreadId) returns (result: Admission)
      requires Valid() && t in threads && threads[t].EnqueuingEnd?
      modifies `threads, `lock, `queue, `admitted
      ensures Valid() && lock.None? && ending
      ensures result == if |old(queue)| < capacity then Admitted else RefusedFull
      ensures result == Admitted ==>
                && queue == old(queue) + [EndItem(old(threads)[t].code)]
                && admitted == old(admitted) + [EndItem(old(threads)[t].code)]
                && threads == old(threads)[t := Idle]
      ensures result == RefusedFull ==> queue == old(queue) && admitted == old(admitted) && threads == old(threads)[t := SheddingEnd]
    {
      var code := threads[t].code;
      assert ThreadOk(threads[t], t, lock, ending, closed, admitted);
      ghost var before := admitted;
      lock := None;
      if |queue| == capacity {
        threads := threads[t := SheddingEnd];
        return RefusedFull;
      }
      queue := queue + [EndItem(code)];
      admitted := admitted + [EndItem(code)];
      threads := threads[t := Idle];
      AdmittedOne(before, EndItem(code), ending);
      return Admitted;
    }

    // --- The patient sender --------------------------------------------------------------------

    /** The token wakes the handler for another attempt at the whole admission. */
    method Wake()
      requires Valid() && HANDLER in threads && threads[HANDLER].Parked? && space
      modifies `threads, `space
      ensures Valid() && threads == old(threads)[HANDLER := Initial(old(threads)[HANDLER].frame)]
    {
      space := false;
      threads := threads[HANDLER := Initial(threads[HANDLER].frame)];
    }

    /** The connection is gone, or the handshake took too long and is given up. */
    method GiveUp()
      requires Valid() && HANDLER in threads && threads[HANDLER].Parked?
      modifies `threads, `closed
      ensures Valid() && closed && threads == old(threads)[HANDLER := Idle]
    {
      closed := true;
      threads := threads[HANDLER := Idle];
    }

    // --- The writer ----------------------------------------------------------------------------

    method Take()
      requires Valid() && writer.Ready? && queue != []
      modifies `writer, `queue
      ensures Valid() && writer == Took(old(queue)[0]) && queue == old(queue)[1..]
    {
      writer := Took(queue[0]);
      queue := queue[1..];
    }

    /** `releaseSpace`: the token is buffered, so a signal before the handler parks is kept. */
    method Announce()
      requires Valid() && writer.Took?
      modifies `writer, `space
      ensures Valid() && space && writer == Announced(old(writer).item)
    {
      space := true;
      writer := Announced(writer.item);
    }

    /** The frame goes to the socket, or the socket fails and the connection with it. */
    method Write(ok: bool)
      requires Valid() && writer.Announced? && writer.item.FrameItem?
      modifies `writer, `written, `closed
      ensures Valid() && writer == if ok then Ready else Stopped
      ensures ok ==> written == old(written) + [old(writer).item] && closed == old(closed)
      ensures !ok ==> written == old(written) && closed
    {
      if ok {
        written := written + [writer.item];
        assert written + queue == admitted;
        writer := Ready;
      } else {
        closed := true;
        writer := Stopped;
      }
    }

    /** `closeWith`: the graceful close, behind everything that was ever admitted. */
    method CloseWith()
      requires Valid() && writer.Announced? && writer.item.EndItem?
      modifies `writer, `closed, `graceful
      ensures Valid() && graceful == Some(old(writer).item.code)
      ensures admitted == written + [EndItem(old(writer).item.code)] && Control(old(writer).item.code) in written
    {
      var code := writer.item.code;
      LastInHand(admitted, written, queue, code, ending);
      graceful := Some(code);
      closed := true;
      writer := Stopped;
    }

    method Quit()
      requires Valid() && writer.Ready? && closed
      modifies `writer
      ensures Valid() && writer.Stopped?
    {
      writer := Stopped;
    }

    // --- Every interleaving ----------------------------------------------------------------------

    /** The next atomic step of one caller. */
    method Proceed(t: ThreadId)
      requires Valid() && t in threads
      modifies `threads, `lock, `queue, `admitted, `closed, `ending, `space, `ender
      ensures Valid() && Later(old(admitted), admitted) && (old(ending) ==> ending) && (old(closed) ==> closed)
      ensures old(HasEnd(admitted)) ==> admitted == old(admitted)
      ensures t in threads && (threads[t] == old(threads)[t] ==> threads[t].Idle? || old(lock).Some? || (threads[t].Parked? && !space && !closed))
    {
      match threads[t] {
        case Idle =>
        case Sending(_, _) | Initial(_) => if lock.None? { var _ := OfferCheck(t); }
        case Enqueuing(_, _) | EnqueuingInitial(_) =>
          assert ThreadOk(threads[t], t, lock, ending, closed, admitted);
          var _ := OfferEnqueue(t);
        case Shedding(_) | SheddingEnd => Shed(t);
        case Finishing(_) => if lock.None? { var _ := EndCheck(t); }
        case EnqueuingEnd(_) =>
          assert ThreadOk(threads[t], t, lock, ending, closed, admitted);
          var _ := EndEnqueue(t);
        case Parked(_) =>
          assert ThreadOk(threads[t], t, lock, ending, closed, admitted);
          if space {
            Wake();
          } else if closed {
            GiveUp();
          }
      }
    }

    method WriterStep(ok: bool)
      requires Valid()
      modifies `writer, `queue, `space, `written, `closed, `graceful
      ensures Valid() && Later(old(written), written) && (old(closed) ==> closed)
      ensures old(graceful).Some? ==> graceful == old(graceful)
      ensures writer == old(writer) ==> writer.Stopped? || (writer.Ready? && queue == [])
    {
      match writer {
        case Ready => if closed && !ok { Quit(); } else if queue != [] { Take(); }
        case Took(_) => Announce();
        case Announced(FrameItem(_)) => Write(ok);
        case Announced(EndItem(_)) => CloseWith();
        case Stopped =>
      }
    }

    /** Any schedule of callers, writer and hard closes. */
    method Run(schedule: seq<Action>)
      requires Valid()
      modifies this
      ensures Valid() && Later(old(written), written) && Later(old(admitted), admitted)
      ensures old(promised).Keys <= promised.Keys
      ensures forall t | t in promised :: t in threads && (Carries(threads[t], promised[t]) || ending || closed)
    {
      for i := 0 to |schedule|
        invariant Valid() && Later(old(written), written) && Later(old(admitted), admitted)
        invariant old(promised).Keys <= promised.Keys
      {
        match schedule[i] {
          case Start(t, frame, end) =>
            if (t in threads ==> threads[t].Idle?) && (end.Some? ==> frame == SessionEndFrame(end.value)) {
              BeginSend(t, frame, end);
            }
          case StartInitial(frame) => if HANDLER in threads ==> threads[HANDLER].Idle? { BeginInitial(frame); }
          case Continue(t) => if t in threads { Proceed(t); }
          case WriterMoves(ok) => WriterStep(ok);
          case TimedOut => if HANDLER in threads && threads[HANDLER].Parked? { GiveUp(); }
          case Severed => HardClose();
        }
      }
    }
  }

  /**
   * The reason comes before the close: a connection closed gracefully with a code had everything it
   * ever admitted written, in order, that code's own reason among it, and no other end was admitted.
   */
  lemma ReasonBeforeClose(c: Conn, code: EndCode)
    requires c.Valid() && c.graceful == Some(code)
    ensures c.admitted == c.written + [EndItem(code)] && Control(code) in c.written
    ensures forall i | 0 <= i < |c.admitted| && c.admitted[i].EndItem? :: i == |c.admitted| - 1 && c.admitted[i].code == code
  {
    assert c.admitted[|c.admitted| - 1] == EndItem(code);
    assert Control(code) in c.written + [EndItem(code)];
  }

  /**
   * Whoever set out to end the connection did: once every caller is back, the boundary has moved and
   * an end is the last thing admitted, or the connection is closed.
   */
  lemma PromisedEndIsAdmitted(c: Conn, t: ThreadId)
    requires c.Valid() && t in c.promised && forall x | x in c.threads :: c.threads[x].Idle?
    ensures c.closed || (c.ending && HasEnd(c.admitted))
  {
    assert !Carries(c.threads[t], c.promised[t]);
  }

  /** However the connection goes down, what the client saw is the beginning of what was admitted, ends excluded. */
  lemma ClientSeesAPrefix(c: Conn, i: nat)
    requires c.Valid() && i < |c.written|
    ensures c.written[i] == c.admitted[i] && c.written[i].FrameItem?
    ensures forall j | 0 <= j < i :: c.admitted[j].FrameItem?
  {
    forall j | 0 <= j < i ensures c.admitted[j].FrameItem? {
      assert c.written[j] == c.admitted[j];
    }
  }

  /**
   * A handler parked with nobody left to wake it waits on a full queue of a live connection: as soon
   * as the writer has announced what it took, either the queue is full or a token is there.
   */
  lemma ParkedHandlerIsWoken(c: Conn)
    requires c.Valid() && HANDLER in c.threads && c.threads[HANDLER].Parked?
    requires !c.closed && !c.writer.Took? && !c.space
    ensures |c.queue| == c.capacity && (c.writer.Ready? || c.writer.Announced?)
    ensures c.writer.Ready? ==> c.queue != []
  {}
}
