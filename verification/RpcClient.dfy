/**
 * The request/reply client over one re-attaching broker session
 * (internal/adapter/outbound/metadatastore/rabbitmq/conn.go). The lifecycle consumer
 * (internal/adapter/inbound/lifecycle/conn.go) owns its session by the same protocol, without waiters.
 * Every method is one critical section or one step outside the lock, so a sequence of calls is any
 * interleaving of callers, deliveries, the supervisor and any number of `Close` calls.
 */
module RpcClient {
  import opened Basics

  type SessionId = nat
  type CorrelationId = nat
  type CloserId = nat

  datatype Reply = Answer(body: nat) | Failure

  /** A session holds a connection and the channel on it. */
  datatype Resource = Connection(session: SessionId) | Channel(session: SessionId)

  /** The supervisor: consuming replies, releasing a dead session, waiting, holding a new session it has not installed, gone. */
  datatype Supervisor =
    | Consuming(session: SessionId)
    | Releasing(session: SessionId)
    | BackingOff
    | Holding(session: SessionId)
    | Refusing(session: SessionId)
    | Exited

  /** A caller of `Close`: shutdown is signalled, then the live attachment read, then closed. */
  datatype Closer = Signalled | Read(session: SessionId) | Finished

  /** A call publishes on `channel` and names `replyTo`; `returned` once its deferred clean-up ran. */
  datatype Call = Call(channel: SessionId, replyTo: SessionId, returned: bool)

  function InHand(s: Supervisor): Option<SessionId> {
    match s
    case Consuming(session) => Some(session)
    case Releasing(session) => Some(session)
    case Holding(session) => Some(session)
    case Refusing(session) => Some(session)
    case _ => None
  }

  predicate DroppedLink(s: Supervisor, live: set<Resource>) {
    s.Consuming? ==> Connection(s.session) !in live
  }

  /** What was received is not replaced. */
  ghost predicate Kept(before: map<CorrelationId, Reply>, after: map<CorrelationId, Reply>) {
    forall id | id in before :: id in after && after[id] == before[id]
  }

  /** One step of the world. */
  datatype Action =
    | Calling(id: CorrelationId)
    | Delivering(id: CorrelationId, reply: Reply)
    | Sending(id: CorrelationId)
    | Receiving(id: CorrelationId)
    | Returning(id: CorrelationId)
    | Supervising(failing: nat)
    | Finishing(k: CloserId)
    | Dropping(s: SessionId)

  class Client {
    var pending: set<CorrelationId>
    var connection: SessionId
    var channel: SessionId
    var replyQueue: SessionId
    var detached: bool
    var shutdown: bool

    var supervisor: Supervisor
    var closers: map<CloserId, Closer>
    var calls: map<CorrelationId, Call>
    var live: set<Resource>
    var nextSession: SessionId

    // Replies on their way: taken from `pending` but not sent yet, sent into the waiter's one slot, received.
    var outbox: map<CorrelationId, Reply>
    var slot: map<CorrelationId, Reply>
    var received: map<CorrelationId, Reply>

    /** A waiter is registered, or its one reply is on its way, in its slot or received: never two of these. */
    ghost predicate OneReply()
      reads `pending, `outbox, `slot, `received, `calls
    {
      && pending !! outbox.Keys && pending !! slot.Keys && pending !! received.Keys
      && outbox.Keys !! slot.Keys && outbox.Keys !! received.Keys && slot.Keys !! received.Keys
      && pending + outbox.Keys + slot.Keys + received.Keys <= calls.Keys
    }

    /** The publish surface is one session's, and whoever waits, waits on the session being consumed. */
    ghost predicate Surface()
      reads `connection, `channel, `replyQueue, `detached, `shutdown, `supervisor, `pending, `calls
    {
      && connection == channel == replyQueue
      && (supervisor.Consuming? ==> supervisor.session == channel)
      && (!detached ==> supervisor.Consuming?)
      && (pending != {} ==> supervisor.Consuming?)
      && (forall id | id in pending && id in calls :: calls[id].channel == channel)
      && (forall id | id in calls :: calls[id].channel == calls[id].replyTo)
    }

    /** Everything open belongs to the session the supervisor has in hand. */
    ghost predicate NothingLeaks()
      reads `live, `supervisor, `nextSession
    {
      && (forall r | r in live :: InHand(supervisor) == Some(r.session))
      && (InHand(supervisor).Some? ==> InHand(supervisor).value < nextSession)
    }

    /** Once shutdown is signalled nothing is installed any more, so what a `Close` read is what there is. */
    ghost predicate Closers()
      reads `closers, `shutdown, `channel, `connection, `detached, `supervisor, `live
    {
      && (closers != map[] ==> shutdown)
      && (forall k | k in closers && closers[k].Read? :: closers[k].session == channel && detached)
      && (forall k | k in closers && closers[k].Finished? :: detached && DroppedLink(supervisor, live))
      && (supervisor.Exited? ==> shutdown)
    }

    ghost predicate Valid()
      reads this
    {
      OneReply() && Surface() && NothingLeaks() && Closers()
    }

    /** `Connect`, with its first session opened. */
    constructor ()
      ensures Valid() && calls == map[] && !shutdown && !detached
    {
      pending, connection, channel, replyQueue, detached, shutdown := {}, 0, 0, 0, false, false;
      supervisor, closers, calls, live, nextSession := Consuming(0), map[], map[], {Connection(0), Channel(0)}, 1;
      outbox, slot, received := map[], map[], map[];
    }

    // --- Calls -------------------------------------------------------------------------------------

    /** The registration of `Call`: refused without a reply path, otherwise with the publish surface of one session. */
    method Register(id: CorrelationId) returns (ok: bool)
      requires Valid() && id !in calls
      modifies `pending, `calls
      ensures Valid() && ok == !detached
      ensures ok ==> pending == old(pending) + {id} && calls == old(calls)[id := Call(channel, replyQueue, false)]
      ensures ok ==> supervisor == Consuming(channel)
      ensures !ok ==> pending == old(pending) && calls == old(calls)
    {
      ok := !detached;
      if ok {
        pending := pending + {id};
        calls := calls[id := Call(channel, replyQueue, false)];
      }
    }

    /** `deliver` under the lock: the waiter is taken out, so nobody else can answer it. */
    method Deliver(id: CorrelationId, reply: Reply) returns (known: bool)
      requires Valid()
      modifies `pending, `outbox
      ensures Valid() && known == (id in old(pending))
      ensures pending == old(pending) - {id}
      ensures outbox == if known then old(outbox)[id := reply] else old(outbox)
    {
      known := id in pending;
      if known {
        pending := pending - {id};
        outbox := outbox[id := reply];
      }
    }

    /** The send into the waiter's slot: it is always empty, so the sender never blocks. */
    method SendReply(id: CorrelationId)
      requires Valid() && id in outbox
      modifies `outbox, `slot
      ensures Valid() && id !in old(slot) && slot == old(slot)[id := old(outbox)[id]] && outbox == old(outbox) - {id}
    {
      slot := slot[id := outbox[id]];
      outbox := outbox - {id};
    }

    method Receive(id: CorrelationId) returns (reply: Reply)
      requires Valid() && id in slot
      modifies `slot, `received
      ensures Valid() && reply == old(slot)[id] && id !in old(received) && received == old(received)[id := reply]
    {
      reply := slot[id];
      slot := slot - {id};
      received := received[id := reply];
    }

    /** The deferred clean-up of `Call`, after a reply, a failed publish or a timeout. */
    method Return(id: CorrelationId)
      requires Valid() && id in calls
      modifies `pending, `calls
      ensures Valid() && id !in pending && calls == old(calls)[id := old(calls)[id].(returned := true)]
    {
      pending := pending - {id};
      calls := calls[id := calls[id].(returned := true)];
    }

    // --- The supervisor ------------------------------------------------------------------------------

    /** `failAllPending`: the session is dead; every waiter there is gets its failure, and new calls fail fast. */
    method FailAllPending()
      requires Valid() && supervisor.Consuming?
      modifies `pending, `outbox, `detached, `supervisor
      ensures Valid() && detached && pending == {} && supervisor == Releasing(old(supervisor).session)
      ensures outbox == old(outbox) + map id | id in old(pending) :: Failure
    {
      detached := true;
      outbox := outbox + map id | id in pending :: Failure;
      pending := {};
      supervisor := Releasing(supervisor.session);
    }

    /** What was still open on the dead session is closed before another is tried. */
    method ReleaseDead()
      requires Valid() && supervisor.Releasing?
      modifies `supervisor, `live
      ensures Valid() && supervisor.BackingOff? && live == {}
    {
      live := live - {Connection(supervisor.session), Channel(supervisor.session)};
      supervisor := BackingOff;
    }

    /** The top of the re-attach loop: a shutdown ends it. */
    method CheckShutdown()
      requires Valid() && supervisor.BackingOff?
      modifies `supervisor
      ensures Valid() && supervisor == if shutdown then Exited else BackingOff
    {
      if shutdown {
        supervisor := Exited;
      }
    }

    /**
     * `openSession`, which fails at any of its five steps: dial, channel, reply queue, server queue,
     * consume. A failure closes what the steps before it opened.
     */
    method OpenSession(failing: nat)
      requires Valid() && supervisor.BackingOff?
      modifies `supervisor, `live, `nextSession
      ensures Valid()
      ensures failing < 5 ==> supervisor.BackingOff? && live == old(live) == {}
      ensures failing >= 5 ==>
                && supervisor == Holding(old(nextSession))
                && live == old(live) + {Connection(old(nextSession)), Channel(old(nextSession))}
    {
      var s := nextSession;
      nextSession := nextSession + 1;
      if failing == 0 {
        return;
      }
      live := live + {Connection(s)};
      if failing == 1 {
        live := live - {Connection(s)};
        return;
      }
      live := live + {Channel(s)};
      if failing < 5 {
        live := live - {Channel(s), Connection(s)};
        return;
      }
      supervisor := Holding(s);
    }

    /** `adopt`: the shutdown is looked at again under the lock that installs the session. */
    method Adopt() returns (ok: bool)
      requires Valid() && supervisor.Holding?
      modifies `connection, `channel, `replyQueue, `detached, `supervisor
      ensures Valid() && ok == !shutdown
      ensures ok ==> supervisor == Consuming(old(supervisor).session) && !detached
      ensures ok ==> connection == channel == replyQueue == old(supervisor).session
      ensures !ok ==> supervisor == Refusing(old(supervisor).session) && channel == old(channel) && detached == old(detached)
    {
      ok := !shutdown;
      if ok {
        connection, channel, replyQueue := supervisor.session, supervisor.session, supervisor.session;
        detached := false;
        supervisor := Consuming(channel);
      } else {
        supervisor := Refusing(supervisor.session);
      }
    }

    /** A refused session is closed by the one who opened it. */
    method CloseRefused()
      requires Valid() && supervisor.Refusing? && shutdown
      modifies `supervisor, `live
      ensures Valid() && supervisor.Exited? && live == {}
    {
      live := live - {Connection(supervisor.session), Channel(supervisor.session)};
      supervisor := Exited;
    }

    // --- Close -----------------------------------------------------------------------------------------

    method Signal(k: CloserId)
      requires Valid() && k !in closers
      modifies `shutdown, `closers
      ensures Valid() && shutdown && closers == old(closers)[k := Signalled]
    {
      shutdown := true;
      closers := closers[k := Signalled];
    }

    method ReadLive(k: CloserId)
      requires Valid() && k in closers && closers[k].Signalled?
      modifies `closers, `detached
      ensures Valid() && detached && closers == old(closers)[k := Read(channel)]
    {
      detached := true;
      closers := closers[k := Read(channel)];
    }

    /** The connection goes, and with it the delivery stream the supervisor may still be consuming. */
    method CloseLive(k: CloserId)
      requires Valid() && k in closers && closers[k].Read?
      modifies `closers, `live
      ensures Valid() && closers == old(closers)[k := Finished]
      ensures live == old(live) - {Channel(old(closers)[k].session), Connection(old(closers)[k].session)}
    {
      live := live - {Channel(closers[k].session), Connection(closers[k].session)};
      closers := closers[k := Finished];
    }

    /** The broker drops a session's connection by itself. */
    method Drop(s: SessionId)
      requires Valid()
      modifies `live
      ensures Valid() && live == old(live) - {Connection(s), Channel(s)}
    {
      live := live - {Connection(s), Channel(s)};
    }

    /** The next step of the supervisor; `failing` is the step at which opening a session fails, if it does. */
    method Supervise(failing: nat)
      requires Valid()
      modifies `pending, `outbox, `detached, `supervisor, `live, `nextSession, `connection, `channel, `replyQueue
      ensures Valid()
      ensures old(supervisor).Consuming? ==> supervisor == Releasing(old(supervisor).session) && detached && pending == {}
      ensures old(supervisor).Releasing? ==> supervisor.BackingOff? && live == {}
      ensures old(supervisor).BackingOff? && !shutdown ==> if failing < 5 then supervisor.BackingOff? else supervisor == Holding(old(nextSession))
      ensures old(supervisor).Holding? && !shutdown ==> supervisor == Consuming(old(supervisor).session) && !detached
      ensures shutdown && (old(supervisor).BackingOff? || old(supervisor).Refusing?) ==> supervisor.Exited?
      ensures shutdown && old(supervisor).Holding? ==> supervisor == Refusing(old(supervisor).session)
    {
      match supervisor {
        case Consuming(_) => FailAllPending();
        case Releasing(_) => ReleaseDead();
        case BackingOff => if shutdown { CheckShutdown(); } else { OpenSession(failing); }
        case Holding(_) => var _ := Adopt();
        case Refusing(_) => if shutdown { CloseRefused(); }
        case Exited =>
      }
    }

    /** The next step of one `Close`. */
    method Finish(k: CloserId)
      requires Valid()
      modifies `shutdown, `closers, `detached, `live
      ensures Valid() && shutdown && k in closers
      ensures k !in old(closers) ==> closers[k].Signalled?
      ensures k in old(closers) && old(closers)[k].Signalled? ==> closers[k] == Read(channel) && detached
      ensures k in old(closers) && !old(closers)[k].Signalled? ==> closers[k].Finished?
    {
      if k !in closers {
        Signal(k);
      } else {
        match closers[k] {
          case Signalled => ReadLive(k);
          case Read(_) => CloseLive(k);
          case Finished =>
        }
      }
    }

    method Act(a: Action)
      requires Valid()
      modifies this
      ensures Valid() && (old(shutdown) ==> shutdown) && Kept(old(received), received)
    {
      hide OneReply, Surface, NothingLeaks, Closers;
      match a {
        case Calling(id) => if id !in calls { var _ := Register(id); }
        case Delivering(id, reply) => var _ := Deliver(id, reply);
        case Sending(id) => if id in outbox { SendReply(id); }
        case Receiving(id) => if id in slot { var _ := Receive(id); }
        case Returning(id) => if id in calls { Return(id); }
        case Supervising(failing) => Supervise(failing);
        case Finishing(k) => Finish(k);
        case Dropping(s) => Drop(s);
      }
    }

    /** Any interleaving; a reply once received stays the only one its call ever gets. */
    method Run(schedule: seq<Action>)
      requires Valid()
      modifies this
      ensures Valid() && (old(shutdown) ==> shutdown) && Kept(old(received), received)
    {
      hide OneReply, Surface, NothingLeaks, Closers;
      for i := 0 to |schedule|
        invariant Valid() && (old(shutdown) ==> shutdown) && Kept(old(received), received)
      {
        Act(schedule[i]);
      }
    }
  }

  /** A call publishes on, and waits at, one session; and while it is registered, that session's replies are being read. */
  lemma OneSessionPerCall(c: Client, id: CorrelationId)
    requires c.Valid() && id in c.calls
    ensures c.calls[id].channel == c.calls[id].replyTo
    ensures id in c.pending ==> c.supervisor == Consuming(c.calls[id].replyTo)
  {}

  /** After a `Close`, whatever the race with a re-attach: nothing alive is consumed, and once the supervisor left nothing is open. */
  lemma ClosedIsClosed(c: Client, k: CloserId)
    requires c.Valid() && k in c.closers && c.closers[k].Finished?
    ensures c.shutdown && c.detached
    ensures c.supervisor.Consuming? ==> Connection(c.supervisor.session) !in c.live
    ensures c.supervisor.Exited? ==> c.live == {} && c.pending == {}
  {}
}
