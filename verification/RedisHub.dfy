/**
 * The hub's shared subscriptions (internal/adapter/outbound/hub/redis/hub.go): one pump per document,
 * counted by its subscribers, started and stopped off the lock. Every method is one critical section
 * or one step outside it, so a sequence of calls is any interleaving of `Subscribe`, of the closing of
 * subscriptions and of the closing of the hub.
 */
module RedisHub {
  import opened Basics

  type Doc = string
  type SubId = nat

  /** A pump is named after the subscription whose call started it. */
  datatype Pump = Pump(id: SubId, refs: nat)

  /** Where a call of `Subscribe` is, and what came of it. */
  datatype Call =
    | Starting(doc: Doc)
    | Holding(doc: Doc)
    | Failing(doc: Doc)
    | Returned(doc: Doc)
    | Refused(doc: Doc)

  /** A pump is installed for its own document, counts exactly the live subscribers, and runs. */
  ghost predicate Counted(subs: map<Doc, set<SubId>>, pumps: map<Doc, Pump>, calls: map<SubId, Call>) {
    && (forall d | d in subs :: subs[d] != {})
    && (forall d | d in pumps :: d in subs && pumps[d].refs == |subs[d]|)
    && (forall d | d in pumps :: pumps[d].id in calls && calls[pumps[d].id].doc == d)
    && (forall d, s | d in subs && s in subs[d] :: s in calls && calls[s].doc == d && !calls[s].Refused?)
  }

  /** A live subscriber is registered, and once its call returned there is a pump to serve it. */
  ghost predicate Served(subs: map<Doc, set<SubId>>, pumps: map<Doc, Pump>, calls: map<SubId, Call>, gone: set<SubId>, closed: bool) {
    forall s | s in calls && s !in gone && !closed && !calls[s].Refused? ::
      calls[s].doc in subs && s in subs[calls[s].doc] && (calls[s].Returned? ==> calls[s].doc in pumps)
  }

  predicate Installed(pumps: map<Doc, Pump>, doc: Doc, p: SubId) {
    doc in pumps && pumps[doc].id == p
  }

  /** Every started pump is installed, in the hands of the call that started it, about to be stopped or stopped; and only one of these. */
  ghost predicate Tracked(pumps: map<Doc, Pump>, calls: map<SubId, Call>, started: set<SubId>, stopping: set<SubId>, stopped: set<SubId>) {
    && (forall p | p in started :: p in calls)
    && (forall p | p in started :: Installed(pumps, calls[p].doc, p) || calls[p].Holding? || p in stopping || p in stopped)
    && (forall d | d in pumps :: pumps[d].id in started && pumps[d].id !in stopping + stopped)
    && (forall p | p in calls && calls[p].Holding? :: p in started && p !in stopping + stopped && !Installed(pumps, calls[p].doc, p))
    && (forall p | p in calls && (calls[p].Starting? || calls[p].Failing?) :: p !in started)
    && stopping !! stopped && stopping + stopped <= started
  }

  /** One step of the world. */
  datatype Action =
    | Subscribing(doc: Doc)
    | Proceeding(s: SubId, ok: bool)
    | Unsubscribing(s: SubId)
    | Stopping(p: SubId)
    | Closing

  function Without(subs: map<Doc, set<SubId>>, doc: Doc, s: SubId): map<Doc, set<SubId>> {
    if doc !in subs || s !in subs[doc] then subs
    else if subs[doc] == {s} then subs - {doc}
    else subs[doc := subs[doc] - {s}]
  }

  function Recount(pumps: map<Doc, Pump>, subs: map<Doc, set<SubId>>, doc: Doc): map<Doc, Pump> {
    if doc in pumps && doc in subs then pumps[doc := pumps[doc].(refs := |subs[doc]|)] else pumps
  }

  lemma RecountSame(subs: map<Doc, set<SubId>>, pumps: map<Doc, Pump>, calls: map<SubId, Call>, doc: Doc)
    requires Counted(subs, pumps, calls)
    ensures Recount(pumps, subs, doc) == pumps && (doc in pumps ==> doc in subs)
  {}

  lemma InstalledIsCounted(subs: map<Doc, set<SubId>>, pumps: map<Doc, Pump>, calls: map<SubId, Call>, doc: Doc)
    requires Counted(subs, pumps, calls) && doc in pumps
    ensures doc in subs && pumps[doc].refs == |subs[doc]| > 0
  {
    assert subs[doc] != {};
  }

  lemma EmptyIsAbsent(subs: map<Doc, set<SubId>>, pumps: map<Doc, Pump>, calls: map<SubId, Call>, doc: Doc)
    requires Counted(subs, pumps, calls) && (doc in subs ==> |subs[doc]| == 0)
    ensures doc !in subs
  {
    if doc in subs {
      assert false;
    }
  }

  function Joined(subs: map<Doc, set<SubId>>, doc: Doc, id: SubId): map<Doc, set<SubId>> {
    subs[doc := (if doc in subs then subs[doc] else {}) + {id}]
  }

  function Raised(pumps: map<Doc, Pump>, doc: Doc): map<Doc, Pump> {
    if doc in pumps then pumps[doc := pumps[doc].(refs := pumps[doc].refs + 1)] else pumps
  }

  function Entered(pumps: map<Doc, Pump>, doc: Doc): Call {
    if doc in pumps then Returned(doc) else Starting(doc)
  }

  lemma EnterCounted(subs: map<Doc, set<SubId>>, pumps: map<Doc, Pump>, calls: map<SubId, Call>, doc: Doc, id: SubId)
    requires Counted(subs, pumps, calls) && id !in calls
    ensures Counted(Joined(subs, doc, id), Raised(pumps, doc), calls[id := Entered(pumps, doc)])
  {
    var after := Joined(subs, doc, id);
    forall d | d in pumps ensures d in after && Raised(pumps, doc)[d].refs == |after[d]| {
      if d == doc {
        assert id !in subs[doc];
      }
    }
  }

  lemma EnterTracked(pumps: map<Doc, Pump>, calls: map<SubId, Call>, started: set<SubId>, stopping: set<SubId>, stopped: set<SubId>,
                     doc: Doc, id: SubId)
    requires Tracked(pumps, calls, started, stopping, stopped) && id !in calls
    ensures Tracked(Raised(pumps, doc), calls[id := Entered(pumps, doc)], started, stopping, stopped)
  {
    assert forall d, p | d in pumps :: Installed(Raised(pumps, doc), d, p) <==> Installed(pumps, d, p);
  }

  lemma EnterKeeps(subs: map<Doc, set<SubId>>, pumps: map<Doc, Pump>, calls: map<SubId, Call>, gone: set<SubId>,
                   started: set<SubId>, stopping: set<SubId>, stopped: set<SubId>, doc: Doc, id: SubId)
    requires Counted(subs, pumps, calls) && Served(subs, pumps, calls, gone, false) && id !in calls
    requires Tracked(pumps, calls, started, stopping, stopped)
    ensures var calls' := calls[id := Entered(pumps, doc)];
            && Counted(Joined(subs, doc, id), Raised(pumps, doc), calls')
            && Served(Joined(subs, doc, id), Raised(pumps, doc), calls', gone, false)
            && Tracked(Raised(pumps, doc), calls', started, stopping, stopped)
  {
    hide Counted, Tracked;
    EnterCounted(subs, pumps, calls, doc, id);
    EnterTracked(pumps, calls, started, stopping, stopped, doc, id);
  }

  function Lowered(pumps: map<Doc, Pump>, subs: map<Doc, set<SubId>>, doc: Doc): map<Doc, Pump> {
    if doc in pumps && doc !in subs then pumps - {doc} else Recount(pumps, subs, doc)
  }

  lemma RemovedCounted(subs: map<Doc, set<SubId>>, pumps: map<Doc, Pump>, calls: map<SubId, Call>, doc: Doc, s: SubId)
    requires Counted(subs, pumps, calls)
    ensures Counted(Without(subs, doc, s), Lowered(pumps, Without(subs, doc, s), doc), calls)
  {}

  lemma RemovedTracked(pumps: map<Doc, Pump>, subs: map<Doc, set<SubId>>, calls: map<SubId, Call>, doc: Doc,
                       started: set<SubId>, stopping: set<SubId>, stopped: set<SubId>)
    requires Tracked(pumps, calls, started, stopping, stopped)
    requires forall d | d in pumps :: pumps[d].id in calls && calls[pumps[d].id].doc == d
    ensures Tracked(Lowered(pumps, subs, doc), calls, started,
                    if doc in pumps && doc !in subs then stopping + {pumps[doc].id} else stopping, stopped)
  {}

  lemma RemovedServed(subs: map<Doc, set<SubId>>, pumps: map<Doc, Pump>, calls: map<SubId, Call>, gone: set<SubId>, closed: bool,
                      doc: Doc, s: SubId)
    requires Served(subs, pumps, calls, gone, closed) && s in calls && calls[s].doc == doc
    ensures Served(Without(subs, doc, s), Lowered(pumps, Without(subs, doc, s), doc), calls, gone + {s}, closed)
  {}

  lemma RemovedKeeps(subs: map<Doc, set<SubId>>, pumps: map<Doc, Pump>, calls: map<SubId, Call>, gone: set<SubId>, closed: bool,
                     started: set<SubId>, stopping: set<SubId>, stopped: set<SubId>, doc: Doc, s: SubId)
    requires Counted(subs, pumps, calls) && Served(subs, pumps, calls, gone, closed) && s in calls && calls[s].doc == doc
    requires Tracked(pumps, calls, started, stopping, stopped)
    ensures var subs' := Without(subs, doc, s);
            var pumps' := Lowered(pumps, subs', doc);
            && Counted(subs', pumps', calls) && Served(subs', pumps', calls, gone + {s}, closed)
            && Tracked(pumps', calls, started, if doc in pumps && doc !in subs' then stopping + {pumps[doc].id} else stopping, stopped)
            && (doc in subs' ==> s !in subs'[doc])
            && (subs == map[] && pumps == map[] ==> subs' == map[] && pumps' == map[])
  {
    RemovedCounted(subs, pumps, calls, doc, s);
    hide Served, Tracked;
    RemovedServed(subs, pumps, calls, gone, closed, doc, s);
    RemovedTracked(pumps, Without(subs, doc, s), calls, doc, started, stopping, stopped);
  }

  lemma RefusedKeeps(subs: map<Doc, set<SubId>>, pumps: map<Doc, Pump>, calls: map<SubId, Call>, gone: set<SubId>, closed: bool,
                     started: set<SubId>, stopping: set<SubId>, stopped: set<SubId>, s: SubId)
    requires Counted(subs, pumps, calls) && Served(subs, pumps, calls, gone, closed) && Tracked(pumps, calls, started, stopping, stopped)
    requires s in calls && calls[s].Failing? && s in gone && (calls[s].doc in subs ==> s !in subs[calls[s].doc])
    ensures var calls' := calls[s := Refused(calls[s].doc)];
            && Counted(subs, pumps, calls') && Served(subs, pumps, calls', gone, closed)
            && Tracked(pumps, calls', started, stopping, stopped)
  {}

  /** A pump that found another in place, nobody to serve or the hub closed is about to be stopped. */
  lemma DiscardKeeps(subs: map<Doc, set<SubId>>, pumps: map<Doc, Pump>, calls: map<SubId, Call>, gone: set<SubId>, closed: bool,
                     started: set<SubId>, stopping: set<SubId>, stopped: set<SubId>, s: SubId)
    requires Counted(subs, pumps, calls) && Served(subs, pumps, calls, gone, closed) && Tracked(pumps, calls, started, stopping, stopped)
    requires s in calls && calls[s].Holding? && (closed ==> subs == map[])
    ensures !closed && (calls[s].doc in pumps || calls[s].doc !in subs) ==>
              var calls' := calls[s := Returned(calls[s].doc)];
              && Counted(subs, pumps, calls') && Served(subs, pumps, calls', gone, closed)
              && Tracked(pumps, calls', started, stopping + {s}, stopped)
    ensures closed ==>
              var calls' := calls[s := Refused(calls[s].doc)];
              && Counted(subs, pumps, calls') && Served(subs, pumps, calls', gone, closed)
              && Tracked(pumps, calls', started, stopping + {s}, stopped)
  {}

  lemma InstallKeeps(subs: map<Doc, set<SubId>>, pumps: map<Doc, Pump>, calls: map<SubId, Call>, gone: set<SubId>,
                     started: set<SubId>, stopping: set<SubId>, stopped: set<SubId>, s: SubId)
    requires Counted(subs, pumps, calls) && Served(subs, pumps, calls, gone, false) && Tracked(pumps, calls, started, stopping, stopped)
    requires s in calls && calls[s].Holding? && calls[s].doc !in pumps && calls[s].doc in subs
    ensures var doc := calls[s].doc;
            var pumps' := pumps[doc := Pump(s, |subs[doc]|)];
            var calls' := calls[s := Returned(doc)];
            && Counted(subs, pumps', calls') && Served(subs, pumps', calls', gone, false)
            && Tracked(pumps', calls', started, stopping, stopped)
  {}

  class Hub {
    var closed: bool
    var nextID: nat
    var subs: map<Doc, set<SubId>>
    var pumps: map<Doc, Pump>

    var calls: map<SubId, Call>
    var stopping: set<SubId>
    ghost var gone: set<SubId>
    ghost var started: set<SubId>
    ghost var stopped: set<SubId>

    ghost predicate Valid()
      reads this
    {
      && Counted(subs, pumps, calls) && Served(subs, pumps, calls, gone, closed)
      && Tracked(pumps, calls, started, stopping, stopped)
      && (closed ==> subs == map[] && pumps == map[])
      && (forall s | s in calls :: s <= nextID)
      && gone <= calls.Keys
    }

    constructor ()
      ensures Valid() && !closed && subs == map[] && pumps == map[] && calls == map[]
    {
      closed, nextID, subs, pumps, calls := false, 0, map[], map[], map[];
      stopping, gone, started, stopped := {}, {}, {}, {};
    }

    /** `removeSubscriber`: the last one takes the pump with it. */
    method RemoveSubscriber(doc: Doc, s: SubId)
      requires Counted(subs, pumps, calls)
      modifies `subs, `pumps, `stopping
      ensures subs == Without(old(subs), doc, s)
      ensures pumps == Lowered(old(pumps), subs, doc)
      ensures stopping == if doc in old(pumps) && doc !in subs then old(stopping) + {old(pumps)[doc].id} else old(stopping)
    {
      hide Tracked, Served;
      if doc !in subs || s !in subs[doc] {
        RecountSame(subs, pumps, calls, doc);
        return;
      }
      var rest := subs[doc] - {s};
      assert subs[doc] == rest + {s};
      subs := if rest == {} then subs - {doc} else subs[doc := rest];
      if doc in pumps {
        var p := pumps[doc];
        if p.refs <= 1 {
          stopping := stopping + {p.id};
          pumps := pumps - {doc};
        } else {
          pumps := pumps[doc := p.(refs := p.refs - 1)];
        }
      }
    }

    /** The first critical section of `Subscribe`: the subscriber is registered, on the installed pump if there is one. */
    method Enter(doc: Doc) returns (s: Option<SubId>)
      requires Valid()
      modifies `nextID, `subs, `pumps, `calls
      ensures Valid() && (s.None? <==> closed)
      ensures s.None? ==> subs == old(subs) && pumps == old(pumps) && calls == old(calls)
      ensures s.Some? ==>
                && s.value !in old(calls)
                && calls == old(calls)[s.value := if doc in old(pumps) then Returned(doc) else Starting(doc)]
                && subs == old(subs)[doc := (if doc in old(subs) then old(subs)[doc] else {}) + {s.value}]
                && pumps == if doc in old(pumps) then old(pumps)[doc := Pump(old(pumps)[doc].id, old(pumps)[doc].refs + 1)] else old(pumps)
    {
      if closed {
        return None;
      }
      hide Counted, Tracked, Served;
      var id := nextID + 1;
      EnterKeeps(subs, pumps, calls, gone, started, stopping, stopped, doc, id);
      nextID := id;
      subs := Joined(subs, doc, id);
      calls := calls[id := Entered(pumps, doc)];
      pumps := Raised(pumps, doc);
      return Some(id);
    }

    /** `startPump`, off the lock: confirmed by the server, or not. */
    method StartPump(s: SubId, ok: bool)
      requires Valid() && s in calls && calls[s].Starting?
      modifies `calls, `started
      ensures Valid() && calls == old(calls)[s := if ok then Holding(old(calls)[s].doc) else Failing(old(calls)[s].doc)]
      ensures started == if ok then old(started) + {s} else old(started)
    {
      var doc := calls[s].doc;
      if ok {
        calls := calls[s := Holding(doc)];
        started := started + {s};
      } else {
        calls := calls[s := Failing(doc)];
      }
    }

    /** A failed start leaves no subscriber behind. */
    method Fail(s: SubId)
      requires Valid() && s in calls && calls[s].Failing?
      modifies `subs, `pumps, `calls, `stopping, `gone
      ensures Valid() && calls == old(calls)[s := Refused(old(calls)[s].doc)] && gone == old(gone) + {s}
      ensures calls[s].doc in subs ==> s !in subs[calls[s].doc]
    {
      hide Counted, Tracked, Served;
      var doc := calls[s].doc;
      ghost var before := stopping;
      RemovedKeeps(subs, pumps, calls, gone, closed, started, before, stopped, doc, s);
      RemoveSubscriber(doc, s);
      gone := gone + {s};
      RefusedKeeps(subs, pumps, calls, gone, closed, started, stopping, stopped, s);
      calls := calls[s := Refused(doc)];
    }

    /** The second critical section: the pump is installed only for the subscribers there still are. */
    method Install(s: SubId)
      requires Valid() && s in calls && calls[s].Holding?
      modifies `pumps, `calls, `stopping
      ensures Valid()
      ensures calls == old(calls)[s := if closed then Refused(old(calls)[s].doc) else Returned(old(calls)[s].doc)]
      ensures var doc := old(calls)[s].doc;
              if !closed && doc !in old(pumps) && doc in subs
              then pumps == old(pumps)[doc := Pump(s, |subs[doc]|)] && stopping == old(stopping)
              else pumps == old(pumps) && stopping == old(stopping) + {s}
    {
      hide Counted, Tracked, Served;
      var doc := calls[s].doc;
      if closed {
        DiscardKeeps(subs, pumps, calls, gone, closed, started, stopping, stopped, s);
        stopping := stopping + {s};
        calls := calls[s := Refused(doc)];
        return;
      }
      var live := if doc in subs then |subs[doc]| else 0;
      if doc in pumps {
        // A pump in place has subscribers, so the removal the source keeps for none is never reached.
        InstalledIsCounted(subs, pumps, calls, doc);
        assert live > 0;
        pumps := pumps[doc := pumps[doc].(refs := live)];
        assert pumps == old(pumps);
        DiscardKeeps(subs, pumps, calls, gone, closed, started, stopping, stopped, s);
        stopping := stopping + {s};
      } else if live == 0 {
        EmptyIsAbsent(subs, pumps, calls, doc);
        DiscardKeeps(subs, pumps, calls, gone, closed, started, stopping, stopped, s);
        stopping := stopping + {s};
      } else {
        InstallKeeps(subs, pumps, calls, gone, started, stopping, stopped, s);
        pumps := pumps[doc := Pump(s, live)];
      }
      calls := calls[s := Returned(doc)];
    }

    /** `subscription.Close`, at any time and any number of times. */
    method CloseSubscription(s: SubId)
      requires Valid() && s in calls
      modifies `subs, `pumps, `stopping, `gone
      ensures Valid() && gone == old(gone) + {s}
      ensures calls[s].doc in subs ==> s !in subs[calls[s].doc]
    {
      hide Counted, Tracked, Served;
      RemovedKeeps(subs, pumps, calls, gone, closed, started, stopping, stopped, calls[s].doc, s);
      RemoveSubscriber(calls[s].doc, s);
      gone := gone + {s};
    }

    /** `Close`: nothing is registered or installed any more, and every installed pump is about to be stopped. */
    method Close()
      requires Valid()
      modifies `closed, `subs, `pumps, `stopping
      ensures Valid() && closed && subs == map[] && pumps == map[]
      ensures forall d | d in old(pumps) :: old(pumps)[d].id in stopping
    {
      if closed {
        return;
      }
      closed := true;
      stopping := stopping + set d | d in pumps :: pumps[d].id;
      pumps, subs := map[], map[];
    }

    /** `pump.stop`, off the lock. */
    method Stop(p: SubId)
      requires Valid() && p in stopping
      modifies `stopping, `stopped
      ensures Valid() && stopping == old(stopping) - {p} && stopped == old(stopped) + {p}
    {
      stopping := stopping - {p};
      stopped := stopped + {p};
    }

    /** The next step of one call of `Subscribe`. */
    method Proceed(s: SubId, ok: bool)
      requires Valid() && s in calls
      modifies `subs, `pumps, `calls, `stopping, `gone, `started
      ensures Valid() && old(gone) <= gone && calls.Keys == old(calls).Keys
      ensures calls[s] != old(calls)[s] || calls[s].Returned? || calls[s].Refused?
    {
      hide Counted, Served, Tracked;
      match calls[s] {
        case Starting(_) => StartPump(s, ok);
        case Holding(_) => Install(s);
        case Failing(_) => Fail(s);
        case Returned(_) | Refused(_) =>
      }
    }

    /** Any interleaving of subscribers, closings of subscriptions and of the hub. */
    method Run(schedule: seq<Action>)
      requires Valid()
      modifies this
      ensures Valid() && old(stopped) <= stopped && old(gone) <= gone && (old(closed) ==> closed)
    {
      hide Counted, Served, Tracked;
      for i := 0 to |schedule|
        invariant Valid() && old(stopped) <= stopped && old(gone) <= gone && (old(closed) ==> closed)
      {
        match schedule[i] {
          case Subscribing(doc) => var _ := Enter(doc);
          case Proceeding(s, ok) => if s in calls { Proceed(s, ok); }
          case Unsubscribing(s) => if s in calls { CloseSubscription(s); }
          case Stopping(p) => if p in stopping { Stop(p); }
          case Closing => Close();
        }
      }
    }
  }

  /** Whoever holds an open subscription of an open hub has a running pump that counts exactly the live subscribers. */
  lemma SubscribersAreServed(h: Hub, s: SubId)
    requires h.Valid() && !h.closed && s in h.calls && h.calls[s].Returned? && s !in h.gone
    ensures var doc := h.calls[s].doc;
            && doc in h.pumps && doc in h.subs && s in h.subs[doc]
            && h.pumps[doc].refs == |h.subs[doc]| > 0
            && h.pumps[doc].id in h.started && h.pumps[doc].id !in h.stopping + h.stopped
  {
    var doc := h.calls[s].doc;
    assert h.subs[doc] != {};
  }

  /** Nothing leaks: with no call under way, what runs is installed for a document that has a subscriber; and a closed hub runs nothing. */
  lemma NothingLeaks(h: Hub, p: SubId)
    requires h.Valid() && h.stopping == {} && p in h.started && !h.calls[p].Holding?
    ensures p in h.stopped || (Installed(h.pumps, h.calls[p].doc, p) && h.calls[p].doc in h.subs && h.subs[h.calls[p].doc] != {})
    ensures h.closed ==> p in h.stopped
  {}
}
