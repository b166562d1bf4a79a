/**
 * A room's registry and its members' outbound traffic, as values, and the relation that describes
 * what any re-entrant broadcast may do to them (internal/domain/service/room.go).
 */
module RoomNet {
  import opened Basics
  import opened Crdt

  type ConnId = nat
  type ClientId = nat

  datatype Mode = Viewer | Collaborator

  /** A durability request: its identifier, and its position among the frames of its session. */
  datatype Request = Request(id: nat, pos: nat)

  datatype EndCode =
    | UpdateRateExceeded
    | DocumentSizeLimitExceeded
    | DocumentDeleted
    | EditsNotSaved
    | ServerShutdown
    | UpdateNotAccepted
    | ContentRefused
    | Forbidden

  /** What the room sends. */
  datatype Frame =
    | SyncStep2Reply(ops: Doc)
    | UpdateFrame(ops: Doc)
    | AwarenessFrame(first: Option<ClientId>)
    | RemovalFrame(client: ClientId)
    | EphemeralFrame
    | PersistedFrame(req: Request)
    | PersistFailedFrame(req: Request)
    | SavedFrame(version: nat)
    | SaveErrorFrame
    | UserChangeFrame(users: nat)
    | UpdateRejectedFrame
    | SessionEndFrame(code: EndCode)

  datatype Member = Member(
    mode: Mode,
    pending: bool,
    client: Option<ClientId>,
    poisoned: bool,
    barrier: Option<Request>)

  /**
   * `log` holds the frames each connection accepted, `ends` the first end handed to it, and `shed`
   * the connections whose send failed. `quota` is the world's: how many frames a connection will take
   * before it refuses everything.
   */
  datatype Net = Net(
    members: map<ConnId, Member>,
    owners: map<ClientId, ConnId>,
    presence: set<ClientId>,
    log: map<ConnId, seq<Frame>>,
    ends: map<ConnId, EndCode>,
    shed: set<ConnId>,
    connOpened: nat,
    connClosed: nat,
    quota: ConnId -> nat)

  function ActiveIds(members: map<ConnId, Member>): set<ConnId> {
    set k | k in members && !members[k].pending
  }

  ghost predicate OwnersOk(n: Net) {
    forall c | c in n.owners :: n.owners[c] in n.members && n.members[n.owners[c]].client == Some(c)
  }

  /** Nobody is handed an end without its reason having gone out before, or a refusal to take anything any more. */
  ghost predicate ReasonsOk(n: Net) {
    forall k | k in n.ends :: k in n.log && (k in n.shed || Sent(n, k, SessionEndFrame(n.ends[k])) > 0)
  }

  /** Whoever was shed takes nothing any more: it took all it would, or was handed its end. */
  ghost predicate ShedOk(n: Net) {
    forall k | k in n.shed :: k in n.log && (k in n.ends || |n.log[k]| >= n.quota(k))
  }

  /** The connection gauge counts exactly the members that were activated, ends come with their reasons, and nobody is shed without cause. */
  ghost predicate RegistryOk(n: Net) {
    && n.members.Keys <= n.log.Keys
    && n.connOpened == n.connClosed + |ActiveIds(n.members)|
    && ReasonsOk(n) && ShedOk(n)
  }

  /** One attempted send: taken, refused by a connection behind its end, or refused for good. */
  ghost predicate Offered(a: Net, b: Net, id: ConnId, frame: Frame)
    requires id in a.log
  {
    b == if id in a.ends then a
         else if |a.log[id]| < a.quota(id) then a.(log := a.log[id := a.log[id] + [frame]])
         else a.(shed := a.shed + {id})
  }

  ghost predicate NetOk(n: Net) {
    RegistryOk(n) && OwnersOk(n)
  }

  /** How often a connection accepted a frame. */
  function Sent(n: Net, k: ConnId, f: Frame): nat {
    if k in n.log then multiset(n.log[k])[f] else 0
  }

  function Posted(post: map<ConnId, Frame>, k: ConnId, f: Frame): nat {
    if k in post && post[k] == f then 1 else 0
  }

  /** One removal notice for every client evicted on the way, to every visible member. */
  function Evicted(a: Net, b: Net, k: ConnId, f: Frame): nat {
    if f.RemovalFrame? && f.client in a.owners && f.client !in b.owners && k in a.members && !a.members[k].pending
    then 1 else 0
  }

  /**
   * The registry side of a cascade. Members only go away, untouched otherwise; a pending member goes
   * only when addressed directly (`hit`); whoever goes either had a send fail or is in `gone`; and a
   * client loses its presence exactly when the connection that currently owns it went.
   */
  ghost predicate Kept(a: Net, b: Net, hit: set<ConnId>, gone: set<ConnId>) {
    && b.members.Keys <= a.members.Keys
    && (forall k | k in b.members :: b.members[k] == a.members[k])
    && (forall k | k in a.members :: k in b.members || k in hit || !a.members[k].pending)
    && (forall k | k in a.members :: k in b.members || k in b.shed || k in gone)
    && b.owners.Keys <= a.owners.Keys
    && (forall c | c in a.owners :: c in b.owners <==> a.owners[c] in b.members)
    && (forall c | c in b.owners :: b.owners[c] == a.owners[c])
    && b.presence == a.presence - (a.owners.Keys - b.owners.Keys)
    && b.connOpened == a.connOpened
    && b.log.Keys == a.log.Keys
    && b.ends == a.ends
    && a.shed <= b.shed <= a.shed + a.members.Keys
    && b.quota == a.quota
  }

  /**
   * The traffic side. Whoever is still a member got its posted frame exactly once, every removal
   * notice exactly once, and nothing else; whoever went got no more than that.
   */
  ghost predicate Delivered(a: Net, b: Net, post: map<ConnId, Frame>) {
    && (forall k | k in a.log && k !in a.members :: k in b.log && b.log[k] == a.log[k])
    && (forall k, f {:trigger Sent(b, k, f)} ::
          && Sent(a, k, f) <= Sent(b, k, f) <= Sent(a, k, f) + Posted(post, k, f) + Evicted(a, b, k, f)
          && (k in b.members ==> Sent(b, k, f) == Sent(a, k, f) + Posted(post, k, f) + Evicted(a, b, k, f)))
  }

  ghost predicate Casted(a: Net, b: Net, hit: set<ConnId>, gone: set<ConnId>, post: map<ConnId, Frame>) {
    Kept(a, b, hit, gone) && Delivered(a, b, post)
  }

  function ToAll(members: map<ConnId, Member>, except: ConnId, frame: Frame): map<ConnId, Frame> {
    map k | k in members && !members[k].pending && k != except :: frame
  }

  /** A broadcast reaches exactly the visible members but one, once each. */
  lemma BroadcastReaches(a: Net, b: Net, except: ConnId, frame: Frame)
    requires Casted(a, b, {}, {}, ToAll(a.members, except, frame)) && !frame.RemovalFrame?
    ensures forall k | k in b.members ::
              k in a.members && Sent(b, k, frame) == Sent(a, k, frame) + if a.members[k].pending || k == except then 0 else 1
  {
    assert forall k | k in b.members :: Sent(b, k, frame) == Sent(a, k, frame) + Posted(ToAll(a.members, except, frame), k, frame);
  }

  lemma CastedRefl(a: Net)
    requires NetOk(a)
    ensures Casted(a, a, {}, {}, map[])
  {
    forall k, f ensures Posted(map[], k, f) == 0 && Evicted(a, a, k, f) == 0 {}
  }

  lemma KeptTrans(a: Net, b: Net, c: Net, h: set<ConnId>, i: set<ConnId>, g: set<ConnId>, j: set<ConnId>)
    requires NetOk(a) && Kept(a, b, h, g) && Kept(b, c, i, j)
    ensures Kept(a, c, h + i, g + j)
  {
    assert forall x | x in a.owners :: a.owners[x] in a.members;
    forall k | k in a.members && k !in c.members
      ensures k in h + i || !a.members[k].pending
      ensures k in c.shed || k in g + j
    {
      if k in b.members {
        assert b.members[k] == a.members[k];
      }
    }
  }

  lemma EvictedTrans(a: Net, b: Net, c: Net, h: set<ConnId>, i: set<ConnId>, g: set<ConnId>, j: set<ConnId>, k: ConnId, f: Frame)
    requires Kept(a, b, h, g) && Kept(b, c, i, j)
    ensures k in b.members ==> Evicted(a, c, k, f) == Evicted(a, b, k, f) + Evicted(b, c, k, f)
    ensures k in a.members && k !in b.members ==> Evicted(a, c, k, f) >= Evicted(a, b, k, f)
    ensures k !in b.members ==> Evicted(b, c, k, f) == 0
  {}

  /** Cascades compose: what was posted and evicted adds up, nothing is counted twice. */
  lemma CastedTrans(a: Net, b: Net, c: Net, h: set<ConnId>, i: set<ConnId>, g: set<ConnId>, j: set<ConnId>,
                    p: map<ConnId, Frame>, q: map<ConnId, Frame>)
    requires NetOk(a)
    requires Casted(a, b, h, g, p) && Casted(b, c, i, j, q)
    requires p.Keys !! q.Keys && q.Keys <= b.members.Keys
    ensures Casted(a, c, h + i, g + j, p + q)
  {
    KeptTrans(a, b, c, h, i, g, j);
    forall k, f
      ensures Sent(a, k, f) <= Sent(c, k, f) <= Sent(a, k, f) + Posted(p + q, k, f) + Evicted(a, c, k, f)
      ensures k in c.members ==> Sent(c, k, f) == Sent(a, k, f) + Posted(p + q, k, f) + Evicted(a, c, k, f)
    {
      assert Posted(p + q, k, f) == Posted(p, k, f) + Posted(q, k, f);
      assert Sent(b, k, f) <= Sent(c, k, f) <= Sent(b, k, f) + Posted(q, k, f) + Evicted(b, c, k, f);
      assert Sent(a, k, f) <= Sent(b, k, f) <= Sent(a, k, f) + Posted(p, k, f) + Evicted(a, b, k, f);
      EvictedTrans(a, b, c, h, i, g, j, k, f);
    }
  }

  lemma Shrinks(a: Net, b: Net, h: set<ConnId>, g: set<ConnId>, p: map<ConnId, Frame>)
    requires Casted(a, b, h, g, p)
    ensures |b.members| <= |a.members|
  {
    SubsetSize(b.members.Keys, a.members.Keys);
  }

  /** A frame posted to a connection that went may be counted as posted or not. */
  lemma Repost(a: Net, b: Net, h: set<ConnId>, g: set<ConnId>, p: map<ConnId, Frame>, q: map<ConnId, Frame>)
    requires Casted(a, b, h, g, p)
    requires forall k | k in b.members :: (k in p <==> k in q) && (k in p ==> p[k] == q[k])
    requires forall k | k in p :: k in q && p[k] == q[k]
    ensures Casted(a, b, h, g, q)
  {
    forall k, f
      ensures Sent(a, k, f) <= Sent(b, k, f) <= Sent(a, k, f) + Posted(q, k, f) + Evicted(a, b, k, f)
      ensures k in b.members ==> Sent(b, k, f) == Sent(a, k, f) + Posted(q, k, f) + Evicted(a, b, k, f)
    {
      assert Posted(p, k, f) <= Posted(q, k, f);
    }
  }

  lemma Unhit(a: Net, b: Net, id: ConnId, g: set<ConnId>, post: map<ConnId, Frame>)
    requires id in a.members && !a.members[id].pending
    requires Casted(a, b, {} + {id}, g, post)
    ensures Casted(a, b, {}, g, post)
  {}

  lemma SentCasted(a: Net, b: Net, id: ConnId, frame: Frame)
    requires NetOk(a) && id in a.members
    requires b == a.(log := a.log[id := a.log[id] + [frame]])
    ensures NetOk(b) && Casted(a, b, {id}, {}, map[id := frame])
  {
    assert forall k, f :: Sent(a, k, f) <= Sent(b, k, f);
    assert multiset(a.log[id] + [frame]) == multiset(a.log[id]) + multiset{frame};
  }

  /** The state right after a member was taken out, before anyone is told. */
  predicate Owns(a: Net, id: ConnId)
    requires id in a.members
  {
    var m := a.members[id];
    m.client.Some? && m.client.value in a.owners && a.owners[m.client.value] == id
  }

  ghost predicate Deregistered(a: Net, b: Net, id: ConnId) {
    && id in a.members
    && b.members == a.members - {id}
    && b.log == a.log && b.ends == a.ends && b.shed == a.shed && b.quota == a.quota
    && b.connOpened == a.connOpened
    && b.connClosed == a.connClosed + (if a.members[id].pending then 0 else 1)
    && (if Owns(a, id)
        then b.owners == a.owners - {a.members[id].client.value} && b.presence == a.presence - {a.members[id].client.value}
        else b.owners == a.owners && b.presence == a.presence)
  }

  lemma DeregisteredOk(a: Net, b: Net, id: ConnId)
    requires NetOk(a) && Deregistered(a, b, id)
    ensures NetOk(b)
    ensures !Owns(a, id) ==> Casted(a, b, {id}, {id}, map[])
    ensures |b.members| < |a.members|
  {
    assert ActiveIds(b.members) == ActiveIds(a.members) - {id};
    assert b.members.Keys == a.members.Keys - {id};
    if !Owns(a, id) {
      forall k, f ensures Posted(map[], k, f) == 0 && Evicted(a, b, k, f) == 0 && Sent(a, k, f) == Sent(b, k, f) {}
    }
  }

  lemma EvictKept(a: Net, b: Net, c: Net, id: ConnId)
    requires NetOk(a) && Deregistered(a, b, id) && Kept(b, c, {}, {})
    ensures Kept(a, c, {id}, {id})
  {}

  /** Taking out the owner of a client and telling the rest is a cascade that posts nothing. */
  lemma EvictCasted(a: Net, b: Net, c: Net, id: ConnId)
    requires NetOk(a) && id in a.members && Owns(a, id) && Deregistered(a, b, id)
    requires Casted(b, c, {}, {}, ToAll(b.members, id, RemovalFrame(a.members[id].client.value)))
    ensures Casted(a, c, {id}, {id}, map[])
  {
    var p := ToAll(b.members, id, RemovalFrame(a.members[id].client.value));
    EvictKept(a, b, c, id);
    forall k, f
      ensures Sent(a, k, f) <= Sent(c, k, f) <= Sent(a, k, f) + Posted(map[], k, f) + Evicted(a, c, k, f)
      ensures k in c.members ==> Sent(c, k, f) == Sent(a, k, f) + Posted(map[], k, f) + Evicted(a, c, k, f)
    {
      assert Sent(b, k, f) <= Sent(c, k, f) <= Sent(b, k, f) + Posted(p, k, f) + Evicted(b, c, k, f);
      assert Sent(b, k, f) == Sent(a, k, f);
    }
  }

  /** What remains of a cascade when its traffic is forgotten; a barrier may have been cleared on the way. */
  ghost predicate Thinned(a: Net, b: Net, gone: set<ConnId>) {
    && b.members.Keys <= a.members.Keys
    && (forall k | k in b.members ::
          b.members[k] == a.members[k] || b.members[k] == a.members[k].(barrier := None))
    && (forall k | k in a.members :: k in b.members || k in b.shed || k in gone)
    && b.owners.Keys <= a.owners.Keys
    && (forall c | c in a.owners :: c in b.owners <==> a.owners[c] in b.members)
    && (forall c | c in b.owners :: b.owners[c] == a.owners[c])
    && b.presence == a.presence - (a.owners.Keys - b.owners.Keys)
    && b.connOpened == a.connOpened
    && b.log.Keys == a.log.Keys
    && b.ends == a.ends
    && a.shed <= b.shed && b.quota == a.quota
    && (forall k, f {:trigger Sent(b, k, f)} :: Sent(a, k, f) <= Sent(b, k, f))
  }

  lemma CastedThins(a: Net, b: Net, hit: set<ConnId>, gone: set<ConnId>, post: map<ConnId, Frame>)
    requires Casted(a, b, hit, gone, post)
    ensures Thinned(a, b, gone)
  {}

  lemma ThinnedRefl(a: Net)
    requires NetOk(a)
    ensures Thinned(a, a, {})
  {}

  lemma ThinnedTrans(a: Net, b: Net, c: Net, g: set<ConnId>, j: set<ConnId>)
    requires NetOk(a) && Thinned(a, b, g) && Thinned(b, c, j)
    ensures Thinned(a, c, g + j)
  {
    forall k, f ensures Sent(a, k, f) <= Sent(c, k, f) {
      assert Sent(a, k, f) <= Sent(b, k, f) <= Sent(c, k, f);
    }
    assert forall x | x in a.owners :: a.owners[x] in a.members;
  }

  /**
   * What a whole step does to the registry from the point of view of its members: nobody is added,
   * nobody changes role, requests only get answered, and whoever went was handed an end or shed.
   */
  ghost predicate Evolved(a: Net, b: Net) {
    && b.members.Keys <= a.members.Keys
    && (forall k | k in b.members ::
          && b.members[k].mode == a.members[k].mode && b.members[k].poisoned == a.members[k].poisoned
          && (b.members[k].barrier == a.members[k].barrier || b.members[k].barrier == None))
    && (forall k | k in a.members :: k in b.members || k in b.shed || k in b.ends)
    && a.shed <= b.shed && b.quota == a.quota
    && (forall k | k in a.ends :: k in b.ends && b.ends[k] == a.ends[k])
    && b.log.Keys == a.log.Keys
  }

  lemma EvolvedRefl(a: Net)
    ensures Evolved(a, a)
  {}

  lemma EvolvedTrans(a: Net, b: Net, c: Net)
    requires Evolved(a, b) && Evolved(b, c)
    ensures Evolved(a, c)
  {}

  lemma ThinnedEvolves(a: Net, b: Net)
    requires Thinned(a, b, {})
    ensures Evolved(a, b)
  {}

  /** No registered member was refused a write, and only writers of an unsaved document wait for a flush. */
  ghost predicate BarriersOk(n: Net, unsaved: bool) {
    forall k | k in n.members ::
      && !n.members[k].poisoned
      && (n.members[k].barrier.Some? ==> unsaved && n.members[k].mode == Collaborator)
  }

  lemma EvolvedBarriers(a: Net, b: Net, before: bool, after: bool)
    requires Evolved(a, b) && BarriersOk(a, before) && (before ==> after)
    ensures BarriersOk(b, after)
  {}
}
