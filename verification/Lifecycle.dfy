/** The state of one room and who may end it (internal/domain/service/lifecycle_state.go). */
module Lifecycle {

  /** `Active` is the only phase in which new work is admitted; `Closed` is final. */
  datatype Phase = Materializing | Active | Draining | Closed

  /** `legalTransition`: the complete set of edges. */
  predicate LegalTransition(from: Phase, to: Phase) {
    match from
    case Materializing => to == Active || to == Draining
    case Active => to == Draining
    case Draining => to == Closed
    case Closed => false
  }

  predicate Live(p: Phase) {
    p == Materializing || p == Active
  }

  function Rank(p: Phase): nat {
    match p
    case Materializing => 0
    case Active => 1
    case Draining => 2
    case Closed => 3
  }

  /** Where a caller of `beginTeardown` is: about to load, holding what it loaded, done. `tries` counts its failed swaps. */
  datatype Claim = Loading(tries: nat) | Loaded(seen: Phase, tries: nat) | Won | Lost

  ghost predicate ClaimOk(c: Claim, state: Phase) {
    match c
    case Loading(tries) => tries <= Rank(state)
    case Loaded(seen, tries) => Live(seen) && tries <= Rank(seen) <= Rank(state)
    case Won => !Live(state)
    case Lost => !Live(state)
  }

  ghost predicate LegalPath(path: seq<Phase>) {
    forall i | 0 < i < |path| :: LegalTransition(path[i - 1], path[i])
  }

  datatype Action = Activating | Claiming(t: nat) | Proceeding(t: nat)

  /** The atomic state, and any number of concurrent callers of `beginTeardown`. */
  class RoomState {
    var state: Phase
    var claims: map<nat, Claim>
    ghost var winner: set<nat>
    ghost var path: seq<Phase>

    /** Nobody skips draining, and exactly one caller owns the teardown of a room that left its live phases. */
    ghost predicate Valid()
      reads this
    {
      && path != [] && path[0] == Materializing && path[|path| - 1] == state && LegalPath(path)
      && (forall t | t in claims :: ClaimOk(claims[t], state))
      && (forall t | t in claims :: claims[t] == Won <==> t in winner)
      && winner <= claims.Keys
      && |winner| == if Live(state) then 0 else 1
    }

    constructor ()
      ensures Valid() && state == Materializing && claims == map[]
    {
      state, claims, winner, path := Materializing, map[], {}, [Materializing];
    }

    /** `activate`. */
    method Activate() returns (ok: bool)
      requires Valid()
      modifies `state, `path
      ensures Valid() && ok == (old(state) == Materializing) && state == (if ok then Active else old(state)) && old(path) <= path
    {
      ok := state == Materializing;
      if ok {
        state := Active;
        path := path + [Active];
      }
    }

    method Begin(t: nat)
      requires Valid() && t !in claims
      modifies `claims
      ensures Valid() && claims == old(claims)[t := Loading(0)]
    {
      claims := claims[t := Loading(0)];
    }

    /** The load at the top of the loop: a room already draining or closed has an owner. */
    method Load(t: nat)
      requires Valid() && t in claims && claims[t].Loading?
      modifies `claims
      ensures Valid()
      ensures claims == old(claims)[t := if state == Materializing || state == Active then Loaded(state, old(claims)[t].tries) else Lost]
    {
      assert ClaimOk(claims[t], state);
      claims := claims[t := if Live(state) then Loaded(state, claims[t].tries) else Lost];
    }

    /** The swap: it wins, or somebody advanced the state in between. No caller comes round a third time. */
    method Swap(t: nat)
      requires Valid() && t in claims && claims[t].Loaded?
      modifies `state, `claims, `winner, `path
      ensures Valid()
      ensures claims == old(claims)[t := if old(state) == old(claims)[t].seen then Won else Loading(old(claims)[t].tries + 1)]
      ensures claims[t].Loading? ==> claims[t].tries <= 2
      ensures state == (if claims[t].Won? then Draining else old(state)) && old(path) <= path
    {
      assert ClaimOk(claims[t], state);
      if state == claims[t].seen {
        state := Draining;
        path := path + [Draining];
        claims := claims[t := Won];
        winner := {t};
      } else {
        claims := claims[t := Loading(claims[t].tries + 1)];
      }
    }

    /** `finishDraining`, by the owner of the teardown. */
    method Finish(t: nat) returns (ok: bool)
      requires Valid() && t in claims && claims[t] == Won
      modifies `state, `path
      ensures Valid() && ok == (old(state) == Draining) && state == Closed && old(path) <= path
    {
      ok := state == Draining;
      if ok {
        state := Closed;
        path := path + [Closed];
      }
    }

    /** Any interleaving of an activation and callers that want the room down: its history only ever grows along legal edges. */
    method Run(schedule: seq<Action>)
      requires Valid()
      modifies this
      ensures Valid() && old(path) <= path
    {
      for i := 0 to |schedule|
        invariant Valid() && old(path) <= path
      {
        match schedule[i] {
          case Activating => var _ := Activate();
          case Claiming(t) => if t !in claims { Begin(t); }
          case Proceeding(t) =>
            if t in claims {
              match claims[t] {
                case Loading(_) => Load(t);
                case Loaded(_, _) => Swap(t);
                case Won => var _ := Finish(t);
                case Lost =>
              }
            }
        }
      }
    }
  }

  /** Two owners of one teardown are one. */
  lemma OneOwner(r: RoomState, s: nat, t: nat)
    requires r.Valid() && s in r.claims && t in r.claims && r.claims[s] == Won && r.claims[t] == Won
    ensures s == t
  {
    if s != t {
      SingletonOnly(r.winner, s, t);
    }
  }

  lemma SingletonOnly(w: set<nat>, s: nat, t: nat)
    requires s in w && t in w && s != t
    ensures |w| > 1
  {
    assert w == {s} + (w - {s});
    assert t in w - {s};
  }

  /** Phases only ever advance, so every phase is entered at most once. */
  lemma {:induction false} PathAdvances(path: seq<Phase>, i: nat, j: nat)
    requires LegalPath(path) && i < j < |path|
    ensures Rank(path[i]) < Rank(path[j])
  {
    if i + 1 < j {
      PathAdvances(path, i, j - 1);
    }
    assert LegalTransition(path[j - 1], path[j]);
  }

  /** No room is closed without having drained, immediately before. */
  lemma ClosedOnlyByDraining(path: seq<Phase>, i: nat)
    requires LegalPath(path) && path != [] && path[0] == Materializing && i < |path| && path[i] == Closed
    ensures 0 < i && path[i - 1] == Draining && i == |path| - 1
    ensures forall k | 0 <= k < |path| && path[k] == Draining :: k == i - 1
  {
    assert LegalTransition(path[i - 1], path[i]);
    if i < |path| - 1 {
      PathAdvances(path, i, i + 1);
    }
    forall k | 0 <= k < |path| && path[k] == Draining ensures k == i - 1 {
      if k < i - 1 {
        PathAdvances(path, k, i - 1);
      }
    }
  }
}
