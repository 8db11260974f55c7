/**
  * `session.slice.ts`: the signed-in session and whether the first
  * session fetch has settled, with its three transitions.
  */
module SessionSlice {
  import opened Js

  /** The session as the server returns it. */
  datatype Session = Session(id: string, name: string, email: string, roles: seq<string>)

  /** `SessionInterface` */
  datatype SessionState = SessionState(session: Option<Session>, isSessionReady: bool)

  /** `logout`, `fetchSession.fulfilled` with `payload.session`, `fetchSession.rejected`. */
  datatype Action = Logout | Fulfilled(session: Option<Session>) | Rejected

  const InitialState := SessionState(None, false)

  /** The reducer, as a function of the state and the action. */
  function Reduce(s: SessionState, a: Action): (r: SessionState)
    ensures a.Logout? ==> r.session.None? && r.isSessionReady == s.isSessionReady
    ensures a.Fulfilled? ==> r.session == a.session && r.isSessionReady
    ensures a.Rejected? ==> r.session.None? && r.isSessionReady
  {
    match a
    case Logout => s.(session := None)
    case Fulfilled(session) => SessionState(session, true)
    case Rejected => SessionState(None, true)
  }

  /** The state after a sequence of actions, in order. */
  function ReduceAll(s: SessionState, actions: seq<Action>): SessionState
    decreases |actions|
  {
    if actions == [] then s else ReduceAll(Reduce(s, actions[0]), actions[1..])
  }

  /** No transition sets `isSessionReady` back to false. */
  lemma {:induction false} ReadyStaysReady(s: SessionState, actions: seq<Action>)
    requires s.isSessionReady
    ensures ReduceAll(s, actions).isSessionReady
    decreases |actions|
  {
    if actions != [] {
      ReadyStaysReady(Reduce(s, actions[0]), actions[1..]);
    }
  }

  /** From the initial state the session is ready exactly once some fetch has settled. */
  lemma {:induction false} ReadyIffFetchSettled(s: SessionState, actions: seq<Action>)
    requires !s.isSessionReady
    ensures ReduceAll(s, actions).isSessionReady <==>
      exists i :: 0 <= i < |actions| && !actions[i].Logout?
    decreases |actions|
  {
    if actions != [] {
      var next := Reduce(s, actions[0]);
      if actions[0].Logout? {
        ReadyIffFetchSettled(next, actions[1..]);
        if exists i :: 0 <= i < |actions| && !actions[i].Logout? {
          var i :| 0 <= i < |actions| && !actions[i].Logout?;
          assert actions[1..][i - 1] == actions[i];
        }
        if exists j :: 0 <= j < |actions[1..]| && !actions[1..][j].Logout? {
          var j :| 0 <= j < |actions[1..]| && !actions[1..][j].Logout?;
          assert actions[j + 1] == actions[1..][j];
        }
      } else {
        ReadyStaysReady(next, actions[1..]);
        assert !actions[0].Logout?;
      }
    }
  }

  /** Logging out twice is logging out once. */
  lemma LogoutIdempotent(s: SessionState)
    ensures Reduce(Reduce(s, Logout), Logout) == Reduce(s, Logout)
  {
  }

  /** A logout before the first fetch settles leaves the state initial. */
  lemma EarlyLogoutKeepsInitial()
    ensures Reduce(InitialState, Logout) == InitialState
  {
  }

  /** The store's state, updated in place by the reducers. */
  class SessionStore {
    var session: Option<Session>
    var isSessionReady: bool

    function State(): SessionState
      reads this
    {
      SessionState(session, isSessionReady)
    }

    /** `initialState` */
    constructor ()
      ensures State() == InitialState
    {
      session := None;
      isSessionReady := false;
    }

    /** `logout`: drop the session; readiness unchanged. */
    method Logout()
      modifies this
      ensures session.None? && isSessionReady == old(isSessionReady)
      ensures State() == Reduce(old(State()), Action.Logout)
    {
      session := None;
    }

    /** `fetchSession.fulfilled` */
    method Fulfilled(payloadSession: Option<Session>)
      modifies this
      ensures session == payloadSession && isSessionReady
      ensures State() == Reduce(old(State()), Action.Fulfilled(payloadSession))
    {
      session := payloadSession;
      isSessionReady := true;
    }

    /** `fetchSession.rejected` */
    method Rejected()
      modifies this
      ensures session.None? && isSessionReady
      ensures State() == Reduce(old(State()), Action.Rejected)
    {
      session := None;
      isSessionReady := true;
    }
  }
}
