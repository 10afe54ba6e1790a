/**
 * The session store: a reducer over `{user, loading}` that also mirrors the
 * signed-in user into durable storage, and the provider that owns the store
 * and restores it from storage when the application mounts.
 */
module AuthContext {
  import opened Wrappers
  import opened Storage
  import Browser

  /** The store's state object. `others` stands for every further property the
      object may carry; the reducer copies them with `...state`. */
  datatype State = State(user: Option<Profile>, loading: bool, others: map<string, string>)

  /** A dispatched action. `Other(kind)` is any object whose `type` is none of
      "LOGIN", "LOGOUT" and "SET_LOADING". */
  datatype Action = Login(payload: Profile) | Logout | SetLoading | Other(kind: string)

  /** The `Error` the reducer throws for an action it does not know
      ("Unknown action: " followed by its type). */
  datatype AuthError = UnknownAction(kind: string)

  /** What a reducer call yields: the next state and the store after its side effect. */
  datatype Step = Step(state: State, store: Store)

  /** The state `useReducer` starts from: no user, still loading. */
  const InitialState: State := State(None, true, map[])

  /**
   * `authReducer` with its storage side effect made explicit. Only the
   * "user" key of the store is ever touched, and every property of the state
   * other than `user` and `loading` survives.
   */
  function Reduce(s: State, a: Action, store: Store): (r: Result<Step, AuthError>)
    ensures r.Failure? <==> a.Other?
    ensures a.Other? ==> r == Failure(UnknownAction(a.kind))
    ensures r.Success? ==> r.value.state.others == s.others
    ensures r.Success? ==> r.value.store - {UserKey} == store - {UserKey}
    ensures a.Login? ==> r.Success? && r.value.state.user == Some(a.payload) && !r.value.state.loading
                         && ParseItem(r.value.store, UserKey) == Success(Some(a.payload))
    ensures a.Logout? ==> r.Success? && r.value.state.user.None? && !r.value.state.loading
                          && UserKey !in r.value.store
    ensures a.SetLoading? ==> r.Success? && r.value.state.user == s.user && r.value.state.loading
                              && r.value.store == store
  {
    match a
    case Login(p) => Success(Step(s.(user := Some(p), loading := false), store[UserKey := Serialize(p)]))
    case Logout => Success(Step(s.(user := None, loading := false), store - {UserKey}))
    case SetLoading => Success(Step(s.(loading := true), store))
    case Other(kind) => Failure(UnknownAction(kind))
  }

  /** Dispatching a sequence of actions in order; the first unknown one throws. */
  function ReduceAll(s: State, store: Store, actions: seq<Action>): (r: Result<Step, AuthError>)
    ensures r.Success? ==> r.value.state.others == s.others
    ensures r.Success? ==> r.value.store - {UserKey} == store - {UserKey}
    decreases |actions|
  {
    if actions == [] then Success(Step(s, store))
    else match Reduce(s, actions[0], store)
      case Failure(e) => Failure(e)
      case Success(next) => ReduceAll(next.state, next.store, actions[1..])
  }

  /** A sequence of dispatches throws exactly when it holds an unknown action,
      and the error names one of them. */
  lemma {:induction false} ReduceAllFailsIffUnknown(s: State, store: Store, actions: seq<Action>)
    ensures ReduceAll(s, store, actions).Failure? <==> exists i :: 0 <= i < |actions| && actions[i].Other?
    ensures ReduceAll(s, store, actions).Failure? ==> Other(ReduceAll(s, store, actions).error.kind) in actions
    decreases |actions|
  {
    if actions != [] {
      if actions[0].Other? {
        assert actions[0] == Other(ReduceAll(s, store, actions).error.kind);
      } else {
        var next := Reduce(s, actions[0], store).value;
        ReduceAllFailsIffUnknown(next.state, next.store, actions[1..]);
        if exists i :: 0 <= i < |actions| && actions[i].Other? {
          var i :| 0 <= i < |actions| && actions[i].Other?;
          assert actions[1..][i - 1].Other?;
        }
        if ReduceAll(s, store, actions).Failure? {
          assert forall x :: x in actions[1..] ==> x in actions;
        }
      }
    }
  }

  /** The user a fresh page load would restore from the store. */
  function Restored(store: Store): Option<Profile>
  {
    match ParseItem(store, UserKey)
    case Success(Some(p)) => Some(p)
    case _ => None
  }

  /** The in-memory user and the persisted record agree: reloading the page
      would come back with the same user. */
  predicate Synced(s: State, store: Store)
  {
    Restored(store) == s.user
  }

  /** Every handled action keeps the store in step with the persisted record. */
  lemma ReduceKeepsSynced(s: State, a: Action, store: Store)
    requires Synced(s, store)
    requires !a.Other?
    ensures Synced(Reduce(s, a, store).value.state, Reduce(s, a, store).value.store)
  {
  }

  /** Any sequence of handled dispatches keeps the store in step. */
  lemma {:induction false} ReduceAllKeepsSynced(s: State, store: Store, actions: seq<Action>)
    requires Synced(s, store)
    ensures ReduceAll(s, store, actions).Success? ==>
              Synced(ReduceAll(s, store, actions).value.state, ReduceAll(s, store, actions).value.store)
    decreases |actions|
  {
    if actions != [] && !actions[0].Other? {
      ReduceKeepsSynced(s, actions[0], store);
      var next := Reduce(s, actions[0], store).value;
      ReduceAllKeepsSynced(next.state, next.store, actions[1..]);
    }
  }

  /**
   * The provider's mount effect: SET_LOADING, then LOGIN with the stored record
   * when one parses to a truthy value, otherwise SET_LOADING again (also when
   * parsing throws). The second SET_LOADING leaves `loading` true, whatever the
   * comments beside it intend.
   */
  function Startup(s: State, store: Store): (r: Step)
    ensures r.store == store
    ensures r.state.others == s.others
    ensures Restored(store).Some? ==> r.state.user == Restored(store) && !r.state.loading
    ensures Restored(store).None? ==> r.state.user == s.user && r.state.loading
  {
    var first := Reduce(s, SetLoading, store).value;
    match ParseItem(first.store, UserKey)
    case Success(Some(p)) => Reduce(first.state, Login(p), first.store).value
    case Success(None) => Reduce(first.state, SetLoading, first.store).value
    case Failure(_) => Reduce(first.state, SetLoading, first.store).value
  }

  /** From the initial state, startup either restores the stored user and stops
      loading, or ends exactly where it began: no user and still loading. */
  lemma StartupFromInitialState(store: Store)
    ensures Restored(store).Some? ==>
              Startup(InitialState, store).state == State(Restored(store), false, map[])
    ensures Restored(store).None? ==> Startup(InitialState, store).state == InitialState
  {
  }

  /** After startup from the initial state the store is in step with storage. */
  lemma StartupSyncs(store: Store)
    ensures Synced(Startup(InitialState, store).state, store)
  {
  }

  /**
   * Persistence works: after startup and any sequence of handled dispatches
   * (sign-in, sign-out, loading), reloading the page restores exactly the user
   * the store held.
   */
  lemma ReloadRestoresSession(store: Store, actions: seq<Action>)
    ensures var boot := Startup(InitialState, store);
            var run := ReduceAll(boot.state, boot.store, actions);
            run.Success? ==> Startup(InitialState, run.value.store).state.user == run.value.state.user
  {
    var boot := Startup(InitialState, store);
    StartupSyncs(store);
    ReduceAllKeepsSynced(boot.state, boot.store, actions);
  }

  /** Signing out twice is the same as signing out once, for state and storage. */
  lemma LogoutIdempotent(s: State, store: Store)
    ensures var once := Reduce(s, Logout, store).value;
            Reduce(once.state, Logout, once.store) == Success(once)
  {
  }

  /** The provider: owns the reducer's state and writes through to the window's storage. */
  class AuthProvider {
    var state: State
    const window: Browser.Window

    constructor (window: Browser.Window)
      ensures state == InitialState && this.window == window
    {
      state := InitialState;
      this.window := window;
    }

    /** `dispatch(action)` with the reducer applied at once. `Fail` marks the
        reducer's throw on an unknown type; the state and storage stay as they were. */
    method Dispatch(a: Action) returns (outcome: Outcome<AuthError>)
      modifies this, window`localStorage
      ensures Reduce(old(state), a, old(window.localStorage)).Success? ==>
                outcome == Pass
                && state == Reduce(old(state), a, old(window.localStorage)).value.state
                && window.localStorage == Reduce(old(state), a, old(window.localStorage)).value.store
      ensures Reduce(old(state), a, old(window.localStorage)).Failure? ==>
                outcome == Fail(Reduce(old(state), a, old(window.localStorage)).error)
                && state == old(state) && window.localStorage == old(window.localStorage)
    {
      match Reduce(state, a, window.localStorage)
      case Success(next) =>
        state := next.state;
        window.localStorage := next.store;
        outcome := Pass;
      case Failure(e) =>
        outcome := Fail(e);
    }

    /** The mount effect, as the sequence of dispatches it issues. */
    method Restore()
      modifies this, window`localStorage
      ensures Step(state, window.localStorage) == Startup(old(state), old(window.localStorage))
    {
      var first := Dispatch(SetLoading);
      var second: Outcome<AuthError>;
      match ParseItem(window.localStorage, UserKey)
      case Success(Some(p)) =>
        second := Dispatch(Login(p));
      case Success(None) =>
        second := Dispatch(SetLoading);
      case Failure(_) =>
        second := Dispatch(SetLoading);
    }
  }
}
