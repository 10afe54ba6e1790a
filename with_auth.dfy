/**
 * The route guard `withAuth`: a wrapped page renders only when the session
 * store holds a user; otherwise it renders nothing and asks the router to go
 * to the home page.
 */
module WithAuth {
  import opened Wrappers
  import opened Storage
  import opened AuthContext
  import FetchClient

  const HomePath: string := "/"

  /** What the guard renders: nothing (`null`), or the wrapped component with these props. */
  datatype View<P> = Nothing | Wrapped(props: P)

  /** One render of the guard: the view, and the path its effect pushes, if any. */
  datatype Decision<P> = Decision(view: View<P>, redirect: Option<string>)

  /**
   * The guard's decision for a store state. It reads `user` alone: the
   * wrapped page is rendered with exactly the incoming props when a user is
   * present; with none, nothing is rendered and the router is sent home (not to
   * the sign-in page).
   */
  function Guard<P>(s: State, props: P): (d: Decision<P>)
    ensures d.view == Wrapped(props) <==> s.user.Some?
    ensures d.view == Nothing <==> s.user.None?
    ensures d.redirect.Some? <==> s.user.None?
    ensures d.redirect.Some? ==> d.redirect.value == HomePath && d.redirect.value != FetchClient.SignInPath
  {
    if s.user.None? then Decision(Nothing, Some(HomePath))
    else Decision(Wrapped(props), None)
  }

  /** Exactly one of the two happens: the page renders, or a redirect is requested. */
  lemma RenderOrRedirect<P>(s: State, props: P)
    ensures Guard(s, props).view.Wrapped? != Guard(s, props).redirect.Some?
  {
  }

  /** `loading` plays no part: two states with the same user get the same decision. */
  lemma GuardIgnoresLoading<P>(s1: State, s2: State, props: P)
    requires s1.user == s2.user
    ensures Guard(s1, props) == Guard(s2, props)
  {
  }

  /** Before the mount effect restores the session, the guard already sends a
      signed-in visitor home: the initial state has no user, though it is loading. */
  lemma GuardRedirectsBeforeRestore<P>(props: P)
    ensures InitialState.loading
    ensures Guard(InitialState, props) == Decision(Nothing, Some(HomePath))
  {
  }

  /** Once startup has run, the guard renders the page exactly when a record was stored. */
  lemma GuardAfterStartup<P>(store: Store, props: P)
    ensures Guard(Startup(InitialState, store).state, props).view.Wrapped? <==> Restored(store).Some?
  {
  }

  /** After sign-out the guard always redirects home. */
  lemma GuardAfterLogout<P>(s: State, store: Store, props: P)
    ensures Guard(Reduce(s, Logout, store).value.state, props) == Decision(Nothing, Some(HomePath))
  {
  }
}
