/** The session synchroniser: the protected-route component installs the
    initial session into the auth store, overwrites it on every auth event,
    redirects when an event carries no session, and renders either a
    redirect or the nested routes. */
module ProtectedRoute {
  import opened Outcomes
  import Store

  const AuthPath := "/auth"

  /** What the component renders. */
  datatype View = RedirectTo(path: string) | NestedRoutes

  /** The kind of an auth-state event; the handler ignores it. */
  datatype AuthEvent = SignedIn | SignedOut | TokenRefreshed | UserUpdated | InitialSession | PasswordRecovery

  /** `session?.user ?? null`. */
  function UserOf(session: Option<Session>): (u: Option<User>)
    ensures u.Some? <==> session.Some?
    ensures session.Some? ==> u.value == session.value.user
  {
    if session.Some? then Some(session.value.user) else None
  }

  /** The render gate. */
  function Render(user: Option<User>): (v: View)
    ensures v == RedirectTo(AuthPath) <==> user.None?
    ensures v == NestedRoutes <==> user.Some?
  {
    if user.None? then RedirectTo(AuthPath) else NestedRoutes
  }

  class ProtectedRoute {
    const store: Store.AuthStore
    /** Whether the auth-state listener is registered. */
    var subscribed: bool

    constructor (store: Store.AuthStore)
      ensures this.store == store && !subscribed
    {
      this.store := store;
      subscribed := false;
    }

    /** The mount effect: requests the current session (its answer arrives in
        `SessionLoaded`) and registers the auth-state listener. */
    method Mount()
      modifies this
      ensures subscribed
    {
      subscribed := true;
    }

    /** The `getSession().then(...)` continuation. A rejected request has no
        handler and changes nothing; a late answer after unmount still writes
        the store. */
    method SessionLoaded(outcome: Settled<Option<Session>>)
      modifies store
      ensures outcome.Returned? ==> store.user == UserOf(outcome.value)
      ensures outcome.Threw? ==> store.user == old(store.user)
    {
      if outcome.Returned? {
        store.SetUser(UserOf(outcome.value));
      }
    }

    /** The `onAuthStateChange` listener: whatever the event kind, the store
        becomes the session's user or none, and an event without a session
        navigates to the auth page even if the store was already empty.
        After unmount the listener is gone and nothing happens. */
    method AuthStateChanged(event: AuthEvent, session: Option<Session>) returns (navigateTo: Option<string>)
      modifies store
      ensures subscribed ==> store.user == UserOf(session)
      ensures !subscribed ==> store.user == old(store.user)
      ensures navigateTo == (if subscribed && session.None? then Some(AuthPath) else None)
    {
      navigateTo := None;
      if subscribed {
        store.SetUser(UserOf(session));
        if session.None? {
          navigateTo := Some(AuthPath);
        }
      }
    }

    /** The effect cleanup: `subscription.unsubscribe()`. */
    method Unmount()
      modifies this
      ensures !subscribed
    {
      subscribed := false;
    }

    function View(): (v: View)
      reads this, store
      ensures v == Render(store.user)
    {
      Render(store.user)
    }
  }

  /** After a delivered event the rendered view agrees with the navigation:
      the page redirects exactly when the event carried no session. */
  lemma EventViewAgreesWithNavigation(session: Option<Session>)
    ensures Render(UserOf(session)) == RedirectTo(AuthPath) <==> session.None?
    ensures Render(UserOf(session)) == NestedRoutes <==> session.Some?
  {
  }

  /** After unmount an auth event neither writes the store nor navigates. */
  method EventAfterUnmountIsIgnored(route: ProtectedRoute, event: AuthEvent, session: Option<Session>)
    returns (navigateTo: Option<string>)
    modifies route, route.store
    ensures route.store.user == old(route.store.user)
    ensures navigateTo == None
  {
    route.Unmount();
    navigateTo := route.AuthStateChanged(event, session);
  }
}
