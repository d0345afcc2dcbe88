/** The session gate: whether a backend client exists (both environment
    values set), which user is signed in, and the context value every store
    reads (`isConfigured`, `isAuthenticated`, `user`). */
module Session {
  import opened Wrappers

  datatype User = User(id: string, email: Option<string>)

  /** A string value that is set and not empty: JavaScript truthiness of an
      environment value or of a parent id passed to a store. */
  predicate Present(env: Option<string>) {
    env.Some? && env.value != ""
  }

  /** `createSupabaseClient()`: a client exists exactly when the project URL
      and the anonymous key are both present; a missing value never fails,
      it only selects demo mode. */
  function ClientFor(url: Option<string>, anonKey: Option<string>): (configured: bool)
    ensures configured <==> Present(url) && Present(anonKey)
  {
    Present(url) && Present(anonKey)
  }

  /** The state `AuthProvider` keeps. */
  datatype Provider = Provider(client: bool, user: Option<User>, loading: bool)

  /** The provider as first rendered and after its mount effect: no user;
      without a client loading ends at once (demo mode), with one it lasts
      until the initial session lookup answers. */
  function Mount(client: bool): (a: Provider)
    ensures a.client == client && a.user.None?
    ensures a.loading <==> client
  {
    Provider(client, None, client)
  }

  /** What the client reports: the answer to the initial `getSession()`
      or an `onAuthStateChange` callback, each with an optional session user. */
  datatype Event = InitialSession(session: Option<User>) | AuthChange(session: Option<User>)

  /** Both kinds of event set the user to the session's user (or to none)
      and end loading. Without a client no lookup is made and no listener
      is registered, so events never touch the state. */
  function Handle(a: Provider, e: Event): (b: Provider)
    ensures b.client == a.client
    ensures !a.client ==> b == a
    ensures a.client ==> b.user == e.session && !b.loading
  {
    if a.client then a.(user := e.session, loading := false) else a
  }

  /** The provider after mounting and then seeing `events` in order. */
  function Run(client: bool, events: seq<Event>): Provider
    decreases |events|
  {
    if |events| == 0 then Mount(client)
    else Handle(Run(client, events[..|events| - 1]), events[|events| - 1])
  }

  /** Demo mode is never authenticated and never stays loading, whatever
      the events. */
  lemma {:induction false} DemoNeverAuthenticated(events: seq<Event>)
    ensures Run(false, events).user.None?
    ensures !Run(false, events).loading
    ensures !Run(false, events).client
    decreases |events|
  {
    if |events| > 0 {
      DemoNeverAuthenticated(events[..|events| - 1]);
    }
  }

  /** With a client, once any event has arrived loading is over and the
      user is the one the latest event reported. */
  lemma {:induction false} LatestEventWins(events: seq<Event>)
    requires |events| > 0
    ensures Run(true, events).client
    ensures !Run(true, events).loading
    ensures Run(true, events).user == events[|events| - 1].session
    decreases |events|
  {
    if |events| > 1 {
      LatestEventWins(events[..|events| - 1]);
    } else {
      assert events[..0] == [];
    }
  }

  /** `signOut()`: with a client it signs out, and the client's
      `SIGNED_OUT` event then clears the user; without one nothing happens. */
  function SignOut(a: Provider): (b: Provider)
    ensures !a.client ==> b == a
    ensures a.client ==> b.client && b.user.None? && !b.loading
  {
    if a.client then Handle(a, AuthChange(None)) else a
  }

  /** The context value the stores destructure. */
  datatype View = View(configured: bool, authenticated: bool, user: Option<User>)

  /** `isAuthenticated: !!user`, `isConfigured: !!supabase`. */
  function ValueOf(a: Provider): (v: View)
    ensures v.authenticated <==> a.user.Some?
    ensures v.configured <==> a.client
    ensures v.user == a.user
  {
    View(a.client, a.user.Some?, a.user)
  }

  /** `useAuth()`. The context is created with `{}` as its default, so
      outside a provider the check for `undefined` never fires: every field
      reads as missing, which the stores treat as demo mode. */
  function UseAuth(provided: Option<Provider>): (v: View)
    ensures provided.None? ==> !v.configured && !v.authenticated && v.user.None?
    ensures provided.Some? ==> (v.authenticated <==> provided.value.user.Some?)
    ensures provided.Some? ==> (v.configured <==> provided.value.client)
    ensures provided.Some? ==> v.user == provided.value.user
  {
    if provided.Some? then ValueOf(provided.value) else View(false, false, None)
  }

  /** The gate of every persisted operation: configured, authenticated and
      a user present. */
  predicate CanPersist(v: View) {
    v.configured && v.authenticated && v.user.Some?
  }

  /** The environment decides the mode for the whole session: with both
      values present the provider's value is configured after any events;
      with either missing it is never configured and the stores' gate never
      opens, whatever the events. */
  lemma EnvironmentDecidesMode(url: Option<string>, anonKey: Option<string>, events: seq<Event>)
    ensures var v := ValueOf(Run(ClientFor(url, anonKey), events));
      v.configured <==> Present(url) && Present(anonKey)
    ensures !Present(url) || !Present(anonKey) ==>
      !CanPersist(ValueOf(Run(ClientFor(url, anonKey), events)))
  {
    RunKeepsClient(ClientFor(url, anonKey), events);
    if !ClientFor(url, anonKey) {
      DemoNeverAuthenticated(events);
    }
  }

  /** No event adds or removes the client. */
  lemma {:induction false} RunKeepsClient(client: bool, events: seq<Event>)
    ensures Run(client, events).client == client
    decreases |events|
  {
    if |events| > 0 {
      RunKeepsClient(client, events[..|events| - 1]);
    }
  }

  /** The gate needs all three: a missing client, a missing sign-in or a
      missing user each closes it, and together they open it. */
  lemma GateNeedsAllThree(v: View)
    ensures !v.configured ==> !CanPersist(v)
    ensures !v.authenticated ==> !CanPersist(v)
    ensures v.user.None? ==> !CanPersist(v)
    ensures v.configured && v.authenticated && v.user.Some? ==> CanPersist(v)
  {
  }

  /** For a provider's own value the gate is open exactly when a client
      exists and a user is signed in, and in demo mode it never opens. */
  lemma GateOfRun(client: bool, events: seq<Event>)
    ensures CanPersist(ValueOf(Run(client, events))) <==> client && Run(client, events).user.Some?
    ensures !client ==> !CanPersist(ValueOf(Run(client, events)))
  {
    if !client {
      DemoNeverAuthenticated(events);
    }
  }
}
