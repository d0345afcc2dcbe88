/** The header's session badge: demo mode, signed in, or not signed in. */
module AuthStatus {
  import opened Session

  /** The three badges. */
  datatype Badge = DemoMode | Authenticated | NotSignedIn

  /** The badge for a session view: without a backend client always
      'Demo Mode', whatever the auth state; otherwise 'Authenticated' or
      'Not signed in' by whether a user is present. */
  function BadgeFor(configured: bool, authenticated: bool): (b: Badge)
    ensures b == DemoMode <==> !configured
    ensures b == Authenticated <==> configured && authenticated
    ensures b == NotSignedIn <==> configured && !authenticated
  {
    if !configured then DemoMode
    else if authenticated then Authenticated
    else NotSignedIn
  }

  /** The badge text. */
  function Caption(b: Badge): (s: string)
    ensures b == DemoMode ==> s == "Demo Mode"
    ensures b == Authenticated ==> s == "Authenticated"
    ensures b == NotSignedIn ==> s == "Not signed in"
  {
    match b
    case DemoMode => "Demo Mode"
    case Authenticated => "Authenticated"
    case NotSignedIn => "Not signed in"
  }

  /** Different badges have different captions, so the caption alone tells
      the three session states apart. */
  lemma CaptionsDistinct(a: Badge, b: Badge)
    requires a != b
    ensures Caption(a) != Caption(b)
  {
  }

  /** Without a client the header shows 'Demo Mode' whatever auth events
      arrive; with one, it shows 'Authenticated' exactly when the stores'
      gate is open. */
  lemma BadgeOfRun(client: bool, events: seq<Event>)
    ensures var v := ValueOf(Run(client, events));
      (!client ==> BadgeFor(v.configured, v.authenticated) == DemoMode) &&
      (BadgeFor(v.configured, v.authenticated) == Authenticated <==> CanPersist(v))
  {
    GateOfRun(client, events);
  }
}
