/** The request middleware's routing decision: static files and API routes
    pass straight through; otherwise the session decides between a
    redirect to the sign-in page, a redirect home, and the session
    response. A failed session lookup lets every route through. */
module Middleware {
  import opened Wrappers
  import opened Text

  /** The outcome of the session lookup: a session or none, or a failure
      (as when no backend is configured). */
  datatype Lookup = Found(session: bool) | LookupFailed

  /** What the middleware returns. `Redirect` carries the target path and
      the `redirectTo` parameter, if one is set. */
  datatype Decision = PassThrough | Redirect(target: string, redirectTo: Option<string>) | SessionResponse

  /** Paths skipped before any session check: under '/_next' or '/api', or
      containing a dot. */
  predicate Skipped(path: string) {
    StartsWith(path, "/_next") || StartsWith(path, "/api") || Contains(path, ".")
  }

  /** The protected routes: a raw string prefix test against '/skills'. */
  predicate Protected(path: string) {
    StartsWith(path, "/skills")
  }

  /** `middleware(req)` for a path and a session lookup. */
  function Decide(path: string, lookup: Lookup): (d: Decision)
    ensures Skipped(path) ==> d == PassThrough
    ensures !Skipped(path) && lookup.LookupFailed? ==> d == PassThrough
    ensures !Skipped(path) && lookup == Found(false) && Protected(path) ==> d == Redirect("/auth", Some(path))
    ensures !Skipped(path) && lookup == Found(true) && path == "/auth" ==> d == Redirect("/", None)
    ensures d.Redirect? ==> !Skipped(path) && lookup.Found?
    ensures d.Redirect? && d.target == "/auth" ==> Protected(path) && !lookup.session
    ensures d.Redirect? && d.target == "/" ==> path == "/auth" && lookup.session
    ensures d == SessionResponse <==>
      !Skipped(path) && lookup.Found? &&
      !(Protected(path) && !lookup.session) && !(path == "/auth" && lookup.session)
  {
    if Skipped(path) then PassThrough
    else match lookup
      case LookupFailed => PassThrough
      case Found(session) =>
        if Protected(path) && !session then Redirect("/auth", Some(path))
        else if path == "/auth" && session then Redirect("/", None)
        else SessionResponse
  }

  /** The dashboard and every goals page are never redirected, with or
      without a session. */
  lemma OpenPagesNeverRedirected(path: string, lookup: Lookup)
    requires path == "/" || StartsWith(path, "/goals")
    ensures !Decide(path, lookup).Redirect?
  {
    if StartsWith(path, "/goals") {
      PrefixChar(path, "/goals", 1);
      if Protected(path) {
        PrefixChar(path, "/skills", 1);
      }
      assert path != "/auth" by {
        assert path[1] == 'g';
      }
    }
  }

  /** The prefix test is raw: '/skillsx' is protected like '/skills/1'. */
  lemma RawPrefixProtects()
    ensures Protected("/skillsx") && Protected("/skills/1")
  {
    assert "/skillsx"[..7] == "/skills";
    assert "/skills/1"[..7] == "/skills";
  }

  /** A dotted path is never redirected, even under '/skills' and without
      a session. */
  lemma DottedPathsPass(path: string, lookup: Lookup)
    requires '.' in path
    ensures Decide(path, lookup) == PassThrough
  {
    var k :| 0 <= k < |path| && path[k] == '.';
    assert OccursAt(path, ".", k);
    ContainsAt(path, ".");
  }
}
