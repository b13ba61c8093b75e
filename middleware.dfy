/** The route guard of `middleware.ts`: `/widgets…` and `/admin…` need a
    session, and `/admin…` further needs an e-mail listed in `ADMIN_EMAILS`.
    The session lookup is a parameter (the session it finds, if any), and the
    environment variable is a string that is empty when unset. */
module Middleware {
  import opened Wrappers
  import opened Text
  import opened Params
  import opened Filtering

  /** The parts of `request.nextUrl` the guard reads and rewrites. */
  datatype Url = Url(pathname: string, query: seq<Pair>)

  datatype Session = Session(email: Option<string>)

  /** `NextResponse.next()` or `NextResponse.redirect(target)`. */
  datatype Decision = Pass | Redirect(target: Url)

  const PROTECTED_PREFIXES: seq<string> := ["/widgets", "/admin"]

  predicate Protected(pathname: string) {
    exists prefix :: prefix in PROTECTED_PREFIXES && IsPrefix(prefix, pathname)
  }

  lemma ProtectedMeaning(pathname: string)
    ensures Protected(pathname) <==> IsPrefix("/widgets", pathname) || IsPrefix("/admin", pathname)
  {
    assert PROTECTED_PREFIXES[0] == "/widgets" && PROTECTED_PREFIXES[1] == "/admin";
  }

  /** `email.trim().toLowerCase()` for every entry of the split list. */
  function Normalized(entries: seq<string>): (r: seq<string>)
    ensures |r| == |entries|
    ensures forall i :: 0 <= i < |r| ==> r[i] == Lower(Trim(entries[i]))
  {
    seq(|entries|, i requires 0 <= i < |entries| => Lower(Trim(entries[i])))
  }

  /** The admin list: `ADMIN_EMAILS` split on commas, each entry trimmed and
      lowercased, blank entries dropped. */
  function AdminEmails(env: string): seq<string> {
    NonEmpty(Normalized(Split(env, ',')))
  }

  /** `adminEmails.includes(session.user?.email?.toLowerCase() ?? "")` */
  predicate IsAdmin(session: Session, env: string) {
    Lower(session.email.GetOr("")) in AdminEmails(env)
  }

  /** A user is an admin exactly when some comma-separated entry of the
      variable equals their e-mail up to surrounding blanks and ASCII case,
      and the e-mail is not empty; in particular a user without e-mail never is. */
  lemma IsAdminMeaning(session: Session, env: string)
    ensures IsAdmin(session, env) <==>
      && session.email.Some? && Lower(session.email.value) != ""
      && exists entry :: entry in Split(env, ',') && Lower(Trim(entry)) == Lower(session.email.value)
  {
    var entries := Split(env, ',');
    var e := Lower(session.email.GetOr(""));
    if IsAdmin(session, env) {
      assert e in Normalized(entries) && e != "";
      var i :| 0 <= i < |entries| && Normalized(entries)[i] == e;
      assert entries[i] in entries;
    }
    if session.email.Some? && e != "" {
      if entry :| entry in entries && Lower(Trim(entry)) == e {
        var i :| 0 <= i < |entries| && entries[i] == entry;
        assert Normalized(entries)[i] == e;
      }
    }
  }

  /** The decision, as the chain of early returns states it. */
  function Decide(url: Url, session: Option<Session>, env: string): (r: Decision)
    ensures r.Pass? <==>
      !Protected(url.pathname)
      || (session.Some? && (!IsPrefix("/admin", url.pathname) || IsAdmin(session.value, env)))
  {
    if !Protected(url.pathname) then Pass
    else if session.None? then Redirect(Url("/auth", SetParam(url.query, "redirectTo", url.pathname)))
    else if IsPrefix("/admin", url.pathname) && !IsAdmin(session.value, env) then Redirect(Url("/", url.query))
    else Pass
  }

  /** `middleware(request)`: the redirect targets are built by cloning the
      request URL and rewriting its path and parameters in place. */
  method Guard(url: Url, session: Option<Session>, env: string) returns (d: Decision)
    ensures d == Decide(url, session, env)
  {
    var shouldProtect := false;
    var i := 0;
    while i < |PROTECTED_PREFIXES|
      invariant 0 <= i <= |PROTECTED_PREFIXES|
      invariant shouldProtect <==> exists j :: 0 <= j < i && IsPrefix(PROTECTED_PREFIXES[j], url.pathname)
    {
      if IsPrefix(PROTECTED_PREFIXES[i], url.pathname) {
        shouldProtect := true;
      }
      i := i + 1;
    }
    if !shouldProtect {
      return Pass;
    }
    if session.None? {
      var redirectParams := new SearchParams(url.query);
      redirectParams.Set("redirectTo", url.pathname);
      return Redirect(Url("/auth", redirectParams.pairs));
    }
    if IsPrefix("/admin", url.pathname) {
      if !IsAdmin(session.value, env) {
        return Redirect(Url("/", url.query));
      }
    }
    d := Pass;
  }

  // ---------------------------------------------------------------- properties

  /** A path outside the protected prefixes passes whatever the session. */
  lemma UnprotectedPasses(url: Url, session: Option<Session>, env: string)
    requires !IsPrefix("/widgets", url.pathname) && !IsPrefix("/admin", url.pathname)
    ensures Decide(url, session, env) == Pass
  {
    ProtectedMeaning(url.pathname);
  }

  /** Without a session a protected path goes to `/auth`, with `redirectTo`
      holding the original path and every other parameter kept. */
  lemma SignInRedirect(url: Url, env: string, k: string)
    requires Protected(url.pathname)
    ensures var d := Decide(url, None, env);
      && d.Redirect? && d.target.pathname == "/auth"
      && GetAll(d.target.query, k) == if k == "redirectTo" then [url.pathname] else GetAll(url.query, k)
  {
    SetGetAll(url.query, "redirectTo", url.pathname, k);
  }

  /** With a session, `/admin…` lets admins through and sends everyone else
      home with the parameters unchanged. */
  lemma AdminGate(url: Url, session: Session, env: string)
    requires IsPrefix("/admin", url.pathname)
    ensures IsAdmin(session, env) ==> Decide(url, Some(session), env) == Pass
    ensures !IsAdmin(session, env) ==> Decide(url, Some(session), env) == Redirect(Url("/", url.query))
  {
    ProtectedMeaning(url.pathname);
  }

  /** With a session, `/widgets…` passes without the admin check. */
  lemma WidgetsNeedOnlySession(url: Url, session: Session, env: string)
    requires IsPrefix("/widgets", url.pathname)
    ensures Decide(url, Some(session), env) == Pass
  {
    ProtectedMeaning(url.pathname);
    WidgetsNotAdmin(url.pathname);
  }

  /** The two protected prefixes differ in their second character. */
  lemma WidgetsNotAdmin(pathname: string)
    requires IsPrefix("/widgets", pathname)
    ensures !IsPrefix("/admin", pathname)
  {
    assert pathname[1] == "/widgets"[1] == 'w';
    assert "/admin"[1] == 'a';
  }
}
