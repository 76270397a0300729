/**
 * The request middleware of middleware.ts: with the backend configured, a
 * visitor without a session is sent from a protected page to the sign-in
 * page, and a visitor with a session is sent from the sign-in and sign-up
 * pages to the dashboard; every other request, and every request that
 * fails on the way, passes through.
 *
 * The two environment variables and the session lookup are inputs.
 */
module Middleware {
  import opened Wrappers
  import opened JsText

  const PROTECTED_ROUTES: seq<string> := ["/dashboard", "/profile", "/settings"]
  const AUTH_ROUTES: seq<string> := ["/auth/signin", "/auth/signup"]
  const SIGN_IN_PAGE: string := "/auth/signin"
  const DASHBOARD_PAGE: string := "/dashboard"

  /** `NEXT_PUBLIC_SUPABASE_URL` and `NEXT_PUBLIC_SUPABASE_ANON_KEY`; `None` when unset. */
  datatype Env = Env(supabaseUrl: Option<string>, supabaseAnonKey: Option<string>)

  /** What asking the backend for the session gave: a session, none, or an exception. */
  datatype SessionLookup = HasSession | NoSession | LookupFailed

  datatype Decision = PassThrough | Redirect(target: string)

  /** A string environment value is truthy when set and non-empty. */
  predicate Set(v: Option<string>) {
    v.Some? && v.value != ""
  }

  /** `routes.some(route => path.startsWith(route))` */
  predicate SomePrefix(path: string, routes: seq<string>) {
    |routes| > 0 && (StartsWith(path, routes[0]) || SomePrefix(path, routes[1..]))
  }

  lemma {:induction false} SomePrefixSpec(path: string, routes: seq<string>)
    ensures SomePrefix(path, routes) <==> exists k :: 0 <= k < |routes| && StartsWith(path, routes[k])
  {
    if |routes| > 0 {
      SomePrefixSpec(path, routes[1..]);
      if exists k :: 0 <= k < |routes| && StartsWith(path, routes[k]) {
        var k :| 0 <= k < |routes| && StartsWith(path, routes[k]);
        if k > 0 {
          assert routes[1..][k - 1] == routes[k];
        }
      }
      if SomePrefix(path, routes[1..]) {
        var k :| 0 <= k < |routes[1..]| && StartsWith(path, routes[1..][k]);
        assert routes[k + 1] == routes[1..][k];
      }
    }
  }

  predicate IsProtectedRoute(path: string) {
    SomePrefix(path, PROTECTED_ROUTES)
  }

  predicate IsAuthRoute(path: string) {
    SomePrefix(path, AUTH_ROUTES)
  }

  /** `middleware` */
  function Decide(env: Env, path: string, session: SessionLookup): (d: Decision)
    ensures d.Redirect? ==> d.target == SIGN_IN_PAGE || d.target == DASHBOARD_PAGE
  {
    if !Set(env.supabaseUrl) || !Set(env.supabaseAnonKey) then PassThrough
    else if session.LookupFailed? then PassThrough
    else if IsProtectedRoute(path) && session.NoSession? then Redirect(SIGN_IN_PAGE)
    else if IsAuthRoute(path) && session.HasSession? then Redirect(DASHBOARD_PAGE)
    else PassThrough
  }

  /** Route classes by their prefixes. */
  lemma RouteClasses(path: string)
    ensures IsProtectedRoute(path) <==>
      StartsWith(path, "/dashboard") || StartsWith(path, "/profile") || StartsWith(path, "/settings")
    ensures IsAuthRoute(path) <==> StartsWith(path, "/auth/signin") || StartsWith(path, "/auth/signup")
  {
    SomePrefixSpec(path, PROTECTED_ROUTES);
    SomePrefixSpec(path, AUTH_ROUTES);
    assert PROTECTED_ROUTES[0] == "/dashboard" && PROTECTED_ROUTES[1] == "/profile" && PROTECTED_ROUTES[2] == "/settings";
    assert AUTH_ROUTES[0] == "/auth/signin" && AUTH_ROUTES[1] == "/auth/signup";
  }

  /** No path is both protected and a sign-in or sign-up page: they differ in the second character. */
  lemma RouteClassesDisjoint(path: string)
    ensures !(IsProtectedRoute(path) && IsAuthRoute(path))
  {
    RouteClasses(path);
    if IsAuthRoute(path) {
      assert path[1] == 'a';
      assert !StartsWith(path, "/dashboard") by { assert "/dashboard"[1] == 'd'; }
      assert !StartsWith(path, "/profile") by { assert "/profile"[1] == 'p'; }
      assert !StartsWith(path, "/settings") by { assert "/settings"[1] == 's'; }
    }
  }

  /**
   * The whole decision: nothing happens without both environment values
   * or when the lookup fails; otherwise a protected page without a session
   * goes to sign-in, a sign-in or sign-up page with a session goes to the
   * dashboard, and everything else passes through.
   */
  lemma DecideSpec(env: Env, path: string, session: SessionLookup)
    ensures var d := Decide(env, path, session);
      var active := Set(env.supabaseUrl) && Set(env.supabaseAnonKey) && !session.LookupFailed?;
      && (!active ==> d == PassThrough)
      && (d == Redirect(SIGN_IN_PAGE) <==> active && IsProtectedRoute(path) && session == NoSession)
      && (d == Redirect(DASHBOARD_PAGE) <==> active && IsAuthRoute(path) && session == HasSession)
      && (d == PassThrough <==>
            !(active && IsProtectedRoute(path) && session == NoSession) &&
            !(active && IsAuthRoute(path) && session == HasSession))
  {
    RouteClassesDisjoint(path);
    assert SIGN_IN_PAGE != DASHBOARD_PAGE by { assert SIGN_IN_PAGE[1] != DASHBOARD_PAGE[1]; }
  }

  /** A visitor with a session is never sent to sign in; one without a session is never sent to the dashboard. */
  lemma RedirectsFollowSession(env: Env, path: string, session: SessionLookup)
    ensures Decide(env, path, session) == Redirect(SIGN_IN_PAGE) ==> session == NoSession
    ensures Decide(env, path, session) == Redirect(DASHBOARD_PAGE) ==> session == HasSession
  {
    DecideSpec(env, path, session);
  }
}
