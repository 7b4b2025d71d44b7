/**
 * The route guard of src/proxy.ts.
 *
 * A path is protected when it starts with one of the dashboard, create,
 * stories or voices prefixes, and an auth path when it starts with the login
 * or register prefix. A signed-out visitor to a protected path is sent to the
 * login page with the path as `callbackUrl`; a signed-in visitor to an auth
 * path is sent to the dashboard; everything else passes through.
 */
module Proxy {
  import opened Strings

  const ProtectedPaths: seq<string> := ["/dashboard", "/create", "/stories", "/voices"]
  const AuthPaths: seq<string> := ["/login", "/register"]

  /** `prefixes.some((p) => path.startsWith(p))`, scanning the list in order. */
  function SomePrefix(path: string, prefixes: seq<string>): (found: bool)
    ensures found <==> exists i :: 0 <= i < |prefixes| && StartsWith(path, prefixes[i])
  {
    if prefixes == [] then false
    else
      assert forall i :: 0 < i < |prefixes| ==> prefixes[i] == prefixes[1..][i - 1];
      StartsWith(path, prefixes[0]) || SomePrefix(path, prefixes[1..])
  }

  predicate IsProtected(path: string) {
    SomePrefix(path, ProtectedPaths)
  }

  predicate IsAuthPath(path: string) {
    SomePrefix(path, AuthPaths)
  }

  datatype Decision =
    | LoginRedirect(callbackUrl: string)   // to "/login?callbackUrl=<path>"
    | DashboardRedirect                    // to "/dashboard"
    | PassThrough                          // `NextResponse.next()`

  /** The middleware's answer for `path`, given whether the request carries a session. */
  function Decide(path: string, loggedIn: bool): (d: Decision)
    ensures d.LoginRedirect? <==> IsProtected(path) && !loggedIn
    ensures d.LoginRedirect? ==> d.callbackUrl == path
    ensures d == DashboardRedirect <==> IsAuthPath(path) && loggedIn
    ensures d == PassThrough <==> !(IsProtected(path) && !loggedIn) && !(IsAuthPath(path) && loggedIn)
  {
    if IsProtected(path) && !loggedIn then LoginRedirect(path)
    else if IsAuthPath(path) && loggedIn then DashboardRedirect
    else PassThrough
  }

  /** Every protected prefix differs from every auth prefix in its second character. */
  lemma SecondCharactersDiffer(i: nat, j: nat)
    requires i < |ProtectedPaths| && j < |AuthPaths|
    ensures |ProtectedPaths[i]| >= 2 && |AuthPaths[j]| >= 2
    ensures ProtectedPaths[i][1] != AuthPaths[j][1]
  {
  }

  /** The two families share no path: their prefixes already differ in the second character. */
  lemma ProtectedAndAuthDisjoint(path: string)
    ensures !(IsProtected(path) && IsAuthPath(path))
  {
    if IsProtected(path) {
      var i :| 0 <= i < |ProtectedPaths| && StartsWith(path, ProtectedPaths[i]);
      forall j | 0 <= j < |AuthPaths|
        ensures !StartsWith(path, AuthPaths[j])
      {
        SecondCharactersDiffer(i, j);
        assert path[1] == ProtectedPaths[i][1];
      }
    }
  }

  /**
   * Only one redirect rule can apply to a path: whatever the session, a
   * protected path never goes to the dashboard and an auth path never goes
   * to the login page.
   */
  lemma AtMostOneRedirect(path: string, loggedIn: bool)
    ensures IsProtected(path) ==> Decide(path, loggedIn) != DashboardRedirect
    ensures IsAuthPath(path) ==> !Decide(path, loggedIn).LoginRedirect?
  {
    ProtectedAndAuthDisjoint(path);
  }

  /** The match is by prefix only: "/createx" is guarded like "/create". */
  lemma PrefixMatchIsLoose()
    ensures IsProtected("/createx")
    ensures Decide("/createx", false) == LoginRedirect("/createx")
  {
    assert StartsWith("/createx", ProtectedPaths[1]);
  }
}
