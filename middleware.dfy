/** The route guard of middleware.ts: a decision over the request path and the
    presence of the `authToken` cookie, and the matcher that decides which
    requests reach it. */
module Middleware {
  import opened Common

  /** What `request.cookies.get('authToken')` returns when the cookie is sent. */
  datatype Cookie = Cookie(name: string, value: string)

  /** `NextResponse.redirect(new URL(location, request.url))` or `NextResponse.next()`. */
  datatype Response = Redirect(location: string) | Next

  const AdminPrefix: string := "/admin"
  const LoginPath: string := "/auth/login"

  /** `middleware(request)`: `authToken` is the cookie lookup's result. */
  function Middleware(pathname: string, authToken: Option<Cookie>): (r: Response)
    ensures r.Redirect? <==> StartsWith(pathname, AdminPrefix) && authToken.None?
    ensures r.Redirect? ==> r.location == LoginPath
    ensures r.Next? ==> authToken.Some? || !StartsWith(pathname, AdminPrefix)
  {
    if StartsWith(pathname, AdminPrefix) && authToken.None? then Redirect(LoginPath) else Next
  }

  /** `config.matcher = ['/admin/:path*']`: the bare admin path and every path
      below it. */
  predicate MatcherAccepts(pathname: string)
  {
    pathname == AdminPrefix || StartsWith(pathname, AdminPrefix + "/")
  }

  /** What a request meets: the middleware when the matcher selects it, the page
      otherwise. */
  function Route(pathname: string, authToken: Option<Cookie>): (r: Response)
    ensures !MatcherAccepts(pathname) ==> r == Next
    ensures MatcherAccepts(pathname) ==> r == Middleware(pathname, authToken)
  {
    if MatcherAccepts(pathname) then Middleware(pathname, authToken) else Next
  }

  /** Only the presence of the cookie matters; its value is never read. */
  lemma CookieValueIgnored(pathname: string, a: Cookie, b: Cookie)
    ensures Middleware(pathname, Some(a)) == Middleware(pathname, Some(b)) == Next
  {
  }

  /** The guard is a plain string prefix: `/administrator` is guarded too,
      but the matcher never hands that path to the middleware. */
  lemma PrefixNotSegment()
    ensures Middleware("/administrator", None) == Redirect(LoginPath)
    ensures Route("/administrator", None) == Next
  {
    var p := "/administrator";
    assert p[..|AdminPrefix|] == AdminPrefix;
    assert p != AdminPrefix;
    assert p[..|AdminPrefix| + 1] != AdminPrefix + "/" by {
      assert p[|AdminPrefix|] == 'i';
      assert (AdminPrefix + "/")[|AdminPrefix|] == '/';
    }
  }

  /** Every path the matcher selects starts with the admin prefix, so within the
      matcher's range the guard redirects exactly the requests without a cookie. */
  lemma {:induction false} RouteRedirectsIff(pathname: string, authToken: Option<Cookie>)
    ensures Route(pathname, authToken).Redirect? <==> MatcherAccepts(pathname) && authToken.None?
    ensures Route(pathname, authToken).Redirect? ==> Route(pathname, authToken).location == LoginPath
  {
    if MatcherAccepts(pathname) && pathname != AdminPrefix {
      var q := AdminPrefix + "/";
      assert pathname[..|q|] == q;
      assert pathname[..|AdminPrefix|] == pathname[..|q|][..|AdminPrefix|];
      assert q[..|AdminPrefix|] == AdminPrefix;
    }
  }
}
