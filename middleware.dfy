/** The request middleware: it builds the request's database client, works
    out who the user is (asking the auth server only when the request
    carries an auth cookie) and guards the routes: protected pages need a
    user, the login and register pages are for visitors only. Any exception
    on the way is caught and the request goes on anonymously. */
module Middleware {
  import opened Common
  import opened SupabaseClient
  import opened UriComponent

  /** The names of the auth-token cookies: `sb-<project>-auth-token`, or one
      chunk `sb-<project>-auth-token.<n>` of a token split over several
      cookies. */
  predicate AuthCookieName(name: string) {
    StartsWith(name, "sb-") && (EndsWith(name, "-auth-token") || Contains(name, "-auth-token."))
  }

  /** The cookie name as the middleware reads it off a `;`-separated piece:
      the trimmed piece up to its first `=`. */
  function PieceName(piece: string): string {
    Split(Trim(piece), '=')[0]
  }

  /** Whether some piece of the `Cookie` header names an auth-token cookie. */
  predicate HasAuthCookie(cookieHeader: string) {
    var pieces := Split(cookieHeader, ';');
    exists i :: 0 <= i < |pieces| && AuthCookieName(PieceName(pieces[i]))
  }

  /** The middleware looks for auth cookies exactly among the cookies the
      database client reads from the same header. */
  lemma {:induction false} AuthCookieSeenByClient(cookieHeader: string)
    ensures HasAuthCookie(cookieHeader) <==>
      exists c :: c in ParseCookieHeader(cookieHeader) && AuthCookieName(c.name)
  {
    var pieces := Split(cookieHeader, ';');
    var cs := ParseCookieHeader(cookieHeader);
    CookieNames(cookieHeader);
    if HasAuthCookie(cookieHeader) {
      var i :| 0 <= i < |pieces| && AuthCookieName(PieceName(pieces[i]));
      assert cs[i] in cs && AuthCookieName(cs[i].name);
    }
    if exists c :: c in cs && AuthCookieName(c.name) {
      var c :| c in cs && AuthCookieName(c.name);
      ClientCookieSeen(cookieHeader, c);
    }
  }

  /** An auth cookie the client parses is one the middleware finds. */
  lemma ClientCookieSeen(cookieHeader: string, c: Cookie)
    requires c in ParseCookieHeader(cookieHeader) && AuthCookieName(c.name)
    ensures HasAuthCookie(cookieHeader)
  {
    var pieces := Split(cookieHeader, ';');
    var cs := ParseCookieHeader(cookieHeader);
    CookieNames(cookieHeader);
    var i :| 0 <= i < |cs| && cs[i] == c;
    assert PieceName(pieces[i]) == c.name;
  }

  /** Cookie `i` of the parsed header is named as the middleware reads
      piece `i`. */
  lemma CookieNames(cookieHeader: string)
    ensures |ParseCookieHeader(cookieHeader)| == |Split(cookieHeader, ';')|
    ensures forall i :: 0 <= i < |Split(cookieHeader, ';')| ==>
      ParseCookieHeader(cookieHeader)[i].name == PieceName(Split(cookieHeader, ';')[i])
  {
    var pieces := Split(cookieHeader, ';');
    forall i | 0 <= i < |pieces|
      ensures ParseCookieHeader(cookieHeader)[i].name == PieceName(pieces[i])
    {
      PieceNameIsCookieName(pieces[i], ParseCookieHeader(cookieHeader)[i]);
    }
  }

  /** The name the middleware reads off a piece is the name the client
      parses from it. */
  lemma PieceNameIsCookieName(piece: string, c: Cookie)
    requires c == ParseCookie(piece)
    ensures c.name == PieceName(piece)
  {
  }

  /** The three variables the middleware copies from the runtime: only
      string settings are kept, and a missing runtime gives none. */
  const ProjectedNames: set<string> := {"SUPABASE_URL", "SUPABASE_KEY", "DEBUG_ERRORS"}

  function ProjectEnv(runtimeEnv: Option<Env>): (env: Env)
    ensures env.Keys <= ProjectedNames
    ensures forall name :: name in ProjectedNames ==> Lookup(Some(env), name) == Lookup(runtimeEnv, name)
  {
    if runtimeEnv.None? then map[]
    else map name | name in ProjectedNames && name in runtimeEnv.value :: runtimeEnv.value[name]
  }

  /** Pages that need a signed-in user. */
  predicate IsProtected(path: string) {
    StartsWith(path, "/dashboard") || StartsWith(path, "/pets")
  }

  /** Pages only for visitors who are not signed in. */
  predicate IsAuthOnly(path: string) {
    path == "/login" || path == "/register"
  }

  lemma RoutesDisjoint(path: string)
    ensures !(IsProtected(path) && IsAuthOnly(path))
  {
    if IsAuthOnly(path) {
      assert path[1] == 'l' || path[1] == 'r';
    }
  }

  datatype User = User(id: string, email: Option<string>)

  /** The database client a request gets: the credentials it was built with
      and, for a signed-in user with a session, the token it sends. */
  datatype ClientConfig = ClientConfig(credentials: Credentials, accessToken: Option<string>)

  datatype Action = Next | Redirect(location: string)

  /** The login page, told where to come back to. */
  function LoginLocation(path: string): (l: string)
    ensures StartsWith(l, "/login?redirect=")
  {
    "/login?redirect=" + EncodeUriComponent(path)
  }

  /** The route guard. */
  function Guard(path: string, user: Option<User>): (a: Action)
    ensures a == Redirect(LoginLocation(path)) <==> IsProtected(path) && user.None?
    ensures a == Redirect("/dashboard") <==> IsAuthOnly(path) && user.Some?
    ensures a == Next <==> !(IsProtected(path) && user.None?) && !(IsAuthOnly(path) && user.Some?)
  {
    RoutesDisjoint(path);
    if IsProtected(path) && user.None? then Redirect(LoginLocation(path))
    else if IsAuthOnly(path) && user.Some? then Redirect("/dashboard")
    else Next
  }

  /** The return address is one query value: decoding it gives the path
      back (for an ASCII path), and it holds no `&`, `#`, `=` or `/` that
      could end or restructure the query. */
  lemma {:induction false} LoginLocationCarriesPath(path: string)
    requires IsAscii(path)
    ensures LoginLocation(path) == "/login?redirect=" + EncodeUriComponent(path)
    ensures DecodeAscii(EncodeUriComponent(path)) == path
    ensures '&' !in EncodeUriComponent(path) && '#' !in EncodeUriComponent(path)
    ensures '=' !in EncodeUriComponent(path) && '/' !in EncodeUriComponent(path)
  {
    EncodeDecodeAscii(path);
    NoDelimiters(EncodeUriComponent(path));
  }

  /** Text of unreserved characters and `%` holds none of `& # = /`. */
  lemma NoDelimiters(e: string)
    requires forall i :: 0 <= i < |e| ==> e[i] == '%' || Unreserved(e[i])
    ensures '&' !in e && '#' !in e && '=' !in e && '/' !in e
  {
    forall i | 0 <= i < |e|
      ensures e[i] != '&' && e[i] != '#' && e[i] != '=' && e[i] != '/'
    {
      assert e[i] == '%' || Unreserved(e[i]);
    }
  }

  /** `/` is the single byte 0x2F. */
  lemma SlashEncoded()
    ensures EncodeChar('/') == "%2F"
  {
    assert Utf8('/') == [47];
    assert PercentByte(47) == "%2F";
  }

  /** A `/` followed by unreserved text is encoded as `%2F` and the text. */
  lemma EncodedSlashPath(rest: string)
    requires forall i :: 0 <= i < |rest| ==> Unreserved(rest[i])
    ensures EncodeUriComponent(['/'] + rest) == "%2F" + rest
  {
    SlashEncoded();
    UnreservedUnchanged(rest);
    EncodeCons('/', rest);
  }

  lemma DashboardProtected()
    ensures IsProtected("/dashboard")
  {
    assert StartsWith("/dashboard", "/dashboard");
  }

  /** A signed-out visit to a protected `/x`, with `x` made of unreserved
      characters, is sent to `/login?redirect=%2Fx`. */
  lemma {:induction false} SlashPathLoginLocation(rest: string)
    requires forall i :: 0 <= i < |rest| ==> Unreserved(rest[i])
    requires IsProtected(['/'] + rest)
    ensures Guard(['/'] + rest, None) == Redirect("/login?redirect=" + "%2F" + rest)
  {
    EncodedSlashPath(rest);
  }

  lemma DashboardPathSplit()
    ensures ['/'] + "dashboard" == "/dashboard"
    ensures forall i :: 0 <= i < |"dashboard"| ==> Unreserved("dashboard"[i])
  {
  }

  lemma DashboardLocationJoin()
    ensures "/login?redirect=" + "%2F" + "dashboard" == "/login?redirect=%2Fdashboard"
  {
  }

  /** The dashboard sends an anonymous visitor to `/login?redirect=%2Fdashboard`. */
  lemma DashboardLoginLocation()
    ensures Guard("/dashboard", None) == Redirect("/login?redirect=%2Fdashboard")
  {
    DashboardPathSplit();
    DashboardProtected();
    SlashPathLoginLocation("dashboard");
    DashboardLocationJoin();
  }

  /** What an auth-server call gave back: a value, or an exception. */
  datatype Answer<T> = Returned(value: T) | Threw

  /** What the middleware leaves in the request's locals. */
  datatype LocalsState = LocalsState(env: Env, supabase: Option<ClientConfig>, user: Option<User>)

  datatype Outcome = Outcome(locals: LocalsState, action: Action, askedAuth: bool)

  /** One request through the middleware, given the path, the `Cookie`
      header, the runtime and build environments, and what `getUser` and
      `getSession` answer (the user, and the session's access token). */
  function HandleRequest(path: string, cookieHeader: Option<string>, runtimeEnv: Option<Env>, buildEnv: Env,
                         getUser: Answer<Option<User>>, getSession: Answer<Option<string>>): (o: Outcome)
    ensures o.locals.env == ProjectEnv(runtimeEnv)
    ensures o.askedAuth <==> ResolveCredentials(Some(ProjectEnv(runtimeEnv)), buildEnv).Some?
                             && HasAuthCookie(if cookieHeader.Some? then cookieHeader.value else "")
    ensures o.locals.user.Some? ==> o.askedAuth && getUser == Returned(o.locals.user)
    ensures o.locals.supabase.Some? ==>
      ResolveCredentials(Some(ProjectEnv(runtimeEnv)), buildEnv) == Some(o.locals.supabase.value.credentials)
    ensures o.locals.supabase.Some? && o.locals.supabase.value.accessToken.Some? ==>
      o.locals.user.Some? && getSession == Returned(o.locals.supabase.value.accessToken)
      && o.locals.supabase.value.accessToken.value != ""
    ensures o.locals.supabase.None? ==> o.locals.user.None? && o.action == Next
    ensures o.locals.supabase.Some? ==> o.action == Guard(path, o.locals.user)
    // without credentials the middleware does nothing and lets the request through
    ensures ResolveCredentials(Some(ProjectEnv(runtimeEnv)), buildEnv).None? ==>
      o == Outcome(LocalsState(ProjectEnv(runtimeEnv), None, None), Next, false)
    // without an auth cookie: an anonymous client, no user, and the guard decides
    ensures var creds := ResolveCredentials(Some(ProjectEnv(runtimeEnv)), buildEnv);
      creds.Some? && !HasAuthCookie(if cookieHeader.Some? then cookieHeader.value else "") ==>
      && o.locals == LocalsState(ProjectEnv(runtimeEnv), Some(ClientConfig(creds.value, None)), None)
      && o.action == Guard(path, None)
    // a failing auth call empties the locals and lets the request through
    ensures o.askedAuth && (getUser.Threw? || (getUser.value.Some? && getSession.Threw?)) ==>
      o.locals.supabase.None? && o.locals.user.None? && o.action == Next
    // a completed auth lookup keeps a client and the user getUser returned
    ensures o.askedAuth && getUser.Returned? && (getUser.value.None? || getSession.Returned?) ==>
      && o.locals.supabase.Some?
      && o.locals.user == getUser.value
      && o.action == Guard(path, getUser.value)
    // the client carries the session's token exactly when there is a user and a non-empty token
    ensures o.askedAuth && getUser.Returned? && getUser.value.Some? && getSession.Returned? ==>
      o.locals.supabase.value.accessToken ==
        (if getSession.value.Some? && getSession.value.value != "" then getSession.value else None)
  {
    var env := ProjectEnv(runtimeEnv);
    var credentials := ResolveCredentials(Some(env), buildEnv);
    var header := if cookieHeader.Some? then cookieHeader.value else "";
    if credentials.None? then
      Outcome(LocalsState(env, None, None), Next, false)
    else if !HasAuthCookie(header) then
      Outcome(LocalsState(env, Some(ClientConfig(credentials.value, None)), None), Guard(path, None), false)
    else if getUser.Threw? then
      Outcome(LocalsState(env, None, None), Next, true)
    else if getUser.value.None? then
      Outcome(LocalsState(env, Some(ClientConfig(credentials.value, None)), None), Guard(path, None), true)
    else if getSession.Threw? then
      Outcome(LocalsState(env, None, None), Next, true)
    else
      var token := getSession.value;
      var client := if token.Some? && token.value != "" then ClientConfig(credentials.value, token)
                    else ClientConfig(credentials.value, None);
      Outcome(LocalsState(env, Some(client), getUser.value), Guard(path, getUser.value), true)
  }

  /** A visitor without an auth cookie never reaches the auth server: the
      outcome does not depend on what it would have answered, and there is
      no user. */
  lemma AnonymousSkipsAuth(path: string, cookieHeader: Option<string>, runtimeEnv: Option<Env>, buildEnv: Env,
                           user1: Answer<Option<User>>, session1: Answer<Option<string>>,
                           user2: Answer<Option<User>>, session2: Answer<Option<string>>)
    requires !HasAuthCookie(if cookieHeader.Some? then cookieHeader.value else "")
    ensures HandleRequest(path, cookieHeader, runtimeEnv, buildEnv, user1, session1)
         == HandleRequest(path, cookieHeader, runtimeEnv, buildEnv, user2, session2)
    ensures HandleRequest(path, cookieHeader, runtimeEnv, buildEnv, user1, session1).locals.user.None?
  {
  }

  /** A protected page is served only to a signed-in user, unless something
      failed (the locals then hold no client): failures let the request
      through. */
  lemma ProtectedServedOnlyToUsers(path: string, cookieHeader: Option<string>, runtimeEnv: Option<Env>, buildEnv: Env,
                                   getUser: Answer<Option<User>>, getSession: Answer<Option<string>>)
    requires IsProtected(path)
    ensures var o := HandleRequest(path, cookieHeader, runtimeEnv, buildEnv, getUser, getSession);
      o.action == Next ==> o.locals.user.Some? || o.locals.supabase.None?
    ensures getUser.Threw? && ResolveCredentials(Some(ProjectEnv(runtimeEnv)), buildEnv).Some?
            && HasAuthCookie(if cookieHeader.Some? then cookieHeader.value else "") ==>
      HandleRequest(path, cookieHeader, runtimeEnv, buildEnv, getUser, getSession).action == Next
  {
  }

  /** The locals a request handler sees, filled in by the middleware. */
  class Locals {
    var env: Env
    var supabase: Option<ClientConfig>
    var user: Option<User>

    function State(): LocalsState
      reads this
    {
      LocalsState(env, supabase, user)
    }

    constructor()
      ensures State() == LocalsState(map[], None, None)
    {
      env := map[];
      supabase := None;
      user := None;
    }
  }

  /** `onRequest`: assigns the locals step by step, as the handler does, and
      returns what to do with the request and whether the auth server was
      asked. */
  method OnRequest(locals: Locals, path: string, cookieHeader: Option<string>, runtimeEnv: Option<Env>, buildEnv: Env,
                   getUser: Answer<Option<User>>, getSession: Answer<Option<string>>)
    returns (action: Action, askedAuth: bool)
    modifies locals
    ensures Outcome(locals.State(), action, askedAuth)
         == HandleRequest(path, cookieHeader, runtimeEnv, buildEnv, getUser, getSession)
  {
    var env := ProjectEnv(runtimeEnv);
    locals.env := env;
    askedAuth := false;
    var credentials := ResolveCredentials(Some(env), buildEnv);
    if credentials.None? {
      locals.supabase := None;
      locals.user := None;
      return Next, askedAuth;
    }
    locals.supabase := Some(ClientConfig(credentials.value, None));
    var header := if cookieHeader.Some? then cookieHeader.value else "";
    var hasAuthCookie := HasAuthCookie(header);
    var user: Option<User> := None;
    if hasAuthCookie {
      askedAuth := true;
      if getUser.Threw? {
        locals.supabase := None;
        locals.user := None;
        return Next, askedAuth;
      }
      if getUser.value.Some? {
        user := getUser.value;
        if getSession.Threw? {
          locals.supabase := None;
          locals.user := None;
          return Next, askedAuth;
        }
        var token := getSession.value;
        if token.Some? && token.value != "" {
          locals.supabase := Some(ClientConfig(credentials.value, token));
        }
      }
    }
    locals.user := user;
    if IsProtected(path) && user.None? {
      return Redirect(LoginLocation(path)), askedAuth;
    }
    if IsAuthOnly(path) && user.Some? {
      return Redirect("/dashboard"), askedAuth;
    }
    return Next, askedAuth;
  }
}
