/** The server-side database client factory: the cookie header parser it
    hands to the client, the choice of credentials, and the rule that puts
    the user's token on outgoing requests. */
module SupabaseClient {
  import opened Common

  datatype Cookie = Cookie(name: string, value: string)

  /** One `;`-separated piece of the header: trimmed, then split on `=`; the
      name is the first part and the value the other parts joined back with
      `=`. Equivalently: the text before the first `=`, and everything after
      it (nothing when there is no `=`). */
  function ParseCookie(piece: string): (c: Cookie)
    ensures var r := SplitAtFirst(Trim(piece), '=');
      c.name == r.0 && c.value == (if r.1.Some? then r.1.value else "")
    ensures '=' !in c.name
  {
    var t := Trim(piece);
    var parts := Split(t, '=');
    HeadRestOfSplit(t, '=');
    assert '=' !in t ==> parts[1..] == [];
    Cookie(parts[0], Join(parts[1..], '='))
  }

  function ParseCookies(pieces: seq<string>): (cs: seq<Cookie>)
    ensures |cs| == |pieces|
    ensures forall i :: 0 <= i < |pieces| ==> cs[i] == ParseCookie(pieces[i])
  {
    if pieces == [] then [] else [ParseCookie(pieces[0])] + ParseCookies(pieces[1..])
  }

  /** `parseCookieHeader(header)`: one cookie per `;`-separated piece. */
  function ParseCookieHeader(header: string): (cs: seq<Cookie>)
    ensures |cs| == |Split(header, ';')|
  {
    ParseCookies(Split(header, ';'))
  }

  /** The cookies the client reads: the request's `Cookie` header, or the
      empty header when there is none. */
  function RequestCookies(cookieHeader: Option<string>): seq<Cookie> {
    ParseCookieHeader(if cookieHeader.Some? then cookieHeader.value else "")
  }

  /** There is exactly one cookie more than there are `;` in the header, so
      even an empty header yields one cookie, with empty name and value. */
  lemma {:induction false} CookieCount(header: string)
    ensures |ParseCookieHeader(header)| == Count(header, ';') + 1
    ensures header == "" ==> ParseCookieHeader(header) == [Cookie("", "")]
  {
    SplitCount(header, ';');
    if header == "" {
      assert Split(header, ';') == [""];
      assert Trim("") == "";
    }
  }

  /** Text without white space at either end. */
  predicate NoEdgeSpace(s: string) {
    s == [] || (!IsSpace(s[0]) && !IsSpace(s[|s| - 1]))
  }

  /** A cookie the header format can carry: neither part holds `;`, the
      name holds no `=`, and neither part has white space at its ends. */
  predicate Carriable(c: Cookie) {
    ';' !in c.name && '=' !in c.name && ';' !in c.value && NoEdgeSpace(c.name) && NoEdgeSpace(c.value)
  }

  /** A cookie written as `name=value`. */
  function Render(c: Cookie): string {
    c.name + "=" + c.value
  }

  /** The header pieces for `cookies` written as `name=value` and joined with
      `"; "`: the space belongs to the piece after each `;`. */
  function HeaderPieces(cookies: seq<Cookie>): (ps: seq<string>)
    ensures |ps| == |cookies|
    ensures forall i :: 0 <= i < |cookies| ==> ps[i] == if i == 0 then Render(cookies[i]) else " " + Render(cookies[i])
  {
    seq(|cookies|, i requires 0 <= i < |cookies| => if i == 0 then Render(cookies[i]) else " " + Render(cookies[i]))
  }

  function RenderHeader(cookies: seq<Cookie>): string {
    Join(HeaderPieces(cookies), ';')
  }

  /** `name=value` has no white space at its ends when its parts have none. */
  lemma RenderedNoEdgeSpace(c: Cookie)
    requires NoEdgeSpace(c.name) && NoEdgeSpace(c.value)
    ensures NoEdgeSpace(Render(c))
  {
    var s := Render(c);
    assert s[0] == (if c.name == [] then '=' else c.name[0]);
    assert s[|s| - 1] == (if c.value == [] then '=' else c.value[|c.value| - 1]);
  }

  /** Trimming ignores one leading space before text without edge white
      space. */
  lemma LeadingSpaceTrimmed(s: string)
    requires NoEdgeSpace(s)
    ensures Trim(" " + s) == s && Trim(s) == s
  {
    TrimIdentity(s);
    assert (" " + s)[1..] == s;
    assert TrimStart(" " + s) == TrimStart(s);
  }

  /** Parsing reads the name and value off the first `=` of the trimmed
      piece. */
  lemma ParseAtFirstEquals(piece: string, name: string, value: string)
    requires SplitAtFirst(Trim(piece), '=') == (name, Some(value))
    ensures ParseCookie(piece) == Cookie(name, value)
  {
  }

  /** The first `=` of `name=value` is the one after the name. */
  lemma RenderedSplit(c: Cookie)
    requires '=' !in c.name
    ensures SplitAtFirst(Render(c), '=') == (c.name, Some(c.value))
  {
    assert Render(c) == c.name + ['='] + c.value;
    SplitAtFirstGlued(c.name, c.value, '=');
  }

  /** A cookie written as `name=value` parses back to itself. */
  lemma {:induction false} CookieRoundTrip(c: Cookie)
    requires Carriable(c)
    ensures ParseCookie(Render(c)) == c
  {
    RenderedNoEdgeSpace(c);
    LeadingSpaceTrimmed(Render(c));
    RenderedSplit(c);
    ParseAtFirstEquals(Render(c), c.name, c.value);
  }

  /** So does one preceded by the space that follows a `;`. */
  lemma {:induction false} SpacedCookieRoundTrip(c: Cookie)
    requires Carriable(c)
    ensures ParseCookie(" " + Render(c)) == c
  {
    RenderedNoEdgeSpace(c);
    LeadingSpaceTrimmed(Render(c));
    RenderedSplit(c);
    ParseAtFirstEquals(" " + Render(c), c.name, c.value);
  }

  /** Writing carriable cookies as a `Cookie` header and parsing it gives
      back the same cookies, in order. */
  lemma {:induction false} CookieHeaderRoundTrip(cookies: seq<Cookie>)
    requires cookies != []
    requires forall i :: 0 <= i < |cookies| ==> Carriable(cookies[i])
    ensures ParseCookieHeader(RenderHeader(cookies)) == cookies
  {
    var ps := HeaderPieces(cookies);
    forall k | 0 <= k < |ps|
      ensures ';' !in ps[k]
    {
      assert ';' !in Render(cookies[k]);
    }
    SplitJoin(ps, ';');
    forall i | 0 <= i < |cookies|
      ensures ParseCookie(ps[i]) == cookies[i]
    {
      if i == 0 {
        CookieRoundTrip(cookies[i]);
      } else {
        SpacedCookieRoundTrip(cookies[i]);
      }
    }
  }

  /** A `;` inside a value splits it: the text after the `;` becomes a
      cookie of its own, with an empty value. */
  lemma {:induction false} SemicolonSplitsValue(name: string, first: string, second: string)
    requires Carriable(Cookie(name, first))
    requires ';' !in second && '=' !in second && NoEdgeSpace(second)
    ensures ParseCookieHeader(Render(Cookie(name, first)) + ";" + second) == [Cookie(name, first), Cookie(second, "")]
  {
    var p := Render(Cookie(name, first));
    assert ';' !in p;
    SplitJoin([p, second], ';');
    assert Join([p, second], ';') == p + ";" + second;
    CookieRoundTrip(Cookie(name, first));
    BareNameCookie(second);
  }

  /** A piece with no `=` and no edge white space is a name with an empty
      value. */
  lemma BareNameCookie(piece: string)
    requires '=' !in piece && NoEdgeSpace(piece)
    ensures ParseCookie(piece) == Cookie(piece, "")
  {
    TrimIdentity(piece);
  }

  /** An environment: the variables that are set. */
  type Env = map<string, string>

  /** A variable's value when it is set to a non-empty string (`||` treats
      the empty string as missing). */
  function Lookup(env: Option<Env>, name: string): (v: Option<string>)
    ensures v.Some? <==> env.Some? && name in env.value && env.value[name] != ""
    ensures v.Some? ==> v.value == env.value[name]
  {
    if env.Some? && name in env.value && env.value[name] != "" then Some(env.value[name]) else None
  }

  /** `context.env?.NAME || import.meta.env.NAME`. */
  function Setting(contextEnv: Option<Env>, buildEnv: Env, name: string): Option<string> {
    if Lookup(contextEnv, name).Some? then Lookup(contextEnv, name) else Lookup(Some(buildEnv), name)
  }

  datatype Credentials = Credentials(url: string, key: string)

  /** The URL and key the client is built with, or `None` when either is
      missing (the factory then throws). Each variable is looked up on its
      own: the request context's value wins, the build's is the fallback. */
  function ResolveCredentials(contextEnv: Option<Env>, buildEnv: Env): (c: Option<Credentials>)
    ensures c.Some? <==> (Setting(contextEnv, buildEnv, "SUPABASE_URL").Some?
                          && Setting(contextEnv, buildEnv, "SUPABASE_KEY").Some?)
    ensures c.Some? ==> c.value.url != "" && c.value.key != ""
    ensures c.Some? && Lookup(contextEnv, "SUPABASE_URL").Some? ==> c.value.url == contextEnv.value["SUPABASE_URL"]
    ensures c.Some? && Lookup(contextEnv, "SUPABASE_URL").None? ==> c.value.url == buildEnv["SUPABASE_URL"]
    ensures c.Some? && Lookup(contextEnv, "SUPABASE_KEY").Some? ==> c.value.key == contextEnv.value["SUPABASE_KEY"]
    ensures c.Some? && Lookup(contextEnv, "SUPABASE_KEY").None? ==> c.value.key == buildEnv["SUPABASE_KEY"]
  {
    var url := Setting(contextEnv, buildEnv, "SUPABASE_URL");
    var key := Setting(contextEnv, buildEnv, "SUPABASE_KEY");
    if url.None? || key.None? then None else Some(Credentials(url.value, key.value))
  }

  /** Request headers by lower-cased name, as the `Headers` object keeps
      them. */
  type Headers = map<string, string>

  const AuthorizationHeader: string := "authorization"
  const AuthPath: string := "/auth/v1/"

  /** The headers a request goes out with. Without a token the client's own
      fetch is used untouched; with one, every request except those to the
      auth endpoints carries `Authorization: Bearer <token>`, replacing any
      earlier value. */
  function OutgoingHeaders(accessToken: Option<string>, url: string, headers: Headers): (h: Headers)
    ensures forall name :: name in headers && name != AuthorizationHeader ==> name in h && h[name] == headers[name]
    ensures h.Keys <= headers.Keys + {AuthorizationHeader}
    ensures (accessToken.None? || accessToken.value == "" || Contains(url, AuthPath)) ==> h == headers
    ensures accessToken.Some? && accessToken.value != "" && !Contains(url, AuthPath) ==>
      AuthorizationHeader in h && h[AuthorizationHeader] == "Bearer " + accessToken.value
  {
    if accessToken.None? || accessToken.value == "" || Contains(url, AuthPath) then headers
    else headers[AuthorizationHeader := "Bearer " + accessToken.value]
  }

  /** The user's token reaches only non-auth endpoints: a request to an auth
      endpoint carries an `Authorization` header only if it already had
      that very header, and a request carries this token's bearer value
      only when it was sent with a token or already had it. */
  lemma {:induction false} TokenOnlyOffAuthPaths(accessToken: Option<string>, url: string, headers: Headers)
    ensures Contains(url, AuthPath) ==>
      (AuthorizationHeader in OutgoingHeaders(accessToken, url, headers) <==> AuthorizationHeader in headers)
    ensures accessToken.Some? && accessToken.value != "" ==>
      (OutgoingHeaders(accessToken, url, headers) == headers[AuthorizationHeader := "Bearer " + accessToken.value]
       <==> !Contains(url, AuthPath) || (AuthorizationHeader in headers && headers[AuthorizationHeader] == "Bearer " + accessToken.value))
  {
    if accessToken.Some? && accessToken.value != "" && Contains(url, AuthPath) {
      var bearer := "Bearer " + accessToken.value;
      if headers == headers[AuthorizationHeader := bearer] {
        assert AuthorizationHeader in headers && headers[AuthorizationHeader] == bearer;
      }
      if AuthorizationHeader in headers && headers[AuthorizationHeader] == bearer {
        assert headers == headers[AuthorizationHeader := bearer];
      }
    }
  }
}
