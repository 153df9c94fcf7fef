/** Session resolution: extractSessionData gathers the cookie string and the
    CSRF token from the login frame, the page, stored session data and a
    probe request, in a fixed order of fallbacks, and reads the session and
    user ids out of the cookies. Everything the browser or the network
    supplies is a field of `Environment`. */
module SessionResolver {
  import opened JsValues
  import opened Cookies

  /** Cookie strings shorter than this are taken to be incomplete. */
  const MinCookieLength: nat := 50

  /** `window.__UNSTABLE__REACT_ENVIRONMENT__` when present. */
  datatype ReactEnv = ReactEnv(csrfToken: Option<string>)

  /** What the login frame exposes when its document can be read: its
      cookie string, the contents of its CSRF meta tags in document order
      (an absent `content` reads as ""), and its React environment. */
  datatype FrameView = FrameView(cookie: string, csrfMetas: seq<string>, reactEnv: Option<ReactEnv>)

  /** The publisher's own page: its cookie string, the content of its
      `meta[name="csrf-token"]` tag when there is one, and its React
      environment. */
  datatype PageView = PageView(cookie: string, csrfMeta: Option<string>, reactEnv: Option<ReactEnv>)

  /** The parsed `tiktok_session` storage entry. */
  datatype StoredSession = StoredSession(cookies: Option<string>, csrfToken: Option<string>)

  /** Everything extractSessionData reads from outside.
      - `frame`: None when there is no frame or its document cannot be read
      - `stored`: None when neither storage has an entry or it does not parse
      - `probeSetCookie`: the probe's Set-Cookie header; None when the
        request fails or the header is missing
      - `directProbeOk`: whether the direct request made by
        extractSessionFromTikTok answers with an ok status
      - `cookieAfterDirect`: the page's cookie string as read again once
        that request has answered, which may hold cookies it set
        (`page.cookie` is the read made before any request) */
  datatype Environment = Environment(
    frame: Option<FrameView>,
    page: PageView,
    stored: Option<StoredSession>,
    probeSetCookie: Option<string>,
    directProbeOk: bool,
    cookieAfterDirect: string)

  /** The session object extractSessionData returns (its timestamp aside). */
  datatype SessionData = SessionData(
    cookies: string,
    csrfToken: Option<string>,
    sessionId: Option<string>,
    userId: Option<string>)

  // ---------------------------------------------------------------------
  // extractCSRFToken
  // ---------------------------------------------------------------------

  /** The React environment's token, when the environment is there and the
      token is truthy. */
  function ReactToken(env: Option<ReactEnv>): Option<string> {
    if env.Some? && Truthy(env.value.csrfToken) then env.value.csrfToken else None
  }

  /** extractCSRFToken: a truthy `csrf_session_id` cookie; else the page's
      CSRF meta tag whenever the tag exists, even with empty content; else a
      truthy React token; else None. */
  function ExtractCSRFToken(cookies: string, page: PageView): (t: Option<string>)
    ensures Truthy(CookieValue(cookies, CsrfSessionId)) ==> t == CookieValue(cookies, CsrfSessionId)
    ensures !Truthy(CookieValue(cookies, CsrfSessionId)) && page.csrfMeta.Some? ==> t == page.csrfMeta
    ensures t.None? <==>
              !Truthy(CookieValue(cookies, CsrfSessionId)) && page.csrfMeta.None? &&
              !Truthy(ReactToken(page.reactEnv))
    ensures !Truthy(CookieValue(cookies, CsrfSessionId)) && page.csrfMeta.None? ==> t == ReactToken(page.reactEnv)
    ensures t.Some? && t.value == "" ==> page.csrfMeta == Some("")
  {
    var token := CookieValue(cookies, CsrfSessionId);
    if Truthy(token) then token
    else if page.csrfMeta.Some? then page.csrfMeta
    else ReactToken(page.reactEnv)
  }

  // ---------------------------------------------------------------------
  // The fallbacks of extractSessionData, stage by stage
  // ---------------------------------------------------------------------

  /** The first meta tag with non-empty content. */
  function FirstContent(metas: seq<string>): (r: Option<string>)
    ensures r.None? <==> forall k :: 0 <= k < |metas| ==> metas[k] == ""
    ensures r.Some? ==> r.value != ""
    ensures r.Some? ==> exists k :: 0 <= k < |metas| && metas[k] == r.value && forall j :: 0 <= j < k ==> metas[j] == ""
  {
    if metas == [] then None
    else if metas[0] != "" then Some(metas[0])
    else FirstContent(metas[1..])
  }

  /** The cookie string read from the frame ("" without one). */
  function FrameCookies(env: Environment): string {
    if env.frame.Some? then env.frame.value.cookie else ""
  }

  /** The token read from the frame: its first non-empty CSRF meta tag,
      else whatever its React environment holds. */
  function FrameCsrf(env: Environment): Option<string> {
    if env.frame.None? then None
    else
      var metaToken := FirstContent(env.frame.value.csrfMetas);
      if metaToken.None? && env.frame.value.reactEnv.Some? then env.frame.value.reactEnv.value.csrfToken
      else metaToken
  }

  /** The cookies after the page and storage fallbacks. */
  function CookiesFound(env: Environment): string {
    var fromFrame := FrameCookies(env);
    var cookies := if |fromFrame| < MinCookieLength then env.page.cookie else fromFrame;
    if env.stored.Some? && Truthy(env.stored.value.cookies) then env.stored.value.cookies.value
    else cookies
  }

  /** The token before the probe: a truthy stored token overrides the frame's. */
  function CsrfBeforeProbe(env: Environment): Option<string> {
    if env.stored.Some? && Truthy(env.stored.value.csrfToken) then env.stored.value.csrfToken
    else FrameCsrf(env)
  }

  /** The probe request is made when no token is known yet or the cookies
      look incomplete. */
  predicate ProbeRuns(env: Environment) {
    !Truthy(CsrfBeforeProbe(env)) || |CookiesFound(env)| < MinCookieLength
  }

  /** A probe header that mentions "csrf" replaces the token with its
      `csrf_session_id` cookie, which may be None. */
  predicate ProbeOverrides(env: Environment) {
    ProbeRuns(env) && Truthy(env.probeSetCookie) && Contains(env.probeSetCookie.value, "csrf")
  }

  function CsrfAfterProbe(env: Environment): Option<string> {
    if ProbeOverrides(env) then CookieValue(env.probeSetCookie.value, CsrfSessionId)
    else CsrfBeforeProbe(env)
  }

  /** The token returned: extractCSRFToken fills in a falsy one. */
  function CsrfFound(env: Environment): Option<string> {
    var t := CsrfAfterProbe(env);
    if Truthy(t) then t else ExtractCSRFToken(CookiesFound(env), env.page)
  }

  /** The direct fallback replaces everything when the cookies carry
      neither `sessionid` nor `sid_guard` and look incomplete. */
  predicate DirectRuns(env: Environment) {
    var cookies := CookiesFound(env);
    && !Truthy(CookieValue(cookies, SessionId))
    && !Truthy(CookieValue(cookies, SidGuard))
    && |cookies| < MinCookieLength
  }

  /** The session read from a cookie string and a token. */
  function SessionFrom(cookies: string, csrfToken: Option<string>): SessionData {
    SessionData(cookies, csrfToken, CookieValue(cookies, SessionId), CookieValue(cookies, SidGuard))
  }

  /** extractSessionFromTikTok: with an ok answer, the page's cookies as
      read after the request, with the token extractCSRFToken finds in them
      and the ids they carry; otherwise None. */
  function ExtractSessionFromTikTok(env: Environment): (r: Option<SessionData>)
    ensures r.Some? <==> env.directProbeOk
    ensures r.Some? ==> r.value.cookies == env.cookieAfterDirect
    ensures r.Some? ==> r.value.csrfToken == ExtractCSRFToken(env.cookieAfterDirect, env.page)
    ensures r.Some? ==> r.value.sessionId == CookieValue(env.cookieAfterDirect, SessionId)
    ensures r.Some? ==> r.value.userId == CookieValue(env.cookieAfterDirect, SidGuard)
  {
    if env.directProbeOk then
      var cookies := env.cookieAfterDirect;
      Some(SessionFrom(cookies, ExtractCSRFToken(cookies, env.page)))
    else None
  }

  /** What extractSessionData returns, as a composition of the stages. */
  function ResolveSession(env: Environment): Option<SessionData> {
    if DirectRuns(env) then ExtractSessionFromTikTok(env)
    else Some(SessionFrom(CookiesFound(env), CsrfFound(env)))
  }

  // ---------------------------------------------------------------------
  // extractSessionData, step by step
  // ---------------------------------------------------------------------

  /** extractSessionData. `probed` and `directTried` tell whether the probe
      request and the direct fallback were made. */
  method ExtractSessionData(env: Environment) returns (r: Option<SessionData>, probed: bool, directTried: bool)
    ensures r == ResolveSession(env)
    ensures probed <==> ProbeRuns(env)
    ensures directTried <==> DirectRuns(env)
  {
    var cookies := "";
    var csrfToken: Option<string> := None;
    if env.frame.Some? {
      var frame := env.frame.value;
      cookies := frame.cookie;
      var metas := frame.csrfMetas;
      var i := 0;
      while i < |metas|
        invariant 0 <= i <= |metas|
        invariant csrfToken.None?
        invariant FirstContent(metas[i..]) == FirstContent(metas)
      {
        if metas[i] != "" {
          csrfToken := Some(metas[i]);
          break;
        }
        assert metas[i..][1..] == metas[i + 1..];
        i := i + 1;
      }
      assert csrfToken == FirstContent(metas);
      if !Truthy(csrfToken) && frame.reactEnv.Some? {
        csrfToken := frame.reactEnv.value.csrfToken;
      }
    }
    assert csrfToken == FrameCsrf(env);

    if |cookies| < MinCookieLength {
      cookies := env.page.cookie;
    }

    if env.stored.Some? {
      var stored := env.stored.value;
      if Truthy(stored.cookies) {
        cookies := stored.cookies.value;
      }
      if Truthy(stored.csrfToken) {
        csrfToken := stored.csrfToken;
      }
    }
    assert cookies == CookiesFound(env) && csrfToken == CsrfBeforeProbe(env);

    probed := !Truthy(csrfToken) || |cookies| < MinCookieLength;
    if probed {
      var setCookie := env.probeSetCookie;
      if Truthy(setCookie) && Contains(setCookie.value, "csrf") {
        csrfToken := CookieValue(setCookie.value, CsrfSessionId);
      }
    }

    if !Truthy(csrfToken) {
      csrfToken := ExtractCSRFToken(cookies, env.page);
    }

    var sessionId := CookieValue(cookies, SessionId);
    var userId := CookieValue(cookies, SidGuard);

    directTried := !Truthy(sessionId) && !Truthy(userId) && |cookies| < MinCookieLength;
    if directTried {
      r := ExtractSessionFromTikTok(env);
    } else {
      r := Some(SessionData(cookies, csrfToken, sessionId, userId));
    }
  }

  // ---------------------------------------------------------------------
  // What the fallbacks guarantee
  // ---------------------------------------------------------------------

  /** Whatever path produced it, a session's ids are those its cookie
      string carries. */
  lemma SessionIdsFromCookies(env: Environment)
    requires ResolveSession(env).Some?
    ensures var s := ResolveSession(env).value;
            s.sessionId == CookieValue(s.cookies, SessionId) && s.userId == CookieValue(s.cookies, SidGuard)
  {
  }

  /** No session comes back exactly when the direct fallback was needed
      and its request did not answer ok. */
  lemma NoSessionOnlyAfterDirect(env: Environment)
    ensures ResolveSession(env).None? <==> DirectRuns(env) && !env.directProbeOk
  {
  }

  /** Page cookies replace the frame's only when those are shorter than
      50 characters, and truthy stored cookies override both. */
  lemma CookieFallbacks(env: Environment)
    ensures env.stored.Some? && Truthy(env.stored.value.cookies) ==>
              CookiesFound(env) == env.stored.value.cookies.value
    ensures !(env.stored.Some? && Truthy(env.stored.value.cookies)) && env.frame.Some? &&
            MinCookieLength <= |env.frame.value.cookie| ==>
              CookiesFound(env) == env.frame.value.cookie
    ensures !(env.stored.Some? && Truthy(env.stored.value.cookies)) &&
            (env.frame.None? || |env.frame.value.cookie| < MinCookieLength) ==>
              CookiesFound(env) == env.page.cookie
  {
  }

  /** A session that is returned without the direct fallback has cookies
      of at least 50 characters or carries `sessionid` or `sid_guard`. */
  lemma ReturnedSessionIsUsable(env: Environment)
    requires !DirectRuns(env)
    ensures ResolveSession(env).Some?
    ensures var s := ResolveSession(env).value;
            MinCookieLength <= |s.cookies| || Truthy(s.sessionId) || Truthy(s.userId)
  {
  }

  /** A token that is returned falsy means no source had a truthy one: the
      cookies hold no truthy `csrf_session_id`, and either the page's CSRF
      meta tag is there and empty (which ends the search) or there is no
      such tag and no truthy React token. */
  lemma FalsyTokenMeansNoSource(env: Environment)
    requires ResolveSession(env).Some? && !Truthy(ResolveSession(env).value.csrfToken)
    ensures var s := ResolveSession(env).value;
            && !Truthy(CookieValue(s.cookies, CsrfSessionId))
            && (env.page.csrfMeta == Some("") ||
                (env.page.csrfMeta.None? && !Truthy(ReactToken(env.page.reactEnv))))
  {
    var s := ResolveSession(env).value;
    assert s.csrfToken == ExtractCSRFToken(s.cookies, env.page);
  }
  /** A truthy stored token survives when the cookies are long enough: the
      probe is not made and the token is returned as it is. */
  lemma StoredTokenKept(env: Environment)
    requires env.stored.Some? && Truthy(env.stored.value.csrfToken)
    requires MinCookieLength <= |CookiesFound(env)|
    ensures !ProbeRuns(env)
    ensures ResolveSession(env) == Some(SessionFrom(CookiesFound(env), env.stored.value.csrfToken))
  {
  }

  /** A probe header that mentions "csrf" but carries no truthy
      `csrf_session_id` discards whatever token was found before it; the
      token then comes from extractCSRFToken alone. */
  lemma ProbeDiscardsToken(env: Environment)
    requires ProbeOverrides(env)
    requires !Truthy(CookieValue(env.probeSetCookie.value, CsrfSessionId))
    ensures CsrfFound(env) == ExtractCSRFToken(CookiesFound(env), env.page)
  {
  }
}
