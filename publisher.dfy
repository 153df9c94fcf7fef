/** The TikTokPublisher object: the session it holds, and the two ways it
    posts a comment. publishViaAPI sends the session's cookies and CSRF
    token explicitly; publishViaAutomation relies on the browser to attach
    its cookies; publishAutomated tries the first and falls back to the
    second. Every network answer is a parameter. */
module Publisher {
  import opened JsValues
  import opened Cookies
  import opened VideoIds

  const BaseUrl: string := "https://www.tiktok.com"
  const CommentEndpoint: string := "https://www.tiktok.com/api/comment/publish/"

  // ---------------------------------------------------------------------
  // Requests and replies
  // ---------------------------------------------------------------------

  /** The JSON body posted to the comment endpoint. */
  datatype Payload = Payload(text: string, itemId: string, awemeId: string, replyId: int)

  /** A POST to the comment endpoint. */
  datatype Request = Request(endpoint: string, payload: Payload, headers: map<string, string>)

  /** The fields of a parsed JSON reply that the publisher looks at. */
  datatype Reply = Reply(statusCode: Option<int>, statusMsg: Option<string>, message: Option<string>)

  /** A response body: JSON that is an object (or another non-null value,
      whose fields are then all None), the JSON literal null, or text that
      is not JSON; for the latter, `text` is None when the body can no
      longer be read once the JSON parse has consumed it. */
  datatype Body = Json(reply: Reply) | JsonNull | NotJson(text: Option<string>)

  datatype HttpResponse = HttpResponse(ok: bool, status: int, body: Body)

  /** What the network answers during one publish attempt: the URL a short
      link redirects to and the id the video-detail lookup reports (both as
      getAwemeId reads them), and the response to the POST, None when the
      request fails. */
  datatype Network = Network(redirected: Option<string>, detailId: Option<string>, response: Option<HttpResponse>)

  /** The message of the error a publish attempt ends with. */
  datatype PublishError =
    | VideoUnavailable            // publishViaAPI: the link is invalid or unavailable
    | InvalidVideoLink            // publishViaAutomation: the link is invalid
    | NotLoggedIn                 // no session cookies or no CSRF token
    | NetworkFailure              // the POST itself fails
    | UnexpectedResponse(excerpt: string)
    | BodyUnreadable              // the text of a non-JSON body cannot be read
    | NotJsonReply                // publishViaAutomation: the body is not JSON
    | NullReply                   // a field of a null reply is read
    | ServerMessage(text: string)
    | FailedWithCode(code: int)
    | AutomationFailed

  datatype Channel = ViaApi | ViaAutomation

  /** `{success: true, message, data}` or `{success: false, error}`. */
  datatype PublishResult = Published(channel: Channel, data: Reply) | Failed(error: PublishError)

  /** The outcome of an attempt and the POST it made, if any. */
  datatype Attempt = Attempt(result: PublishResult, sent: Option<Request>)

  /** A session object handed to setSession: the raw cookie string, the
      token and ids, and the cookie-named fields used when there is no raw
      string. */
  datatype SessionInput = SessionInput(
    cookies: Option<string>,
    csrfToken: Option<string>,
    sessionId: Option<string>,
    userId: Option<string>,
    fields: CookieFields)

  // ---------------------------------------------------------------------
  // publishViaAPI, as a function of the session and the network
  // ---------------------------------------------------------------------

  /** The payload both publish paths post. */
  function CommentPayload(comment: string, awemeId: string): Payload {
    Payload(comment, awemeId, awemeId, 0)
  }

  /** The headers publishViaAPI sends: the fixed ones, the cookies, and the
      CSRF token under both of its names when the token is truthy. */
  function ApiHeaders(videoUrl: string, userAgent: string, cookies: string, csrf: Option<string>): (h: map<string, string>)
    ensures "Cookie" in h && h["Cookie"] == cookies
    ensures "Referer" in h && h["Referer"] == videoUrl && "User-Agent" in h && h["User-Agent"] == userAgent
    ensures "Origin" in h && h["Origin"] == BaseUrl
    ensures Truthy(csrf) ==> "X-CSRFToken" in h && h["X-CSRFToken"] == csrf.value
    ensures Truthy(csrf) ==> "csrf-token" in h && h["csrf-token"] == csrf.value
    ensures !Truthy(csrf) ==> "X-CSRFToken" !in h && "csrf-token" !in h
  {
    var base := map[
      "Content-Type" := "application/json",
      "Accept" := "application/json, text/plain, */*",
      "Accept-Language" := "ar,en-US;q=0.9,en;q=0.8",
      "Origin" := BaseUrl,
      "Referer" := videoUrl,
      "User-Agent" := userAgent,
      "X-Requested-With" := "XMLHttpRequest",
      "Cookie" := cookies];
    if Truthy(csrf) then base["X-CSRFToken" := csrf.value]["csrf-token" := csrf.value] else base
  }

  /** The error message of a rejected reply: `status_msg`, else `message`,
      else the failure text with `status_code`, or the HTTP status when the
      code is missing or zero. */
  function FailureMessage(reply: Reply, status: int): (e: PublishError)
    ensures Truthy(reply.statusMsg) ==> e == ServerMessage(reply.statusMsg.value)
    ensures !Truthy(reply.statusMsg) && Truthy(reply.message) ==> e == ServerMessage(reply.message.value)
    ensures !Truthy(reply.statusMsg) && !Truthy(reply.message) ==>
              e.FailedWithCode? &&
              e.code == if reply.statusCode.Some? && reply.statusCode.value != 0 then reply.statusCode.value else status
  {
    if Truthy(reply.statusMsg) then ServerMessage(reply.statusMsg.value)
    else if Truthy(reply.message) then ServerMessage(reply.message.value)
    else if reply.statusCode.Some? && reply.statusCode.value != 0 then FailedWithCode(reply.statusCode.value)
    else FailedWithCode(status)
  }

  /** `text.substring(0, 200)`. */
  function Excerpt(text: string): (x: string)
    ensures |x| <= 200 && x <= text
    ensures |text| <= 200 ==> x == text
    ensures |text| > 200 ==> x == text[..200]
  {
    if |text| <= 200 then text else text[..200]
  }

  /** How publishViaAPI reads the response to its POST. */
  function ApiReplyOutcome(response: HttpResponse): (r: PublishResult)
    ensures r.Published? <==> response.ok && response.body.Json? && response.body.reply.statusCode == Some(0)
    ensures r.Published? ==> r == Published(ViaApi, response.body.reply)
    ensures response.body.Json? && !r.Published? ==> r == Failed(FailureMessage(response.body.reply, response.status))
    ensures response.body.NotJson? ==>
              r == Failed(if response.body.text.Some? then UnexpectedResponse(Excerpt(response.body.text.value))
                          else BodyUnreadable)
    ensures response.body.JsonNull? ==> r == Failed(NullReply)
  {
    match response.body
    case NotJson(text) =>
      if text.Some? then Failed(UnexpectedResponse(Excerpt(text.value))) else Failed(BodyUnreadable)
    case JsonNull => Failed(NullReply)
    case Json(reply) =>
      if response.ok && reply.statusCode == Some(0) then Published(ViaApi, reply)
      else Failed(FailureMessage(reply, response.status))
  }

  /** publishViaAPI with the session's cookies and token.
      - The video is resolved first: without an id the attempt fails
        before the credentials are looked at, and nothing is posted.
      - Without truthy cookies and token it fails and nothing is posted.
      - Otherwise it posts the comment for that id, with the cookies and
        the token under both CSRF header names, and succeeds exactly when
        the response is ok with `status_code` 0. */
  function ApiAttempt(cookies: Option<string>, csrf: Option<string>, endpoint: string,
                      comment: string, videoUrl: string, userAgent: string, net: Network): (a: Attempt)
    ensures GetAwemeId(videoUrl, net.redirected, net.detailId).None? ==> a == Attempt(Failed(VideoUnavailable), None)
    ensures GetAwemeId(videoUrl, net.redirected, net.detailId).Some? && !(Truthy(cookies) && Truthy(csrf)) ==>
              a == Attempt(Failed(NotLoggedIn), None)
    ensures a.sent.Some? <==> GetAwemeId(videoUrl, net.redirected, net.detailId).Some? && Truthy(cookies) && Truthy(csrf)
    ensures a.sent.Some? ==>
              var id := GetAwemeId(videoUrl, net.redirected, net.detailId).value;
              var req := a.sent.value;
              && req.endpoint == endpoint
              && req.payload == Payload(comment, id, id, 0)
              && "Cookie" in req.headers && req.headers["Cookie"] == cookies.value
              && "X-CSRFToken" in req.headers && req.headers["X-CSRFToken"] == csrf.value
              && "csrf-token" in req.headers && req.headers["csrf-token"] == csrf.value
              && req.headers == ApiHeaders(videoUrl, userAgent, cookies.value, csrf)
    ensures a.result.Published? <==>
              a.sent.Some? && net.response.Some? && net.response.value.ok &&
              net.response.value.body.Json? && net.response.value.body.reply.statusCode == Some(0)
    ensures a.sent.Some? && net.response.None? ==> a.result == Failed(NetworkFailure)
    ensures a.sent.Some? && net.response.Some? ==> a.result == ApiReplyOutcome(net.response.value)
  {
    var awemeId := GetAwemeId(videoUrl, net.redirected, net.detailId);
    if awemeId.None? then Attempt(Failed(VideoUnavailable), None)
    else if !Truthy(cookies) || !Truthy(csrf) then Attempt(Failed(NotLoggedIn), None)
    else
      var req := Request(endpoint, CommentPayload(comment, awemeId.value),
                         ApiHeaders(videoUrl, userAgent, cookies.value, csrf));
      match net.response
      case None => Attempt(Failed(NetworkFailure), Some(req))
      case Some(response) => Attempt(ApiReplyOutcome(response), Some(req))
  }

  // ---------------------------------------------------------------------
  // publishViaAutomation
  // ---------------------------------------------------------------------

  /** The headers publishViaAutomation sends: no cookies and no token. */
  function AutomationHeaders(videoUrl: string, userAgent: string): (h: map<string, string>)
    ensures "Cookie" !in h && "X-CSRFToken" !in h && "csrf-token" !in h
    ensures "Referer" in h && h["Referer"] == videoUrl && "User-Agent" in h && h["User-Agent"] == userAgent
  {
    map[
      "Content-Type" := "application/json",
      "Accept" := "application/json",
      "Origin" := BaseUrl,
      "Referer" := videoUrl,
      "User-Agent" := userAgent]
  }

  /** How publishViaAutomation reads the response to its POST. */
  function AutomationReplyOutcome(response: HttpResponse): (r: PublishResult)
    ensures r.Published? <==> response.ok && response.body.Json? && response.body.reply.statusCode == Some(0)
    ensures r.Published? ==> r == Published(ViaAutomation, response.body.reply)
    ensures response.body.Json? && !r.Published? ==>
              r == Failed(if Truthy(response.body.reply.statusMsg) then ServerMessage(response.body.reply.statusMsg.value)
                          else AutomationFailed)
    ensures response.body.NotJson? ==> r == Failed(NotJsonReply)
    ensures response.body.JsonNull? ==> r == Failed(NullReply)
  {
    match response.body
    case NotJson(_) => Failed(NotJsonReply)
    case JsonNull => Failed(NullReply)
    case Json(reply) =>
      if response.ok && reply.statusCode == Some(0) then Published(ViaAutomation, reply)
      else if Truthy(reply.statusMsg) then Failed(ServerMessage(reply.statusMsg.value))
      else Failed(AutomationFailed)
  }

  /** publishViaAutomation: no credentials are checked or sent; the comment
      is posted whenever the video resolves, and it succeeds exactly when
      the response is ok with `status_code` 0. */
  function AutomationAttempt(endpoint: string, comment: string, videoUrl: string, userAgent: string,
                             net: Network): (a: Attempt)
    ensures GetAwemeId(videoUrl, net.redirected, net.detailId).None? ==> a == Attempt(Failed(InvalidVideoLink), None)
    ensures a.sent.Some? <==> GetAwemeId(videoUrl, net.redirected, net.detailId).Some?
    ensures a.sent.Some? ==>
              var id := GetAwemeId(videoUrl, net.redirected, net.detailId).value;
              && a.sent.value.endpoint == endpoint
              && a.sent.value.payload == Payload(comment, id, id, 0)
              && a.sent.value.headers == AutomationHeaders(videoUrl, userAgent)
              && "Cookie" !in a.sent.value.headers
              && "X-CSRFToken" !in a.sent.value.headers && "csrf-token" !in a.sent.value.headers
    ensures a.result.Published? <==>
              a.sent.Some? && net.response.Some? && net.response.value.ok &&
              net.response.value.body.Json? && net.response.value.body.reply.statusCode == Some(0)
    ensures a.sent.Some? && net.response.None? ==> a.result == Failed(NetworkFailure)
    ensures a.sent.Some? && net.response.Some? ==> a.result == AutomationReplyOutcome(net.response.value)
  {
    var awemeId := GetAwemeId(videoUrl, net.redirected, net.detailId);
    if awemeId.None? then Attempt(Failed(InvalidVideoLink), None)
    else
      var req := Request(endpoint, CommentPayload(comment, awemeId.value), AutomationHeaders(videoUrl, userAgent));
      match net.response
      case None => Attempt(Failed(NetworkFailure), Some(req))
      case Some(response) => Attempt(AutomationReplyOutcome(response), Some(req))
  }

  // ---------------------------------------------------------------------
  // The publisher object
  // ---------------------------------------------------------------------

  class TikTokPublisher {
    var apiBaseUrl: string
    var apiEndpoint: string
    var sessionCookies: Option<string>
    var csrfToken: Option<string>
    var userId: Option<string>
    var sessionId: Option<string>

    /** A publisher with the platform's URLs and no session. */
    constructor()
      ensures apiBaseUrl == BaseUrl && apiEndpoint == CommentEndpoint
      ensures sessionCookies.None? && csrfToken.None? && userId.None? && sessionId.None?
    {
      apiBaseUrl := BaseUrl;
      apiEndpoint := CommentEndpoint;
      sessionCookies := None;
      csrfToken := None;
      userId := None;
      sessionId := None;
    }

    /** buildCookiesString: pushes a pair for each truthy field in the
        fixed order, then joins them with "; ". */
    method BuildCookiesString(d: CookieFields) returns (s: string)
      ensures s == Cookies.BuildCookiesString(d)
    {
      var cookies: seq<Cookie> := [];
      ghost var pushed: seq<CookieName> := [];
      if Truthy(d.sessionid) {
        EntriesAppend(d, pushed, SessionId);
        cookies := cookies + [Cookie("sessionid", d.sessionid.value)];
        pushed := pushed + [SessionId];
      }
      if Truthy(d.csrfSessionId) {
        EntriesAppend(d, pushed, CsrfSessionId);
        cookies := cookies + [Cookie("csrf_session_id", d.csrfSessionId.value)];
        pushed := pushed + [CsrfSessionId];
      }
      if Truthy(d.sidGuard) {
        EntriesAppend(d, pushed, SidGuard);
        cookies := cookies + [Cookie("sid_guard", d.sidGuard.value)];
        pushed := pushed + [SidGuard];
      }
      if Truthy(d.ttChainToken) {
        EntriesAppend(d, pushed, TtChainToken);
        cookies := cookies + [Cookie("tt_chain_token", d.ttChainToken.value)];
        pushed := pushed + [TtChainToken];
      }
      assert pushed == PushedNames(d);
      s := JoinCookies(cookies);
    }

    /** setSession: the raw cookie string when it is truthy, otherwise the
        one built from the cookie-named fields, from which each named cookie
        then reads back as its field; the token and ids are copied as they
        are and the URLs do not change. */
    method SetSession(data: SessionInput)
      modifies this
      ensures sessionCookies == if Truthy(data.cookies) then data.cookies else Some(Cookies.BuildCookiesString(data.fields))
      ensures csrfToken == data.csrfToken && sessionId == data.sessionId && userId == data.userId
      ensures apiBaseUrl == old(apiBaseUrl) && apiEndpoint == old(apiEndpoint)
      ensures !Truthy(data.cookies) && Serialisable(data.fields) ==>
                forall n :: CookieValue(sessionCookies.value, n) ==
                            if Truthy(Field(data.fields, n)) then Field(data.fields, n) else None
    {
      if Truthy(data.cookies) {
        sessionCookies := data.cookies;
      } else {
        var built := BuildCookiesString(data.fields);
        sessionCookies := Some(built);
        if Serialisable(data.fields) {
          forall n: CookieName
            ensures CookieValue(built, n) == if Truthy(Field(data.fields, n)) then Field(data.fields, n) else None
          {
            BuildThenExtract(data.fields, n);
          }
        }
      }
      csrfToken := data.csrfToken;
      sessionId := data.sessionId;
      userId := data.userId;
    }

    /** publishViaAPI: builds the headers, adds the CSRF headers in place,
        and posts; `sent` is the request made, if any. */
    method PublishViaAPI(comment: string, videoUrl: string, userAgent: string, net: Network)
      returns (r: PublishResult, sent: Option<Request>)
      ensures Attempt(r, sent) == ApiAttempt(sessionCookies, csrfToken, apiEndpoint, comment, videoUrl, userAgent, net)
    {
      var awemeId := GetAwemeId(videoUrl, net.redirected, net.detailId);
      if awemeId.None? {
        return Failed(VideoUnavailable), None;
      }
      if !Truthy(sessionCookies) || !Truthy(csrfToken) {
        return Failed(NotLoggedIn), None;
      }
      var payload := CommentPayload(comment, awemeId.value);
      var headers := map[
        "Content-Type" := "application/json",
        "Accept" := "application/json, text/plain, */*",
        "Accept-Language" := "ar,en-US;q=0.9,en;q=0.8",
        "Origin" := BaseUrl,
        "Referer" := videoUrl,
        "User-Agent" := userAgent,
        "X-Requested-With" := "XMLHttpRequest",
        "Cookie" := sessionCookies.value];
      if Truthy(csrfToken) {
        headers := headers["X-CSRFToken" := csrfToken.value];
        headers := headers["csrf-token" := csrfToken.value];
      }
      sent := Some(Request(apiEndpoint, payload, headers));
      if net.response.None? {
        return Failed(NetworkFailure), sent;
      }
      r := ApiReplyOutcome(net.response.value);
    }

    /** publishViaAutomation: posts without the session's credentials. */
    method PublishViaAutomation(comment: string, videoUrl: string, userAgent: string, net: Network)
      returns (r: PublishResult, sent: Option<Request>)
      ensures Attempt(r, sent) == AutomationAttempt(apiEndpoint, comment, videoUrl, userAgent, net)
    {
      var awemeId := GetAwemeId(videoUrl, net.redirected, net.detailId);
      if awemeId.None? {
        return Failed(InvalidVideoLink), None;
      }
      sent := Some(Request(apiEndpoint, CommentPayload(comment, awemeId.value), AutomationHeaders(videoUrl, userAgent)));
      if net.response.None? {
        return Failed(NetworkFailure), sent;
      }
      r := AutomationReplyOutcome(net.response.value);
    }

    /** publishAutomated: the API result when it succeeds, unchanged;
        otherwise, and only then, the automation result. `apiNet` and
        `automationNet` are the network answers seen by each attempt. */
    method PublishAutomated(comment: string, videoUrl: string, userAgent: string,
                            apiNet: Network, automationNet: Network)
      returns (r: PublishResult, fellBack: bool)
      ensures var primary := ApiAttempt(sessionCookies, csrfToken, apiEndpoint, comment, videoUrl, userAgent, apiNet).result;
              && (fellBack <==> !primary.Published?)
              && (!fellBack ==> r == primary)
              && (fellBack ==> r == AutomationAttempt(apiEndpoint, comment, videoUrl, userAgent, automationNet).result)
      ensures r.Published? ==> (r.channel == ViaApi <==> !fellBack)
    {
      var primary, primarySent := PublishViaAPI(comment, videoUrl, userAgent, apiNet);
      if primary.Published? {
        return primary, false;
      }
      var fallbackSent;
      r, fallbackSent := PublishViaAutomation(comment, videoUrl, userAgent, automationNet);
      fellBack := true;
    }
  }
}
