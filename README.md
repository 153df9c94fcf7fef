# TikTok publisher: cookies, session resolution and comment publishing

This project models the decision logic of `TikTokPublisher`, a browser-side
helper that posts a comment to a video. The helper first finds the user's
session: a cookie string and a CSRF token, gathered from a login frame, the
host page, stored session data and a probe request. It then resolves the
video's id from its URL and posts the comment to the platform's
comment endpoint. If that post fails, it retries once without explicit
credentials.

The model is in five modules:

- `JsValues` (`js_values.dfy`): optional strings and JavaScript truthiness.
  A value that may be `null` or `undefined` is an `Option`. A string is
  truthy when it is present and not empty.
- `Cookies` (`cookies.dfy`): `extractCookieValue` and `buildCookiesString`.
  - The regular expression `(^|; )name=([^;]*)` is stated as the least
    index where `name=` starts the header or follows `"; "`, followed by
    the longest run without `;`.
  - It is proved that reading a named cookie back out of a built cookie
    string gives the field that was written.
- `VideoIds` (`video_ids.dfy`): `extractVideoId` and `getAwemeId`.
  - The `/video/(\d+)` match is the leftmost `/video/` that is followed by a
    digit, and then the longest run of digits.
  - The URL a short link redirects to, and the id reported by the
    video-detail lookup, are parameters.
- `SessionResolver` (`session_resolver.dfy`): `extractCSRFToken`,
  `extractSessionFromTikTok` and `extractSessionData`.
  - Everything the browser supplies is a field of `Environment`: the frame,
    the page, storage, the probe's `Set-Cookie` header, the direct
    request's status, and the page's cookie string as read again after
    that request, which may hold cookies the request set.
  - `ExtractSessionData` updates its `cookies` and `csrfToken` step by step,
    as the source does. Its loop over the frame's meta tags stops at the
    first non-empty one.
  - It is proved equal to `ResolveSession`, a composition of one function
    per fallback stage. The lemmas state what those stages guarantee.
- `Publisher` (`publisher.dfy`): the `TikTokPublisher` class.
  - Its fields are updated in place by `SetSession`.
  - Its publish methods build the request, headers included, imperatively.
  - Each publish method is proved equal to a function of the session and
    the network's answers. The promised properties are stated on those
    functions:
    - the order of the checks;
    - the request sent;
    - success exactly when the status is ok and `status_code` is 0;
    - which error message is chosen.

Error messages are constructors of `PublishError`, one per message the source
can produce. Their Arabic text is not reproduced.

## Model

| member | source | states |
|---|---|---|
| `Cookies.ExtractCookieValueSpec` | tiktok-publisher.js:182-186 | None exactly when no `name=` starts the header or follows `"; "`; otherwise the value after the leftmost such start, running to the next `;` or the end. It may be empty and never holds `;`. |
| `Cookies.ExtractFromWitness` | tiktok-publisher.js:182-186 | Conversely, a leftmost start and the `[^;]*` run after it determine the result. |
| `Cookies.FindNameLeast` | tiktok-publisher.js:184 | The scan for a cookie start `name=` misses no start: none lies before the one it returns, and there is none at all when it returns nothing. |
| `Cookies.JoinThenExtract` | tiktok-publisher.js:182-186 | Reading a name out of `"; "`-joined pairs (no `;` anywhere, no `=` in names) gives the value of the first pair with that name, or None. |
| `Cookies.PushedNames` | tiktok-publisher.js:205-209 | A cookie is pushed exactly when its field is truthy, in the fixed order `sessionid`, `csrf_session_id`, `sid_guard`, `tt_chain_token`. |
| `Cookies.BuildCookiesString` | tiktok-publisher.js:204-211 | The built string is empty exactly when no field is truthy. |
| `Cookies.BuildThenExtract` | tiktok-publisher.js:182-211 | Round trip: when no truthy field holds `;`, reading each named cookie back out of the built string gives the field if it is truthy and None if it is not. |
| `Cookies.EntriesAppend` | tiktok-publisher.js:205-209 | Pushing one more name adds its `name=value` pair at the end of the list. |
| `Cookies.SessionIdExample` | tiktok-publisher.js:182-186 | A header `sessionid=X` gives `X`. |
| `VideoIds.MatchVideoPath` | tiktok-publisher.js:220-222 | A match yields a non-empty string of digits. |
| `VideoIds.MatchVideoPathSpec` | tiktok-publisher.js:220-222 | None exactly when no `/video/` is followed by a digit; otherwise the whole digit run after the leftmost such `/video/`. |
| `VideoIds.ExtractVideoId` | tiktok-publisher.js:218-238 | A video path in the URL gives its id. A URL that is neither a video path nor a short link gives None. A short link gives the pattern's result on the redirect target, and None when the redirect request fails. Any id is non-empty digits. |
| `VideoIds.VideoIdWithoutNetwork` | tiktok-publisher.js:220-237 | Unless the URL is a short link without a video path, the result does not depend on the redirect answer. |
| `VideoIds.VideoPathGivesId` | tiktok-publisher.js:220-222 | Any URL `p + "/video/123456" + s` gives `123456`, whatever the network answers, provided no `/video/` in front of it is followed by a digit and `s` does not start with a digit. |
| `VideoIds.GetAwemeId` | tiktok-publisher.js:246-276 | None exactly when the URL gives no id. Otherwise the detail lookup's id when it is truthy, else the URL's id; never empty. |
| `SessionResolver.ExtractCSRFToken` | tiktok-publisher.js:154-174 | The order is: a truthy `csrf_session_id` cookie; else the page's CSRF meta tag whenever it exists; else, when there is no tag, the React token when it is truthy. None exactly when all three fail; an empty token only comes from an empty meta tag. |
| `SessionResolver.FirstContent` | tiktok-publisher.js:33-38 | The first non-empty meta content: None exactly when every content is empty; otherwise a non-empty content whose position is preceded only by empty contents. |
| `SessionResolver.ExtractSessionFromTikTok` | tiktok-publisher.js:118-147 | A session exactly when the direct request answers ok. It holds the page's cookies as read again after that request, the token `extractCSRFToken` finds in them, and the `sessionid` and `sid_guard` they carry. |
| `SessionResolver.ExtractSessionData` | tiktok-publisher.js:21-112 | The step-by-step resolution equals the stage-wise `ResolveSession`. The probe is made exactly when `ProbeRuns` holds, and the direct fallback exactly when `DirectRuns` holds. |
| `SessionResolver.CookieFallbacks` | tiktok-publisher.js:50-60 | Truthy stored cookies win. Otherwise the frame's cookies are kept when they have at least 50 characters, and the page's are used when they are shorter or missing. |
| `SessionResolver.StoredTokenKept` | tiktok-publisher.js:59-67 | A truthy stored token with cookies of 50 or more characters means no probe, and the token is returned as it is. |
| `SessionResolver.ProbeDiscardsToken` | tiktok-publisher.js:67-87 | A probe header that mentions `csrf` but has no truthy `csrf_session_id` discards any earlier token; the token then comes from `extractCSRFToken` alone. |
| `SessionResolver.SessionIdsFromCookies` | tiktok-publisher.js:89-107 | On either path, the returned session's ids are the `sessionid` and `sid_guard` values of its own cookie string. |
| `SessionResolver.NoSessionOnlyAfterDirect` | tiktok-publisher.js:96-98 | No session is returned exactly when the direct fallback is needed and its request does not answer ok. |
| `SessionResolver.ReturnedSessionIsUsable` | tiktok-publisher.js:96-107 | A session returned without the direct fallback has 50 or more characters of cookies, or a truthy `sessionid` or `sid_guard`. |
| `SessionResolver.FalsyTokenMeansNoSource` | tiktok-publisher.js:84-87 | A falsy returned token means the cookies hold no truthy `csrf_session_id`. Also, either the page's meta tag is there and empty, or it is missing and there is no truthy React token. |
| `Publisher.ApiHeaders` | tiktok-publisher.js:303-319 | The headers carry the cookies, the platform's origin, the referer and the user agent, and the token under both `X-CSRFToken` and `csrf-token` exactly when it is truthy. |
| `Publisher.FailureMessage` | tiktok-publisher.js:347 | The error prefers `status_msg`, then `message`, then the failure text with `status_code`, or with the HTTP status when the code is missing or 0. |
| `Publisher.Excerpt` | tiktok-publisher.js:336 | The excerpt is a prefix of the body text of at most 200 characters, and is the whole text when the text is that short; a longer text gives its first 200 characters. |
| `Publisher.ApiReplyOutcome` | tiktok-publisher.js:330-349 | Published exactly when the response is ok and its JSON has `status_code` 0. A rejected JSON reply fails with `FailureMessage`. A non-JSON body fails with the excerpt of its text, or as unreadable when the text cannot be read. A null reply fails as such. |
| `Publisher.ApiAttempt` | tiktok-publisher.js:284-358 | The video is resolved before the credentials are checked. Without an id, or without truthy cookies and token, it fails and posts nothing. Otherwise it posts `item_id = aweme_id = id`, `reply_id = 0` with the cookies and both CSRF headers. It succeeds exactly when the response is ok with `status_code` 0, A failed POST is a network failure. Any other failure is the error `ApiReplyOutcome` gives for the response. The headers are exactly `ApiHeaders`. |
| `Publisher.AutomationHeaders` | tiktok-publisher.js:438-448 | The automation headers carry neither cookies nor a CSRF token. |
| `Publisher.AutomationReplyOutcome` | tiktok-publisher.js:451-461 | Published exactly when the response is ok and its JSON has `status_code` 0. Otherwise the error is `status_msg` when it is truthy, else the generic failure. A non-JSON body and a null reply each have their own error. |
| `Publisher.AutomationAttempt` | tiktok-publisher.js:422-470 | It posts exactly when the video resolves, with the same payload and exactly `AutomationHeaders`: no cookie or CSRF header. It succeeds exactly when the response is ok with `status_code` 0. A failed POST is a network failure. Any other failure is the error `AutomationReplyOutcome` gives for the response. |
| `Publisher.TikTokPublisher.constructor` | tiktok-publisher.js:7-14 | A new publisher has the platform's base URL and comment endpoint, and no session. |
| `Publisher.TikTokPublisher.BuildCookiesString` | tiktok-publisher.js:204-211 | Pushing pairs one by one and joining them gives `Cookies.BuildCookiesString`. |
| `Publisher.TikTokPublisher.SetSession` | tiktok-publisher.js:192-197 | `sessionCookies` is the raw string when it is truthy, else the built string, from which every named cookie reads back as its field. The token and ids are copied, and the URLs are unchanged. |
| `Publisher.TikTokPublisher.PublishViaAPI` | tiktok-publisher.js:284-358 | The imperative request building, with the CSRF headers added in place, gives the result and request of `ApiAttempt` on the object's session. |
| `Publisher.TikTokPublisher.PublishViaAutomation` | tiktok-publisher.js:422-470 | The result and request are those of `AutomationAttempt`. |
| `Publisher.TikTokPublisher.PublishAutomated` | tiktok-publisher.js:396-414 | A successful API result is returned unchanged. The fallback runs exactly when it failed, and its result is then returned. |

## Left out

- Network requests are not modelled: the probe, the direct session request, the redirect lookup, the video-detail lookup and the POSTs. Only their outcomes are, as parameters (`Environment`, `Network`, `redirected`, `detailId`).
- The DOM and browser globals are not modelled as such: `document.cookie`, the meta-tag queries, `window.__UNSTABLE__REACT_ENVIRONMENT__`, `localStorage`/`sessionStorage` and `navigator.userAgent`. Their values are given as strings and options.
- Which meta tags match `meta[name*="csrf"], meta[property*="csrf"]` is a DOM question; the model takes the matched contents in document order.
- `JSON.parse`, `response.json()` and `JSON.stringify` are not modelled; a body is already classified as a JSON reply, JSON `null` or non-JSON text.
- JSON fields are assumed to have the expected types. Non-string `cookies`, `csrfToken`, `status_msg` or `message` values are out of scope, and so is a non-integer `status_code`.
- Timestamps (`extractedAt`), console logging and the module export glue are left out.
- `validateSession` is left out: it is a network probe plus a `status_code === 0` test.
- Cookies.ExtractCookieValue: requires the name to hold no regular-expression metacharacters. The source builds the pattern from the name unescaped, and every call site passes a fixed literal name.
- Catch blocks that no modelled input reaches are not modelled. These are the outer ones in `extractSessionData`, `getAwemeId` and `publishAutomated`, and the `'حدث خطأ غير متوقع'` default: every error message the model produces is non-empty.
- An access to the login frame that throws is modelled as no frame at all, because cross-origin access fails at the first read of its document.
- Lengths and `substring` count UTF-16 code units in the source and characters here.
- After `response.json()` has failed, `response.text()` reads an already used body. In a browser that follows the Fetch standard this rejects for every non-null body, so the message with the first 200 characters of the body is never produced. A null body (a 204 reply, say) reads back as `""`. `NotJson(None)` stands for the rejection, and its error is `BodyUnreadable`. `NotJson(Some(t))` is kept for the code as written and for a null body, where `t` is `""`.
- The publishing flow, read as a whole, suggests that missing credentials end a publish before any network request. The code does not: `publishViaAPI` resolves the video id, which can issue the redirect and detail requests, before it checks the credentials. The model follows the code. `ApiAttempt` promises only that no POST is made without credentials, and that an unresolved video is reported first.
