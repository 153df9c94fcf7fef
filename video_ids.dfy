/** Resolving the video a comment goes to: extractVideoId reads the numeric
    id out of a video URL, following a short link through its redirect, and
    getAwemeId prefers the id that the video-detail lookup reports. The
    network answers (the URL a short link redirects to, the id in the detail
    response) are parameters. */
module VideoIds {
  import opened JsValues

  /** The host of the platform's short links. */
  const ShortLinkHost: string := "vm.tiktok.com"

  predicate IsDigit(ch: char) {
    '0' <= ch <= '9'
  }

  predicate AllDigits(s: string) {
    forall k :: 0 <= k < |s| ==> IsDigit(s[k])
  }

  /** A match of `\/video\/(\d+)` starts at `p`: "/video/" and a digit. */
  predicate VideoAt(u: string, p: nat) {
    && p + 8 <= |u|
    && u[p..p + 7] == "/video/"
    && IsDigit(u[p + 7])
  }

  ghost predicate FirstVideoAt(u: string, p: nat) {
    VideoAt(u, p) && forall q: nat :: q < p ==> !VideoAt(u, q)
  }

  /** `d` is the whole digit run that begins at `start` (`\d+` is greedy). */
  ghost predicate DigitRunAt(u: string, start: nat, d: string) {
    && start + |d| <= |u|
    && u[start..start + |d|] == d
    && AllDigits(d)
    && (start + |d| == |u| || !IsDigit(u[start + |d|]))
  }

  /** The leftmost match at or after `from`. */
  function FindVideo(u: string, from: nat): (r: Option<nat>)
    decreases |u| - from
    ensures r.Some? ==> from <= r.value && VideoAt(u, r.value)
    ensures r.Some? ==> forall q: nat :: from <= q < r.value ==> !VideoAt(u, q)
    ensures r.None? ==> forall q: nat :: from <= q ==> !VideoAt(u, q)
  {
    if |u| < from + 8 then None
    else if VideoAt(u, from) then Some(from)
    else FindVideo(u, from + 1)
  }

  /** The end of the digit run that begins at `start`. */
  function DigitsEnd(u: string, start: nat): (e: nat)
    requires start <= |u|
    decreases |u| - start
    ensures start <= e <= |u|
    ensures forall k :: start <= k < e ==> IsDigit(u[k])
    ensures e == |u| || !IsDigit(u[e])
  {
    if start == |u| || !IsDigit(u[start]) then start else DigitsEnd(u, start + 1)
  }

  /** `url.match(/\/video\/(\d+)/)` and its first group: a non-empty run of
      digits, or None when the URL has no such path. */
  function MatchVideoPath(u: string): (r: Option<string>)
    ensures r.Some? ==> r.value != "" && AllDigits(r.value)
  {
    match FindVideo(u, 0)
    case None => None
    case Some(p) => Some(u[p + 7..DigitsEnd(u, p + 7)])
  }

  /** None exactly when no "/video/" is followed by a digit; otherwise the
      whole digit run after the leftmost one. */
  lemma MatchVideoPathSpec(u: string)
    ensures MatchVideoPath(u).None? <==> forall p: nat :: !VideoAt(u, p)
    ensures MatchVideoPath(u).Some? ==>
              exists p: nat :: FirstVideoAt(u, p) && DigitRunAt(u, p + 7, MatchVideoPath(u).value)
  {
    var f := FindVideo(u, 0);
    if f.Some? {
      var p := f.value;
      var d := u[p + 7..DigitsEnd(u, p + 7)];
      assert FirstVideoAt(u, p) && DigitRunAt(u, p + 7, d);
    }
  }

  /** extractVideoId. A URL with a video path gives its id, and any other
      URL that is not a short link gives None, both without the network;
      a short link gives the id in the URL it redirects to, and None when
      that request fails (`redirected` is None) or the target has no id. */
  function ExtractVideoId(url: string, redirected: Option<string>): (r: Option<string>)
    ensures r.Some? ==> r.value != "" && AllDigits(r.value)
    ensures MatchVideoPath(url).Some? ==> r == MatchVideoPath(url)
    ensures MatchVideoPath(url).None? && !Contains(url, ShortLinkHost) ==> r == None
    ensures MatchVideoPath(url).None? && Contains(url, ShortLinkHost) ==>
              r == if redirected.None? then None else MatchVideoPath(redirected.value)
  {
    var direct := MatchVideoPath(url);
    if direct.Some? then direct
    else if Contains(url, ShortLinkHost) then
      match redirected
      case None => None
      case Some(finalUrl) => MatchVideoPath(finalUrl)
    else None
  }

  /** Only a short link without a video path consults the redirect. */
  lemma VideoIdWithoutNetwork(url: string, a: Option<string>, b: Option<string>)
    requires MatchVideoPath(url).Some? || !Contains(url, ShortLinkHost)
    ensures ExtractVideoId(url, a) == ExtractVideoId(url, b)
  {
  }

  /** getAwemeId: no id when the URL gives none; otherwise the id reported
      by the detail lookup when it reports one, else the id from the URL.
      `detailId` is `aweme_detail.aweme_id` of that lookup's response, None
      when the lookup failed or did not carry it. */
  function GetAwemeId(url: string, redirected: Option<string>, detailId: Option<string>): (r: Option<string>)
    ensures r.Some? <==> ExtractVideoId(url, redirected).Some?
    ensures r.Some? ==> r.value != ""
    ensures r.Some? && Truthy(detailId) ==> r == detailId
    ensures !Truthy(detailId) ==> r == ExtractVideoId(url, redirected)
  {
    var videoId := ExtractVideoId(url, redirected);
    if !Truthy(videoId) then None
    else if Truthy(detailId) then detailId
    else videoId
  }

  /** A URL holding "/video/123456" gives "123456" without the network, as
      long as no earlier "/video/" is followed by a digit and the id is not
      followed by another digit. */
  lemma VideoPathGivesId(p: string, s: string, redirected: Option<string>)
    requires forall q: nat :: q < |p| ==> !VideoAt(p + "/video/123456" + s, q)
    requires s == [] || !IsDigit(s[0])
    ensures ExtractVideoId(p + "/video/123456" + s, redirected) == Some("123456")
  {
    var u := p + "/video/123456" + s;
    var n := |p|;
    assert u[n..n + 13] == "/video/123456";
    assert VideoAt(u, n);
    assert FindVideo(u, 0) == Some(n);
    assert u[n + 13..] == s;
    assert DigitsEnd(u, n + 7) == n + 13;
    assert u[n + 7..n + 13] == "123456";
  }
}
