/** The cookie-header helpers of TikTokPublisher: reading one value out of a
    `name=value; name=value` string (extractCookieValue) and writing such a
    string from up to four named fields (buildCookiesString). This is the
    Cookie header shape of section 4.2.1 of RFC 6265 without quoting, with
    "; " as the only separator. */
module Cookies {
  import opened JsValues

  // ---------------------------------------------------------------------
  // Reading: extractCookieValue
  // ---------------------------------------------------------------------

  /** Characters with a meaning inside a JavaScript regular expression. */
  predicate IsRegexMeta(ch: char) {
    ch == '\\' || ch == '^' || ch == '$' || ch == '.' || ch == '|' || ch == '?' ||
    ch == '*' || ch == '+' || ch == '(' || ch == ')' || ch == '[' || ch == ']' ||
    ch == '{' || ch == '}'
  }

  /** The cookie name is pasted into the pattern unescaped, so the pattern
      means "this literal name" only when the name has no metacharacter. */
  predicate PlainName(name: string) {
    forall ch :: ch in name ==> !IsRegexMeta(ch)
  }

  /** `name=` starts at index `i`, and `i` is the start of the string or
      directly follows "; ": the pattern `(^|; )name=`. */
  predicate NameAt(c: string, name: string, i: nat) {
    && i + |name| + 1 <= |c|
    && c[i..i + |name|] == name
    && c[i + |name|] == '='
    && (i == 0 || (2 <= i && c[i - 2] == ';' && c[i - 1] == ' '))
  }

  /** `i` is the leftmost such start. Ordering matches by this index is the
      same as the regular expression's leftmost match with `^` tried before
      "; ": a start at 0 found by `^` has index 0, a start found by "; " at
      position p has index p + 2. */
  ghost predicate FirstNameAt(c: string, name: string, i: nat) {
    NameAt(c, name, i) && forall j: nat :: j < i ==> !NameAt(c, name, j)
  }

  /** `v` is the whole `[^;]*` run that begins at `start`: it holds no ';'
      and is followed by ';' or by the end of the string. */
  ghost predicate ValueAt(c: string, start: nat, v: string) {
    && start + |v| <= |c|
    && c[start..start + |v|] == v
    && ';' !in v
    && (start + |v| == |c| || c[start + |v|] == ';')
  }

  /** The leftmost index at or after `from` where `name=` starts a cookie. */
  function FindName(c: string, name: string, from: nat): (r: Option<nat>)
    decreases |c| - from
    ensures r.Some? ==> from <= r.value && NameAt(c, name, r.value)
  {
    if |c| < from + |name| + 1 then None
    else if NameAt(c, name, from) then Some(from)
    else FindName(c, name, from + 1)
  }

  /** The scan misses no start: none lies before the one it finds, and
      none at all when it finds nothing. */
  lemma {:induction false} FindNameLeast(c: string, name: string, from: nat)
    decreases |c| - from
    ensures FindName(c, name, from).Some? ==>
              forall j: nat :: from <= j < FindName(c, name, from).value ==> !NameAt(c, name, j)
    ensures FindName(c, name, from).None? ==> forall j: nat :: from <= j ==> !NameAt(c, name, j)
  {
    if from + |name| + 1 <= |c| && !NameAt(c, name, from) {
      FindNameLeast(c, name, from + 1);
    }
  }

  /** The index of the first ';' at or after `start`, or the length. */
  function ValueEnd(c: string, start: nat): (e: nat)
    requires start <= |c|
    decreases |c| - start
    ensures start <= e <= |c|
    ensures forall k :: start <= k < e ==> c[k] != ';'
    ensures e == |c| || c[e] == ';'
  {
    if start == |c| || c[start] == ';' then start else ValueEnd(c, start + 1)
  }

  /** extractCookieValue: the value of the leftmost `name=` cookie, up to
      the next ';'; None when there is none (an empty header included).
      ExtractCookieValueSpec states this without reference to the scan. */
  function ExtractCookieValue(c: string, name: string): Option<string>
    requires PlainName(name)
  {
    if c == "" then None
    else match FindName(c, name, 0)
      case None => None
      case Some(i) =>
        var start := i + |name| + 1;
        Some(c[start..ValueEnd(c, start)])
  }

  /** None exactly when no `name=` starts the header or follows "; ";
      otherwise the whole `[^;]*` run after the leftmost one, which may be
      empty and never holds ';'. */
  lemma ExtractCookieValueSpec(c: string, name: string)
    requires PlainName(name)
    ensures ExtractCookieValue(c, name).None? <==> forall i: nat :: !NameAt(c, name, i)
    ensures ExtractCookieValue(c, name).Some? ==> ';' !in ExtractCookieValue(c, name).value
    ensures ExtractCookieValue(c, name).Some? ==>
              exists i: nat :: FirstNameAt(c, name, i) &&
                               ValueAt(c, i + |name| + 1, ExtractCookieValue(c, name).value)
  {
    FindNameLeast(c, name, 0);
    var f := FindName(c, name, 0);
    if c != "" && f.Some? {
      var i := f.value;
      var start := i + |name| + 1;
      var v := c[start..ValueEnd(c, start)];
      assert FirstNameAt(c, name, i) && ValueAt(c, start, v);
    }
  }

  /** A `[^;]*` run is determined by where it starts. */
  lemma ValueAtUnique(c: string, start: nat, v: string, w: string)
    requires ValueAt(c, start, v) && ValueAt(c, start, w)
    ensures v == w
  {
  }

  /** A leftmost occurrence and its value fix the result of extraction. */
  lemma ExtractFromWitness(c: string, name: string, i: nat, v: string)
    requires PlainName(name)
    requires FirstNameAt(c, name, i) && ValueAt(c, i + |name| + 1, v)
    ensures ExtractCookieValue(c, name) == Some(v)
  {
    FindNameLeast(c, name, 0);
    var f := FindName(c, name, 0);
    assert NameAt(c, name, i);
    assert f == Some(i);
    var start := i + |name| + 1;
    ValueAtUnique(c, start, v, c[start..ValueEnd(c, start)]);
  }

  // ---------------------------------------------------------------------
  // Writing: buildCookiesString
  // ---------------------------------------------------------------------

  /** One `name=value` pair of a cookie string. */
  datatype Cookie = Cookie(name: string, value: string)

  function Render(e: Cookie): string {
    e.name + "=" + e.value
  }

  /** `Array.prototype.join('; ')` over the rendered pairs. */
  function JoinCookies(es: seq<Cookie>): string {
    if |es| == 0 then ""
    else if |es| == 1 then Render(es[0])
    else Render(es[0]) + "; " + JoinCookies(es[1..])
  }

  /** The value of the first pair called `name`, if any. */
  function Lookup(es: seq<Cookie>, name: string): Option<string> {
    if |es| == 0 then None
    else if es[0].name == name then Some(es[0].value)
    else Lookup(es[1..], name)
  }

  /** A pair that reads back unambiguously: no separator in either half and
      no '=' inside the name. */
  predicate SafePair(e: Cookie) {
    ';' !in e.name && '=' !in e.name && ';' !in e.value
  }

  /** A pair called something other than `name` cannot start with `name=`. */
  lemma OtherPairDoesNotMatch(e: Cookie, name: string, c: string)
    requires SafePair(e) && '=' !in name && e.name != name
    requires |Render(e)| <= |c| && c[..|Render(e)|] == Render(e)
    ensures !NameAt(c, name, 0)
  {
    var n := e.name;
    var pat := name + "=";
    if |pat| <= |c| {
      if |name| < |n| {
        assert c[|name|] == n[|name|];
        assert c[..|pat|][|name|] != pat[|name|];
      } else if |n| < |name| {
        assert c[|n|] == '=';
        assert pat[|n|] == name[|n|];
        assert c[..|pat|][|n|] != pat[|n|];
      } else {
        assert c[..|n|] == n;
        assert c[..|pat|][..|n|] != pat[..|n|];
      }
    }
  }

  /** A slice of the suffix of `c` that begins at `off` is a slice of `c`. */
  lemma SuffixSlice(c: string, t: string, off: nat, a: nat, b: nat)
    requires off <= |c| && c[off..] == t && a <= b <= |t|
    ensures c[off + a..off + b] == t[a..b]
  {
    forall k | 0 <= k < b - a
      ensures c[off + a..off + b][k] == t[a..b][k]
    {
      assert t[a + k] == c[off..][a + k];
    }
  }

  /** Inside a pair and its "; " no cookie starts, save at the very front. */
  lemma NameAtInsidePair(e: string, t: string, name: string, i: nat)
    requires ';' !in e
    requires 0 < i < |e| + 2
    ensures !NameAt(e + "; " + t, name, i)
  {
    var c := e + "; " + t;
    if 2 <= i {
      assert c[i - 2] == e[i - 2];
    }
  }

  /** Behind a "; ", cookie starts are those of the rest of the string,
      shifted. */
  lemma NameAtShift(c: string, t: string, off: nat, name: string, j: nat)
    requires 2 <= off <= |c| && c[off..] == t
    requires c[off - 2] == ';' && c[off - 1] == ' '
    ensures NameAt(c, name, off + j) <==> NameAt(t, name, j)
  {
    if off + j + |name| + 1 <= |c| {
      SuffixSlice(c, t, off, j, j + |name|);
      assert c[off + j + |name|] == t[j + |name|];
    }
    if 2 <= j <= |t| {
      assert c[off + j - 2] == t[j - 2] && c[off + j - 1] == t[j - 1];
    }
  }

  /** Extraction as a scan for the name followed by a scan for ';'. */
  lemma ExtractFoundAt(c: string, name: string, i: nat, start: nat)
    requires PlainName(name) && FindName(c, name, 0) == Some(i)
    requires start == i + |name| + 1
    ensures start <= |c| && ExtractCookieValue(c, name) == Some(c[start..ValueEnd(c, start)])
  {
  }

  lemma ExtractNotFound(c: string, name: string)
    requires PlainName(name) && FindName(c, name, 0).None?
    ensures ExtractCookieValue(c, name) == None
  {
  }

  /** The scan returns the least cookie start ... */
  lemma FindNameIsLeast(c: string, name: string, i: nat)
    requires NameAt(c, name, i)
    requires forall j: nat :: j < i ==> !NameAt(c, name, j)
    ensures FindName(c, name, 0) == Some(i)
  {
    FindNameLeast(c, name, 0);
  }

  /** ... and nothing when there is none. */
  lemma FindNameNone(c: string, name: string)
    requires forall j: nat :: !NameAt(c, name, j)
    ensures FindName(c, name, 0) == None
  {
  }

  /** The end of a value does not depend on what comes before it. */
  lemma {:induction false} ValueEndShifted(c: string, t: string, off: nat, s: nat)
    requires off <= |c| && c[off..] == t && s <= |t|
    decreases |t| - s
    ensures ValueEnd(c, off + s) == off + ValueEnd(t, s)
  {
    if s < |t| {
      assert c[off + s] == t[s];
      if t[s] != ';' {
        ValueEndShifted(c, t, off, s + 1);
      }
    }
  }

  /** The value found at `s` in `t` is the value found at `off + s` in a
      string that ends with `t` at `off`. */
  lemma ValueShifted(c: string, t: string, off: nat, s: nat)
    requires off <= |c| && c[off..] == t && s <= |t|
    ensures c[off + s..ValueEnd(c, off + s)] == t[s..ValueEnd(t, s)]
  {
    ValueEndShifted(c, t, off, s);
    SuffixSlice(c, t, off, s, ValueEnd(t, s));
  }

  /** When no cookie starts before a "; " at `off`, the first cookie start
      of `c` is the first one of the rest `t`, shifted by `off`. */
  lemma FindNameBehind(c: string, t: string, off: nat, name: string)
    requires 2 <= off <= |c| && c[off..] == t
    requires c[off - 2] == ';' && c[off - 1] == ' '
    requires forall i: nat :: i < off ==> !NameAt(c, name, i)
    ensures var r := FindName(t, name, 0);
            FindName(c, name, 0) == if r.None? then None else Some(r.value + off)
  {
    FindNameLeast(t, name, 0);
    var r := FindName(t, name, 0);
    var bound := if r.Some? then off + r.value else |c| + 1;
    forall i: nat | off <= i < bound
      ensures !NameAt(c, name, i)
    {
      NameAtShift(c, t, off, name, i - off);
    }
    if r.Some? {
      NameAtShift(c, t, off, name, r.value);
      FindNameIsLeast(c, name, off + r.value);
    } else {
      FindNameNone(c, name);
    }
  }

  /** When `c` ends with `t` at `off` and its first cookie start is that
      of `t` moved by `off`, reading `c` gives what reading `t` gives. */
  lemma ExtractShiftedBy(c: string, t: string, off: nat, name: string)
    requires PlainName(name)
    requires off <= |c| && c[off..] == t
    requires var r := FindName(t, name, 0);
             FindName(c, name, 0) == if r.None? then None else Some(r.value + off)
    ensures ExtractCookieValue(c, name) == ExtractCookieValue(t, name)
  {
    var r := FindName(t, name, 0);
    if r.Some? {
      var k := r.value;
      var s := k + |name| + 1;
      ExtractFoundAt(t, name, k, s);
      ExtractFoundAt(c, name, off + k, off + s);
      ValueShifted(c, t, off, s);
      var v := t[s..ValueEnd(t, s)];
      assert ExtractCookieValue(t, name) == Some(v);
      assert ExtractCookieValue(c, name) == Some(v);
    } else {
      ExtractNotFound(t, name);
      ExtractNotFound(c, name);
    }
  }

  /** Reading back a joined cookie string finds the first pair of that name. */
  lemma {:induction false} JoinThenExtract(es: seq<Cookie>, name: string)
    requires PlainName(name) && '=' !in name
    requires forall k :: 0 <= k < |es| ==> SafePair(es[k])
    ensures ExtractCookieValue(JoinCookies(es), name) == Lookup(es, name)
  {
    if |es| == 0 {
    } else {
      var c := JoinCookies(es);
      var e := Render(es[0]);
      assert c[..|e|] == e;
      if es[0].name == name {
        var v := es[0].value;
        assert c[..|name| + 1] == e[..|name| + 1] == name + "=";
        assert NameAt(c, name, 0);
        assert c[|name| + 1..|name| + 1 + |v|] == v;
        assert |es| > 1 ==> c[|e|] == ';';
        ExtractFromWitness(c, name, 0, v);
      } else if |es| == 1 {
        forall i: nat ensures !NameAt(c, name, i) {
          if i == 0 {
            OtherPairDoesNotMatch(es[0], name, c);
          } else if 2 <= i && i + |name| + 1 <= |c| {
            assert c[i - 2] in e;
          }
        }
      } else {
        var t := JoinCookies(es[1..]);
        var off := |e| + 2;
        assert c == e + "; " + t;
        forall i: nat | i < off
          ensures !NameAt(c, name, i)
        {
          if i == 0 {
            OtherPairDoesNotMatch(es[0], name, c);
          } else {
            NameAtInsidePair(e, t, name, i);
          }
        }
        assert c[off..] == t && c[off - 2] == ';' && c[off - 1] == ' ';
        FindNameBehind(c, t, off, name);
        ExtractShiftedBy(c, t, off, name);
        JoinThenExtract(es[1..], name);
      }
    }
  }

  // ---------------------------------------------------------------------
  // The four cookies the publisher knows by name
  // ---------------------------------------------------------------------

  /** The named cookies, in the order buildCookiesString emits them. */
  datatype CookieName = SessionId | CsrfSessionId | SidGuard | TtChainToken

  /** The cookie's name as it appears in a header. */
  function Label(n: CookieName): string {
    match n
    case SessionId => "sessionid"
    case CsrfSessionId => "csrf_session_id"
    case SidGuard => "sid_guard"
    case TtChainToken => "tt_chain_token"
  }

  /** Position of a cookie in the emission order. */
  function Rank(n: CookieName): nat {
    match n
    case SessionId => 0
    case CsrfSessionId => 1
    case SidGuard => 2
    case TtChainToken => 3
  }

  /** The cookie-named properties of a session object (each may be missing). */
  datatype CookieFields = CookieFields(
    sessionid: Option<string>,
    csrfSessionId: Option<string>,
    sidGuard: Option<string>,
    ttChainToken: Option<string>)

  function Field(d: CookieFields, n: CookieName): Option<string> {
    match n
    case SessionId => d.sessionid
    case CsrfSessionId => d.csrfSessionId
    case SidGuard => d.sidGuard
    case TtChainToken => d.ttChainToken
  }

  /** Every label is a plain literal that reads back as itself. */
  lemma LabelFacts(n: CookieName)
    ensures PlainName(Label(n)) && '=' !in Label(n) && ';' !in Label(n)
  {
    LabelPlain(n);
  }

  lemma LabelPlain(n: CookieName)
    ensures PlainName(Label(n))
  {
    match n
    case SessionId =>
    case CsrfSessionId =>
    case SidGuard =>
    case TtChainToken =>
  }

  /** extractCookieValue called with one of the known names. */
  function CookieValue(c: string, n: CookieName): Option<string> {
    LabelPlain(n);
    ExtractCookieValue(c, Label(n))
  }

  lemma LabelInjective(a: CookieName, b: CookieName)
    requires Label(a) == Label(b)
    ensures a == b
  {
  }

  /** The names pushed, in push order: each field that is truthy, and they
      come in the fixed emission order. */
  function PushedNames(d: CookieFields): (ns: seq<CookieName>)
    ensures forall n :: n in ns <==> Truthy(Field(d, n))
    ensures forall i, j :: 0 <= i < j < |ns| ==> Rank(ns[i]) < Rank(ns[j])
  {
    (if Truthy(d.sessionid) then [SessionId] else []) +
    (if Truthy(d.csrfSessionId) then [CsrfSessionId] else []) +
    (if Truthy(d.sidGuard) then [SidGuard] else []) +
    (if Truthy(d.ttChainToken) then [TtChainToken] else [])
  }

  /** The `name=value` pairs for the given names. */
  function Entries(d: CookieFields, ns: seq<CookieName>): seq<Cookie> {
    if ns == [] then []
    else [Cookie(Label(ns[0]), Field(d, ns[0]).GetOr(""))] + Entries(d, ns[1..])
  }

  /** Entries of a name list grown by one name. */
  lemma {:induction false} EntriesAppend(d: CookieFields, ns: seq<CookieName>, n: CookieName)
    ensures Entries(d, ns + [n]) == Entries(d, ns) + [Cookie(Label(n), Field(d, n).GetOr(""))]
  {
    if ns != [] {
      assert (ns + [n])[1..] == ns[1..] + [n];
      EntriesAppend(d, ns[1..], n);
    }
  }

  /** buildCookiesString: the truthy fields as `name=value`, in the fixed
      order, joined by "; "; empty exactly when no field is truthy. */
  function BuildCookiesString(d: CookieFields): (s: string)
    ensures s == "" <==> forall n :: !Truthy(Field(d, n))
  {
    var ns := PushedNames(d);
    var es := Entries(d, ns);
    assert ns != [] ==> |es| > 0 && JoinCookies(es)[..|Render(es[0])|] == Render(es[0]);
    JoinCookies(es)
  }

  /** Values that survive the round trip: no truthy field holds ';'. */
  predicate Serialisable(d: CookieFields) {
    forall n :: Truthy(Field(d, n)) ==> ';' !in Field(d, n).value
  }

  lemma {:induction false} LookupEntries(d: CookieFields, ns: seq<CookieName>, n: CookieName)
    ensures Lookup(Entries(d, ns), Label(n)) ==
            if n in ns then Some(Field(d, n).GetOr("")) else None
  {
    if ns != [] {
      if ns[0] != n {
        if Label(ns[0]) == Label(n) {
          LabelInjective(ns[0], n);
        }
        LookupEntries(d, ns[1..], n);
        assert n in ns <==> n in ns[1..];
      }
    }
  }

  lemma {:induction false} EntriesSafe(d: CookieFields, ns: seq<CookieName>)
    requires Serialisable(d)
    requires forall n :: n in ns ==> Truthy(Field(d, n))
    ensures forall k :: 0 <= k < |Entries(d, ns)| ==> SafePair(Entries(d, ns)[k])
  {
    if ns != [] {
      LabelFacts(ns[0]);
      EntriesSafe(d, ns[1..]);
    }
  }

  /** Round trip: reading a named cookie back out of the built string gives
      the field when it is truthy and None when it is not. */
  lemma BuildThenExtract(d: CookieFields, n: CookieName)
    requires Serialisable(d)
    ensures PlainName(Label(n))
    ensures ExtractCookieValue(BuildCookiesString(d), Label(n)) ==
            if Truthy(Field(d, n)) then Field(d, n) else None
  {
    LabelFacts(n);
    var ns := PushedNames(d);
    EntriesSafe(d, ns);
    JoinThenExtract(Entries(d, ns), Label(n));
    LookupEntries(d, ns, n);
  }

  /** A header holding `sessionid=X` gives X. */
  lemma SessionIdExample()
    ensures CookieValue("sessionid=X", SessionId) == Some("X")
  {
    var c := "sessionid=X";
    LabelPlain(SessionId);
    assert c[..9] == "sessionid";
    assert NameAt(c, "sessionid", 0);
    assert ValueEnd(c, 10) == 11;
    ExtractFoundAt(c, "sessionid", 0, 10);
    assert c[10..11] == "X";
    assert CookieValue(c, SessionId) == ExtractCookieValue(c, "sessionid");
  }
}
