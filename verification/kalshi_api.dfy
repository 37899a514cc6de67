/**
  Market-ticker extraction from what the user typed: a Kalshi URL, a bare
  ticker, or free text that mentions one. Everything is ASCII: Python's
  Unicode-aware `\b`, `isalpha` and `upper` coincide with the definitions
  here on ASCII text.
 */
module KalshiApi {
  import opened Common
  import opened Text

  /** A character a returned ticker may hold: `[A-Z0-9-]`. */
  predicate TickerChar(c: char) {
    IsUpperAscii(c) || IsDigit(c) || c == '-'
  }

  predicate AllTicker(s: string) {
    forall i :: 0 <= i < |s| ==> TickerChar(s[i])
  }

  /** A character a URL's last segment may hold: `[a-zA-Z0-9-]`. */
  predicate SegmentChar(c: char) {
    IsLowerAscii(c) || TickerChar(c)
  }

  predicate AllSegment(s: string) {
    forall i :: 0 <= i < |s| ==> SegmentChar(s[i])
  }

  lemma UpperOfSegment(s: string)
    requires AllSegment(s)
    ensures AllTicker(Upper(s))
  {
  }

  lemma UpperOfTicker(s: string)
    requires AllTicker(s)
    ensures Upper(s) == s
  {
  }

  // ---------------------------------------------------------------------
  // The path component of `urllib.parse.urlparse`
  // ---------------------------------------------------------------------

  predicate AsciiAlpha(c: char) { IsLowerAscii(c) || IsUpperAscii(c) }

  /** Characters allowed in a URL scheme besides the leading letter. */
  predicate SchemeChar(c: char) {
    AsciiAlpha(c) || IsDigit(c) || c == '+' || c == '-' || c == '.'
  }

  /** Schemes for which `urlparse` splits `;params` off the path. */
  const UsesParams: set<string> :=
    {"", "ftp", "hdl", "prospero", "http", "imap", "https", "shttp", "rtsp", "rtsps",
     "rtspu", "sip", "sips", "mms", "sftp", "tel"}

  predicate NoUnsafe(s: string) {
    '\t' !in s && '\r' !in s && '\n' !in s
  }

  /** Tab, carriage return and newline are deleted anywhere in the URL. */
  function RemoveUnsafe(s: string): (r: string)
    ensures |r| <= |s|
    ensures NoUnsafe(r)
    ensures forall c :: c in r ==> c in s
  {
    if s == [] then []
    else (if s[0] in {'\t', '\r', '\n'} then [] else [s[0]]) + RemoveUnsafe(s[1..])
  }

  /** Leading C0 control characters and spaces are dropped. */
  function DropLeadingControl(s: string): (r: string)
    ensures |r| <= |s| && r == s[|s| - |r|..]
    ensures r == [] || r[0] > ' '
  {
    if s != [] && s[0] <= ' ' then DropLeadingControl(s[1..]) else s
  }

  /** The scheme (lower-cased) and the remainder after its colon, or no scheme. */
  function SplitScheme(u: string): (r: (string, string))
    ensures r.0 == [] ==> r.1 == u
    ensures r.0 != [] ==> exists i :: 0 < i < |u| && u[i] == ':' && r.0 == Lower(u[..i]) && r.1 == u[i + 1..]
  {
    var i := Find(u, ":", 0);
    if i > 0 && AsciiAlpha(u[0]) && (forall k :: 0 <= k < i ==> SchemeChar(u[k])) then
      assert u[i..i + 1] == ":";
      (Lower(u[..i]), u[i + 1..])
    else ("", u)
  }

  /** The first index at or after `j` holding a character of `cs`, or the length. */
  function FirstOf(u: string, cs: set<char>, j: nat): (d: nat)
    requires j <= |u|
    decreases |u| - j
    ensures j <= d <= |u|
    ensures forall k :: j <= k < d ==> u[k] !in cs
    ensures d < |u| ==> u[d] in cs
  {
    if j == |u| || u[j] in cs then j else FirstOf(u, cs, j + 1)
  }

  /** `_splitnetloc`: the network location ends at the first `/`, `?` or `#` after the leading `//`. */
  function NetlocEnd(u: string): (d: nat)
    requires |u| >= 2
    ensures 2 <= d <= |u|
    ensures forall k :: 2 <= k < d ==> u[k] != '/' && u[k] != '?' && u[k] != '#'
    ensures d < |u| ==> u[d] in {'/', '?', '#'}
  {
    FirstOf(u, {'/', '?', '#'}, 2)
  }

  /** `u.split(c, 1)[0]`: everything before the first `c`, or all of `u`. */
  function Before(u: string, c: char): (r: string)
    ensures c !in r
    ensures c !in u ==> r == u
    ensures |r| <= |u| && r == u[..|r|]
  {
    var i := FirstOf(u, {c}, 0);
    assert c !in u ==> i == |u|;
    u[..i]
  }

  /** `_splitparams`: cut at the first `;` at or after the last `/` (or anywhere, without a `/`). */
  function DropParams(u: string): (r: string)
    ensures |r| <= |u| && r == u[..|r|]
    ensures ';' !in u ==> r == u
  {
    var i := FirstOf(u, {';'}, if '/' in u then RFind(u, '/') else 0);
    assert ';' !in u ==> i == |u|;
    u[..i]
  }

  /** The URL as `urlsplit` starts from: leading controls and embedded tab, CR and LF removed. */
  function Clean(url: string): (r: string)
    ensures NoUnsafe(r)
    ensures |r| <= |url|
  {
    RemoveUnsafe(DropLeadingControl(url))
  }

  /** What follows the `//netloc` authority, when the remainder starts with `//`. */
  function AfterNetloc(rest: string): (r: string)
    ensures |r| <= |rest| && r == rest[|rest| - |r|..]
  {
    if |rest| >= 2 && rest[..2] == "//" then rest[NetlocEnd(rest)..] else rest
  }

  /** The path left once fragment, query and, for the schemes that have them, parameters are cut off. */
  function PathPart(scheme: string, rest: string): (path: string)
    ensures '?' !in path && '#' !in path
  {
    var r := Before(Before(AfterNetloc(rest), '#'), '?');
    if scheme in UsesParams && ';' in r then
      var p := DropParams(r);
      assert forall c :: c in p ==> c in r;
      p
    else r
  }

  /** `urlparse(url).path`. */
  function UrlPath(url: string): (path: string)
    ensures '?' !in path && '#' !in path
  {
    var (scheme, rest) := SplitScheme(Clean(url));
    PathPart(scheme, rest)
  }

  // ---------------------------------------------------------------------
  // extract_ticker_from_url
  // ---------------------------------------------------------------------

  /** The non-empty pieces, in order. */
  function NonEmpty(parts: seq<string>): (r: seq<string>)
    ensures forall i :: 0 <= i < |r| ==> r[i] != [] && r[i] in parts
  {
    if parts == [] then []
    else (if parts[0] == [] then [] else [parts[0]]) + NonEmpty(parts[1..])
  }

  lemma {:induction false} NonEmptyAppend(a: seq<string>, b: seq<string>)
    ensures NonEmpty(a + b) == NonEmpty(a) + NonEmpty(b)
  {
    if a != [] {
      assert (a + b)[0] == a[0];
      assert (a + b)[1..] == a[1..] + b;
      NonEmptyAppend(a[1..], b);
    } else {
      assert a + b == b;
    }
  }

  /** The ticker a single path segment names: the segment upper-cased, when it is `[a-zA-Z0-9-]+`. */
  function SegmentTicker(seg: string): (r: Option<string>)
    ensures r.Some? <==> seg != [] && AllSegment(seg)
    ensures r.Some? ==> r.value == Upper(seg) && AllTicker(r.value)
  {
    if seg != [] && AllSegment(seg) then
      UpperOfSegment(seg);
      Some(Upper(seg))
    else None
  }

  /** The last non-empty `/`-separated segment of a path decides the ticker; no segment gives none. */
  function PathTicker(path: string): (r: Option<string>)
    ensures r.Some? ==> r.value != [] && AllTicker(r.value)
  {
    var parts := NonEmpty(Split(path, '/'));
    if parts == [] then None else SegmentTicker(parts[|parts| - 1])
  }

  /** `extract_ticker_from_url`. */
  function ExtractFromUrl(url: string): (r: Option<string>)
    ensures r.Some? ==> r.value != [] && AllTicker(r.value)
  {
    PathTicker(UrlPath(url))
  }

  /** Only the last segment counts: whatever precedes the final `/` is ignored. */
  lemma PathTickerIsLastSegment(prefix: string, seg: string)
    requires seg != [] && '/' !in seg
    ensures PathTicker(prefix + "/" + seg) == SegmentTicker(seg)
  {
    SplitAround(prefix, seg, '/');
    assert Split(seg, '/') == [seg] by { SplitFree(seg, '/'); }
    NonEmptyAppend(Split(prefix, '/'), [seg]);
  }

  /** Trailing slashes do not create segments. */
  lemma PathTickerIgnoresTrailingSlash(path: string)
    ensures PathTicker(path + "/") == PathTicker(path)
  {
    SplitAround(path, [], '/');
    assert path + "/" + [] == path + "/";
    NonEmptyAppend(Split(path, '/'), [[]]);
    assert NonEmpty([[]]) == [];
    assert NonEmpty(Split(path, '/')) + [] == NonEmpty(Split(path, '/'));
  }

  /** A path of slashes only names no ticker. */
  lemma {:induction false} PathTickerOfSlashes(path: string)
    requires forall i :: 0 <= i < |path| ==> path[i] == '/'
    ensures PathTicker(path) == None
  {
    if path == [] {
      assert Split(path, '/') == [[]];
    } else {
      var p := path[..|path| - 1];
      assert path == p + "/";
      PathTickerIgnoresTrailingSlash(p);
      PathTickerOfSlashes(p);
    }
  }

  lemma {:induction false} SplitFree(s: string, c: char)
    requires c !in s
    ensures Split(s, c) == [s]
  {
    if s != [] {
      SplitFree(s[1..], c);
      assert [s[0]] + s[1..] == s;
    }
  }

  lemma {:induction false} RemoveUnsafeKeeps(s: string)
    requires NoUnsafe(s)
    ensures RemoveUnsafe(s) == s
  {
    if s != [] {
      RemoveUnsafeKeeps(s[1..]);
      assert [s[0]] + s[1..] == s;
    }
  }

  lemma HttpsScheme(after: string)
    ensures SplitScheme("https:" + after) == ("https", after)
  {
    var u := "https:" + after;
    forall k | 0 <= k < 5 ensures !OccursAt(u, ":", k) {
      assert u[k..k + 1] == [u[k]];
    }
    assert OccursAt(u, ":", 5) by { assert u[5..6] == [u[5]]; }
    assert u[..5] == "https";
    assert Lower("https") == "https";
    assert u[6..] == after;
  }

  lemma NetlocOfHost(host: string, tail: string)
    requires '/' !in host && '?' !in host && '#' !in host
    requires tail != [] && tail[0] == '/'
    ensures NetlocEnd("//" + host + tail) == 2 + |host|
    ensures ("//" + host + tail)[2 + |host|..] == tail
  {
    var u := "//" + host + tail;
    assert u[2 + |host|] == '/';
    assert forall k :: 2 <= k < 2 + |host| ==> u[k] == host[k - 2];
  }

  lemma PathAfterHost(host: string, rest: string)
    requires '/' !in host && '?' !in host && '#' !in host
    requires '?' !in rest && '#' !in rest && ';' !in rest
    ensures PathPart("https", "//" + host + "/" + rest) == "/" + rest
  {
    var tail := "/" + rest;
    assert '?' !in tail && '#' !in tail && ';' !in tail;
    var u := "//" + host + "/" + rest;
    assert u == "//" + host + tail;
    NetlocOfHost(host, tail);
    assert u[..2] == "//";
    assert AfterNetloc(u) == tail;
  }

  lemma CleanKeeps(url: string)
    requires url != [] && url[0] > ' ' && NoUnsafe(url)
    ensures Clean(url) == url
  {
    RemoveUnsafeKeeps(url);
  }

  lemma HttpsIsClean(host: string, rest: string)
    requires NoUnsafe(host) && NoUnsafe(rest)
    ensures Clean("https://" + host + "/" + rest) == "https://" + host + "/" + rest
  {
    var url := "https://" + host + "/" + rest;
    assert url[0] == 'h';
    assert NoUnsafe(url);
    CleanKeeps(url);
  }

  /** The path of `https://host/rest` is `/rest` when the host has no `/`, `?`, `#` or `:` and the rest no `?`, `#` or `;`. */
  lemma HttpsUrlPath(host: string, rest: string)
    requires NoUnsafe(host) && NoUnsafe(rest)
    requires '/' !in host && '?' !in host && '#' !in host && ':' !in host
    requires '?' !in rest && '#' !in rest && ';' !in rest
    ensures UrlPath("https://" + host + "/" + rest) == "/" + rest
  {
    var url := "https://" + host + "/" + rest;
    var after := "//" + host + "/" + rest;
    HttpsIsClean(host, rest);
    assert url == "https:" + after;
    HttpsScheme(after);
    PathAfterHost(host, rest);
  }

  /** A Kalshi market URL names the upper-cased last segment of its path. */
  lemma MarketUrlTicker(host: string, dirs: string, seg: string)
    requires NoUnsafe(host) && NoUnsafe(dirs)
    requires '/' !in host && '?' !in host && '#' !in host && ':' !in host
    requires '?' !in dirs && '#' !in dirs && ';' !in dirs
    requires seg != [] && AllSegment(seg)
    ensures ExtractFromUrl("https://" + host + "/" + dirs + "/" + seg) == Some(Upper(seg))
  {
    SegmentIsPlain(seg);
    var rest := dirs + "/" + seg;
    assert NoUnsafe(rest) && '?' !in rest && '#' !in rest && ';' !in rest;
    UrlShape(host, dirs, seg);
    HttpsUrlPath(host, rest);
    PathShape(dirs, seg);
    PathTickerIsLastSegment("/" + dirs, seg);
  }

  lemma UrlShape(host: string, dirs: string, seg: string)
    ensures "https://" + host + "/" + dirs + "/" + seg == "https://" + host + "/" + (dirs + "/" + seg)
  {
  }

  lemma PathShape(dirs: string, seg: string)
    ensures "/" + (dirs + "/" + seg) == "/" + dirs + "/" + seg
  {
  }

  lemma SegmentIsPlain(seg: string)
    requires AllSegment(seg)
    ensures NoUnsafe(seg) && '/' !in seg && '?' !in seg && '#' !in seg && ';' !in seg
  {
    assert forall c :: c in seg ==> SegmentChar(c);
  }

  // ---------------------------------------------------------------------
  // The free-text scan: re.findall(r'\b([A-Z][A-Z0-9-]{2,})\b', text)
  // ---------------------------------------------------------------------

  /** `\w` on ASCII text. */
  predicate WordChar(c: char) {
    AsciiAlpha(c) || IsDigit(c) || c == '_'
  }

  predicate WordAt(s: string, k: int) {
    0 <= k < |s| && WordChar(s[k])
  }

  /** `\b` at position `k`: exactly one of the neighbouring characters is a word character. */
  predicate Boundary(s: string, k: int) {
    WordAt(s, k - 1) != WordAt(s, k)
  }

  /** `s[i..e]` is a match of the pattern: a capital, at least two more ticker characters, a boundary each side. */
  predicate IsToken(s: string, i: int, e: int) {
    0 <= i && i + 3 <= e <= |s|
    && Boundary(s, i) && Boundary(s, e) && IsUpperAscii(s[i])
    && forall k :: i < k < e ==> TickerChar(s[k])
  }

  /** The end of the run of ticker characters starting at `j`. */
  function RunEnd(s: string, j: nat): (r: nat)
    requires j <= |s|
    decreases |s| - j
    ensures j <= r <= |s|
    ensures forall k :: j <= k < r ==> TickerChar(s[k])
    ensures r == |s| || !TickerChar(s[r])
  {
    if j < |s| && TickerChar(s[j]) then RunEnd(s, j + 1) else j
  }

  /** Backtracking from `e` down to `lo`: the greatest boundary in `[lo, e]`. */
  function Backtrack(s: string, lo: int, e: int): (r: Option<nat>)
    decreases e - lo
    ensures r.Some? ==> lo <= r.value <= e && Boundary(s, r.value)
    ensures r.Some? ==> forall y :: r.value < y <= e ==> !Boundary(s, y)
    ensures r.None? ==> forall y :: lo <= y <= e ==> !Boundary(s, y)
  {
    if e < lo || e < 0 then
      assert forall y :: lo <= y <= e ==> y < 0 && !Boundary(s, y);
      None
    else if Boundary(s, e) then Some(e)
    else Backtrack(s, lo, e - 1)
  }

  /** The regex tried at `i`: the end of the longest match starting there, if any. */
  function MatchAt(s: string, i: nat): (r: Option<nat>)
    ensures r.Some? <==> exists e :: IsToken(s, i, e)
    ensures r.Some? ==> IsToken(s, i, r.value) && forall e :: IsToken(s, i, e) ==> e <= r.value
  {
    if i + 3 <= |s| && Boundary(s, i) && IsUpperAscii(s[i]) then
      var run := RunEnd(s, i + 1);
      var r := Backtrack(s, i + 3, run);
      assert forall e :: IsToken(s, i, e) ==> e <= run by {
        forall e | IsToken(s, i, e) ensures e <= run {
        }
      }
      if r.Some? then
        assert IsToken(s, i, r.value);
        r
      else r
    else None
  }

  /** `re.findall` from position `i`: successive leftmost-longest matches, each search resuming at the previous end. */
  function Matches(s: string, i: nat): (r: seq<string>)
    decreases |s| - i
    ensures forall m :: m in r ==> |m| >= 3 && AllTicker(m)
    ensures r == [] <==> forall k, e :: i <= k ==> !IsToken(s, k, e)
    ensures r != [] ==> exists k, e ::
      i <= k && IsToken(s, k, e) && r[0] == s[k..e]
      && (forall j, f :: i <= j < k ==> !IsToken(s, j, f))
      && (forall f :: IsToken(s, k, f) ==> f <= e)
  {
    if i >= |s| then
      assert forall k, e :: i <= k ==> !IsToken(s, k, e);
      []
    else
      match MatchAt(s, i)
      case Some(e) =>
        TokenShape(s, i, e);
        [s[i..e]] + Matches(s, e)
      case None =>
        var r := Matches(s, i + 1);
        NoTokenAt(s, i, r);
        r
  }

  /** A token is ticker-shaped text of at least three characters. */
  lemma TokenShape(s: string, i: int, e: int)
    requires IsToken(s, i, e)
    ensures |s[i..e]| >= 3 && AllTicker(s[i..e])
  {
    assert forall k :: 0 <= k < e - i ==> s[i..e][k] == s[i + k];
  }

  /** With no token at `i`, the matches from `i + 1` are also the matches from `i`. */
  lemma NoTokenAt(s: string, i: nat, r: seq<string>)
    requires forall f :: !IsToken(s, i, f)
    requires r == [] <==> forall k, e :: i + 1 <= k ==> !IsToken(s, k, e)
    requires r != [] ==> exists k, e ::
      i + 1 <= k && IsToken(s, k, e) && r[0] == s[k..e]
      && (forall j, f :: i + 1 <= j < k ==> !IsToken(s, j, f))
      && (forall f :: IsToken(s, k, f) ==> f <= e)
    ensures r == [] <==> forall k, e :: i <= k ==> !IsToken(s, k, e)
    ensures r != [] ==> exists k, e ::
      i <= k && IsToken(s, k, e) && r[0] == s[k..e]
      && (forall j, f :: i <= j < k ==> !IsToken(s, j, f))
      && (forall f :: IsToken(s, k, f) ==> f <= e)
  {
    if r != [] {
      var k, e :| i + 1 <= k && IsToken(s, k, e) && r[0] == s[k..e]
        && (forall j, f :: i + 1 <= j < k ==> !IsToken(s, j, f))
        && (forall f :: IsToken(s, k, f) ==> f <= e);
      assert forall j, f :: i <= j < k ==> !IsToken(s, j, f);
    }
  }

  /** Every element `findall` returns is a token of the text, found at or after the search start. */
  lemma {:induction false} MatchesAreTokens(s: string, i: nat)
    decreases |s| - i
    ensures forall m :: m in Matches(s, i) ==> exists k, e :: i <= k && IsToken(s, k, e) && m == s[k..e]
  {
    if i < |s| {
      match MatchAt(s, i)
      case Some(e) =>
        MatchesAreTokens(s, e);
        assert Matches(s, i) == [s[i..e]] + Matches(s, e);
      case None =>
        MatchesAreTokens(s, i + 1);
    }
  }

  /**
    How `findall` resumes: when the leftmost token from `i` starts at `k` and its
    longest form ends at `e`, it is the first match and the search goes on from `e`.
   */
  lemma {:induction false} MatchesFrom(s: string, i: nat, k: nat, e: nat)
    requires i <= k && IsToken(s, k, e)
    requires forall j, f :: i <= j < k ==> !IsToken(s, j, f)
    requires forall f :: IsToken(s, k, f) ==> f <= e
    decreases k - i
    ensures Matches(s, i) == [s[k..e]] + Matches(s, e)
  {
    assert i < |s|;
    if i == k {
      var r := MatchAt(s, i);
      assert r.Some? && r.value == e by {
        assert IsToken(s, i, r.value);
      }
      assert Matches(s, i) == [s[i..r.value]] + Matches(s, r.value);
      assert Matches(s, i) == [s[k..e]] + Matches(s, e);
    } else {
      assert forall f :: !IsToken(s, i, f);
      assert MatchAt(s, i).None?;
      assert Matches(s, i) == Matches(s, i + 1);
      MatchesFrom(s, i + 1, k, e);
      assert Matches(s, i) == [s[k..e]] + Matches(s, e);
    }
  }

  /** Words the scan never returns. */
  const CommonWords: set<string> := {"THE", "AND", "FOR", "THIS", "WILL", "NOT", "YES", "MARKET"}

  /** The first match that is not a common word. */
  function FirstUncommon(ms: seq<string>): (r: Option<string>)
    ensures r.None? <==> forall i :: 0 <= i < |ms| ==> ms[i] in CommonWords
    ensures r.Some? ==> exists i :: (0 <= i < |ms| && ms[i] == r.value && r.value !in CommonWords
                                      && forall j :: 0 <= j < i ==> ms[j] in CommonWords)
  {
    if ms == [] then None
    else if ms[0] !in CommonWords then Some(ms[0])
    else
      var r := FirstUncommon(ms[1..]);
      assert forall i :: 1 <= i < |ms| ==> ms[i] == ms[1..][i - 1];
      if r.Some? then
        var i :| 0 <= i < |ms[1..]| && ms[1..][i] == r.value && r.value !in CommonWords
          && (forall j :: 0 <= j < i ==> ms[1..][j] in CommonWords);
        assert ms[i + 1] == r.value;
        r
      else r
  }

  // ---------------------------------------------------------------------
  // extract_ticker_from_input
  // ---------------------------------------------------------------------

  /** The input, after `strip`, written as a bare ticker: upper-cases to `[A-Z0-9-]+` and is at most 50 long. */
  predicate LooksLikeTicker(s: string) {
    s != [] && AllTicker(Upper(s)) && |s| <= 50
  }

  /** `extract_ticker_from_input`: the input is stripped, then decided. */
  function ExtractTicker(input: string): (r: Option<string>)
    ensures r.Some? ==> r.value != [] && AllTicker(r.value)
  {
    Decide(Strip(input))
  }

  /** URL rule for `http…`, then a bare ticker, then the first uncommon match in the upper-cased text. */
  function Decide(s: string): (r: Option<string>)
    ensures r.Some? ==> r.value != [] && AllTicker(r.value)
  {
    if StartsWith(s, "http") then ExtractFromUrl(s)
    else if LooksLikeTicker(s) then Some(Upper(s))
    else ScanTicker(Upper(s))
  }

  /** The scan: the first match that is not a common word. */
  function ScanTicker(u: string): (r: Option<string>)
    ensures r.Some? ==> r.value != [] && AllTicker(r.value) && r.value !in CommonWords
    ensures r.None? <==> forall m :: m in Matches(u, 0) ==> m in CommonWords
    ensures r.Some? ==> exists k, e :: IsToken(u, k, e) && r.value == u[k..e]
    ensures r.Some? ==> exists n :: (0 <= n < |Matches(u, 0)| && Matches(u, 0)[n] == r.value
                                      && forall j :: 0 <= j < n ==> Matches(u, 0)[j] in CommonWords)
  {
    var ms := Matches(u, 0);
    var r := FirstUncommon(ms);
    MatchesAreTokens(u, 0);
    assert r.Some? ==> r.value in ms;
    r
  }

  /** Empty or whitespace-only input never yields a ticker. */
  lemma BlankInputHasNoTicker(input: string)
    requires AllSpace(input)
    ensures ExtractTicker(input) == None
  {
    assert Strip(input) == [];
  }

  /** Input that starts with `http` after stripping is decided by the URL rule alone. */
  lemma UrlInputUsesUrlRuleOnly(input: string)
    requires StartsWith(Strip(input), "http")
    ensures ExtractTicker(input) == ExtractFromUrl(Strip(input))
    ensures ExtractFromUrl(Strip(input)).None? ==> ExtractTicker(input).None?
  {
  }

  /** A bare ticker of at most 50 characters is returned as it is, common word or not. */
  lemma BareTickerIsItself(t: string)
    requires t != [] && AllTicker(t) && |t| <= 50
    ensures ExtractTicker(t) == Some(t)
  {
    TickerIsTrimmed(t);
    DecideBareTicker(t);
  }

  lemma TickerIsTrimmed(t: string)
    requires AllTicker(t)
    ensures Strip(t) == t
  {
    assert Trimmed(t) by {
      if t != [] {
        assert TickerChar(t[0]) && TickerChar(t[|t| - 1]);
      }
    }
    StripTrimmed(t);
  }

  lemma DecideBareTicker(t: string)
    requires t != [] && AllTicker(t) && |t| <= 50
    ensures Decide(t) == Some(t)
  {
    assert !StartsWith(t, "http") by { assert t[0] != 'h'; }
    UpperOfTicker(t);
  }

  /**
    Any input of at most 50 characters whose upper-case form is ticker-shaped,
    and that does not start with `http`, comes back upper-cased, common word or not.
   */
  lemma BareInputUppercased(s: string)
    requires LooksLikeTicker(s) && !StartsWith(s, "http")
    ensures ExtractTicker(s) == Some(Upper(s))
  {
    assert Trimmed(s) by {
      assert TickerChar(Upper(s)[0]) && TickerChar(Upper(s)[|s| - 1]);
    }
    StripTrimmed(s);
  }

  /** Idempotence: a returned ticker of at most 50 characters extracts to itself. */
  lemma ExtractIdempotent(input: string)
    requires ExtractTicker(input).Some? && |ExtractTicker(input).value| <= 50
    ensures ExtractTicker(ExtractTicker(input).value) == ExtractTicker(input)
  {
    BareTickerIsItself(ExtractTicker(input).value);
  }

  /** Common words are filtered only on the scan: "yes" typed alone is a bare ticker. */
  lemma CommonWordAsBareTicker()
    ensures ExtractTicker("yes") == Some("YES")
  {
    DecideTrimmed("yes");
    DecideYes();
  }

  lemma DecideTrimmed(s: string)
    requires Trimmed(s)
    ensures ExtractTicker(s) == Decide(s)
  {
    StripTrimmed(s);
  }

  lemma DecideYes()
    ensures Decide("yes") == Some("YES")
  {
    assert !StartsWith("yes", "http");
    assert Upper("yes") == "YES";
    assert AllTicker("YES") by {
      assert forall i :: 0 <= i < 3 ==> IsUpperAscii("YES"[i]);
    }
    assert LooksLikeTicker("yes");
  }

  /** Free text without a URL or bare ticker yields its first uncommon capitalised word of three or more characters. */
  lemma ScanTakesFirstUncommonWord()
    ensures ExtractTicker("Check the INDIACLIMATE-30 market") == Some("CHECK")
  {
    DecideTrimmed("Check the INDIACLIMATE-30 market");
    DecideSentence();
  }

  lemma UpperOfSentence()
    ensures Upper("Check the INDIACLIMATE-30 market") == "CHECK THE INDIACLIMATE-30 MARKET"
  {
  }

  lemma DecideSentence()
    ensures Decide("Check the INDIACLIMATE-30 market") == Some("CHECK")
  {
    var s := "Check the INDIACLIMATE-30 market";
    UpperOfSentence();
    assert !StartsWith(s, "http") by { assert s[0] == 'C'; }
    assert !LooksLikeTicker(s) by { assert !TickerChar(Upper(s)[5]); }
    FirstMatchOfSentence();
  }

  lemma FirstMatchOfSentence()
    ensures ScanTicker("CHECK THE INDIACLIMATE-30 MARKET") == Some("CHECK")
  {
    var u := "CHECK THE INDIACLIMATE-30 MARKET";
    assert u[..5] == "CHECK";
    assert IsToken(u, 0, 5);
    ScanTakesLeadingWord(u, 5);
  }

  /** A leading run that is a match, ends before a non-ticker character and is not a common word is the scan's answer. */
  lemma ScanTakesLeadingWord(u: string, e: nat)
    requires IsToken(u, 0, e) && (e == |u| || !TickerChar(u[e])) && u[..e] !in CommonWords
    ensures ScanTicker(u) == Some(u[..e])
  {
    var ms := Matches(u, 0);
    var k, f :| 0 <= k && IsToken(u, k, f) && ms[0] == u[k..f]
      && (forall j, g :: 0 <= j < k ==> !IsToken(u, j, g))
      && (forall g :: IsToken(u, k, g) ==> g <= f);
    assert k == 0;
    assert f == e;
  }
}
