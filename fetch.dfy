/** The fetch-escalation script (T.py): the proxy pool, the retry delay, request headers
    that agree with the User-Agent, CAPTCHA detection, the robots.txt cache and the
    engine pipeline of `fetch_url_with_strategy`. The HTTP clients, the robots.txt parser,
    `urlparse` and every random choice are inputs of the model. */
module Fetch {

  import opened Text

  const MaxRetriesPerEngine: nat := 2
  const RetryBaseDelay: real := 2.0
  const RetryMaxDelay: real := 60.0
  const CurlImpersonateOptions: seq<string> :=
    ["chrome110", "chrome116", "chrome120", "safari15_5", "firefox115", "random"]

  /** A requests-style `proxies` dict, or any dict of headers. */
  type ProxyDict = map<string, string>
  type Headers = map<string, string>

  // ---------------------------------------------------------------------------
  // Proxy pool

  /** A line of the proxy file that `load_proxies_from_file` keeps: non-blank after
      stripping, and not starting with '#' before stripping. */
  predicate KeptLine(line: string) {
    Strip(line) != [] && !("#" <= line)
  }

  /** The list comprehension of `load_proxies_from_file`, over the raw lines of the file. */
  function ProxyLines(lines: seq<string>): (r: seq<string>)
    ensures |r| <= |lines|
    ensures forall i :: 0 <= i < |r| ==> r[i] != []
  {
    if lines == [] then []
    else if KeptLine(lines[0]) then [Strip(lines[0])] + ProxyLines(lines[1..])
    else ProxyLines(lines[1..])
  }

  /** The loaded proxies are exactly the stripped forms of the kept lines. */
  lemma {:induction false} ProxyLinesMembers(lines: seq<string>, p: string)
    ensures p in ProxyLines(lines) <==> exists i :: 0 <= i < |lines| && KeptLine(lines[i]) && Strip(lines[i]) == p
  {
    if lines != [] {
      ProxyLinesMembers(lines[1..], p);
      if p in ProxyLines(lines[1..]) {
        var i :| 0 <= i < |lines[1..]| && KeptLine(lines[1..][i]) && Strip(lines[1..][i]) == p;
        assert lines[i + 1] == lines[1..][i];
      }
      if exists i :: 0 <= i < |lines| && KeptLine(lines[i]) && Strip(lines[i]) == p {
        var i :| 0 <= i < |lines| && KeptLine(lines[i]) && Strip(lines[i]) == p;
        if i > 0 {
          assert lines[1..][i - 1] == lines[i];
        }
      }
    }
  }

  /** The '#' test looks at the raw line, so a comment indented by a blank survives,
      with its '#'. */
  lemma IndentedCommentKept(line: string)
    requires |line| >= 2 && IsSpace(line[0]) && line[1] == '#' && !IsSpace(line[|line| - 1])
    ensures KeptLine(line)
    ensures ProxyLines([line]) == [line[1..]]
  {
    assert StripLeft(line[1..]) == line[1..];
    assert StripLeft(line) == line[1..];
    assert line[1..][|line[1..]| - 1] == line[|line| - 1];
    assert Strip(line) == line[1..];
    assert [line][1..] == [];
  }

  /** `[p for p in LOADED_PROXIES if p not in BAD_PROXIES]` */
  function AvailableProxies(loaded: seq<string>, bad: set<string>): (r: seq<string>)
    ensures forall p :: p in r <==> p in loaded && p !in bad
  {
    if loaded == [] then []
    else if loaded[0] !in bad then [loaded[0]] + AvailableProxies(loaded[1..], bad)
    else AvailableProxies(loaded[1..], bad)
  }

  function ProxyDictOf(p: string): ProxyDict {
    map["http://" := p, "https://" := p]
  }

  /** What `get_random_proxy_dict` may return for a pool: None when no loaded proxy is good,
      otherwise one good loaded proxy under both schemes. */
  ghost predicate ProxyPick(loaded: seq<string>, bad: set<string>, d: Option<ProxyDict>) {
    && (d.None? <==> forall p :: p in loaded ==> p in bad)
    && (d.Some? ==> exists p :: p in loaded && p !in bad && d.value == ProxyDictOf(p))
  }

  /** `proxy_dict.get('http://') or proxy_dict.get('https://')`, None for a falsy result. */
  function ProxyUrlOf(d: Option<ProxyDict>): (r: Option<string>)
    ensures r.Some? ==> r.value != [] && d.Some?
    ensures r.Some? ==>
      (("http://" in d.value && d.value["http://"] == r.value) || ("https://" in d.value && d.value["https://"] == r.value))
    ensures d.Some? && "http://" in d.value && d.value["http://"] != [] ==> r == Some(d.value["http://"])
  {
    if d.None? || d.value == map[] then None
    else if "http://" in d.value && d.value["http://"] != [] then Some(d.value["http://"])
    else if "https://" in d.value && d.value["https://"] != [] then Some(d.value["https://"])
    else None
  }

  /** The set `mark_proxy_bad(d)` adds to BAD_PROXIES. */
  function ProxySet(d: Option<ProxyDict>): set<string> {
    match ProxyUrlOf(d)
    case None => {}
    case Some(p) => {p}
  }

  /** Marking the dict of a picked proxy makes exactly that proxy bad, so it is never
      picked again. */
  lemma MarkedNeverPicked(loaded: seq<string>, bad: set<string>, p: string)
    requires p != []
    ensures ProxySet(Some(ProxyDictOf(p))) == {p}
    ensures p !in AvailableProxies(loaded, bad + ProxySet(Some(ProxyDictOf(p))))
  {
  }

  /** LOADED_PROXIES and BAD_PROXIES. */
  class ProxyPool {
    var loaded: seq<string>
    var bad: set<string>

    constructor ()
      ensures loaded == [] && bad == {}
    {
      loaded := [];
      bad := {};
    }

    /** `load_proxies_from_file`: `file` holds the raw lines of the file, or None when
        there is no file name, no such file, or reading it fails. */
    method LoadFromFile(file: Option<seq<string>>)
      modifies this
      ensures loaded == (if file.Some? then ProxyLines(file.value) else old(loaded))
      ensures bad == old(bad)
    {
      if file.Some? {
        loaded := ProxyLines(file.value);
      }
    }

    /** `get_random_proxy_dict`; the random choice is any good proxy. */
    method GetRandomProxyDict() returns (d: Option<ProxyDict>)
      ensures ProxyPick(loaded, bad, d)
    {
      if loaded == [] {
        return None;
      }
      var available := AvailableProxies(loaded, bad);
      if available == [] {
        return None;
      }
      assert available[0] in available;
      var p :| p in available;
      d := Some(ProxyDictOf(p));
    }

    /** `mark_proxy_bad`: only BAD_PROXIES grows, and a None or empty dict changes nothing. */
    method MarkProxyBad(d: Option<ProxyDict>)
      modifies this
      ensures loaded == old(loaded)
      ensures bad == old(bad) + ProxySet(d)
    {
      var url := ProxyUrlOf(d);
      if url.Some? {
        bad := bad + {url.value};
      }
    }

    /** `ScrapeIdentity(last_url, custom_headers)`: a random User-Agent, a random proxy,
        headers consistent with the User-Agent and a random impersonation target. */
    method NewIdentity(lastUrl: Option<string>, custom: Option<Headers>) returns (id: Identity)
      ensures HeadersFor(id, lastUrl, custom)
      ensures ProxyPick(loaded, bad, id.proxy)
    {
      var userAgent: string :| true;
      var proxy := GetRandomProxyDict();
      assert IsShuffle([0, 1, 2]);
      var order :| IsShuffle(order);
      assert CurlImpersonateOptions[0] in CurlImpersonateOptions;
      var impersonate :| impersonate in CurlImpersonateOptions;
      id := Identity(userAgent, proxy, GetConsistentHeaders(userAgent, lastUrl, custom, order), impersonate);
    }
  }

  // ---------------------------------------------------------------------------
  // Retry delay

  function Pow2(n: nat): (r: nat)
    ensures r >= 1
  {
    if n == 0 then 1 else 2 * Pow2(n - 1)
  }

  lemma {:induction false} Pow2Grows(a: nat, b: nat)
    requires a < b
    ensures 2 * Pow2(a) <= Pow2(b)
  {
    if b > a + 1 {
      Pow2Grows(a, b - 1);
    }
  }

  function Min(x: real, y: real): real {
    if x <= y then x else y
  }

  /** `exponential_backoff_with_jitter(attempt)`, with the `random.uniform(0, 1)` draw as
      `jitter`. */
  function Backoff(attempt: nat, jitter: real): (d: real)
    requires 0.0 <= jitter <= 1.0
    ensures Min(RetryMaxDelay, RetryBaseDelay * Pow2(attempt) as real) <= d <= RetryMaxDelay
  {
    Min(RetryMaxDelay, RetryBaseDelay * Pow2(attempt) as real + jitter)
  }

  /** A later attempt never waits less, whatever the two jitters are. */
  lemma BackoffMonotone(a: nat, b: nat, ja: real, jb: real)
    requires a < b
    requires 0.0 <= ja <= 1.0 && 0.0 <= jb <= 1.0
    ensures Backoff(a, ja) <= Backoff(b, jb)
  {
    Pow2Grows(a, b);
    assert Pow2(a) >= 1;
  }

  /** The only delay the pipeline sleeps (after the first of two attempts) lies in [2, 3]. */
  lemma FirstRetryDelay(jitter: real)
    requires 0.0 <= jitter <= 1.0
    ensures 2.0 <= Backoff(0, jitter) <= 3.0
  {
  }

  // ---------------------------------------------------------------------------
  // Headers consistent with the User-Agent

  datatype Platform = Windows | MacOS | Linux | Android | IOS

  /** The platform branch of `get_consistent_headers`, on the lowercased User-Agent. */
  function PlatformOf(ua: string): Platform {
    if Contains(ua, "macintosh") || Contains(ua, "mac os x") then MacOS
    else if Contains(ua, "linux") && !Contains(ua, "android") then Linux
    else if Contains(ua, "android") then Android
    else if Contains(ua, "iphone") || Contains(ua, "ipad") then IOS
    else Windows
  }

  function PlatformName(p: Platform): string {
    match p
    case Windows => "Windows"
    case MacOS => "macOS"
    case Linux => "Linux"
    case Android => "Android"
    case IOS => "iOS"
  }

  function MobileFlag(p: Platform): string {
    if p == Android || p == IOS then "?1" else "?0"
  }

  /** The platform in terms of the keywords alone: a Mac keyword wins over everything,
      "android" wins over "linux", and the iOS keywords count only when neither Mac,
      Linux nor Android keywords occur. */
  lemma PlatformPriority(ua: string)
    ensures var mac := Contains(ua, "macintosh") || Contains(ua, "mac os x");
      && (PlatformOf(ua) == MacOS <==> mac)
      && (PlatformOf(ua) == Linux <==> !mac && Contains(ua, "linux") && !Contains(ua, "android"))
      && (PlatformOf(ua) == Android <==> !mac && Contains(ua, "android"))
      && (PlatformOf(ua) == IOS <==> !mac && !Contains(ua, "linux") && !Contains(ua, "android")
                                      && (Contains(ua, "iphone") || Contains(ua, "ipad")))
      && (MobileFlag(PlatformOf(ua)) == "?1" <==> PlatformOf(ua) == Android || PlatformOf(ua) == IOS)
  {
  }

  /** The longest run of ASCII digits at the front of `s`. */
  function DigitRun(s: string): (r: string)
    ensures r <= s
    ensures forall i :: 0 <= i < |r| ==> IsDigit(r[i])
    ensures |r| < |s| ==> !IsDigit(s[|r|])
  {
    if s != [] && IsDigit(s[0]) then [s[0]] + DigitRun(s[1..]) else []
  }

  /** `chrome/` followed by a digit starts at index `i`. */
  predicate ChromeAt(s: string, i: int) {
    OccursAt(s, "chrome/", i) && i + 7 < |s| && IsDigit(s[i + 7])
  }

  /** `re.search(r'chrome/(\d+)', s).group(1)`: the digits after the leftmost "chrome/"
      that is followed by a digit. */
  function ChromeVersion(s: string): (v: Option<string>)
    ensures v.Some? ==> v.value != [] && Contains(s, "chrome/" + v.value)
    ensures v.Some? ==> forall i :: 0 <= i < |v.value| ==> IsDigit(v.value[i])
    decreases |s|
  {
    if |s| <= 7 then None
    else if "chrome/" <= s && IsDigit(s[7]) then
      var d := DigitRun(s[7..]);
      assert ("chrome/" + d) <= s by {
        assert s == "chrome/" + s[7..];
      }
      Some(d)
    else ChromeVersion(s[1..])
  }

  /** The search fails exactly when no "chrome/" is followed by a digit. */
  lemma {:induction false} ChromeVersionNone(s: string)
    ensures ChromeVersion(s).None? <==> forall i :: !ChromeAt(s, i)
    decreases |s|
  {
    if |s| <= 7 {
    } else if "chrome/" <= s && IsDigit(s[7]) {
      assert ChromeAt(s, 0);
    } else {
      ChromeVersionNone(s[1..]);
      forall i | ChromeAt(s, i) ensures ChromeAt(s[1..], i - 1) {
        assert 1 <= i && i + 7 < |s|;
        assert s[1..][i - 1..i - 1 + 7] == s[i..i + 7];
        assert s[1..][i - 1 + 7] == s[i + 7];
      }
      forall i | ChromeAt(s[1..], i) ensures ChromeAt(s, i + 1) {
        assert s[1..][i..i + 7] == s[i + 1..i + 1 + 7];
        assert s[1..][i + 7] == s[i + 1 + 7];
      }
    }
  }

  /** A version found is the whole digit run after the leftmost "chrome/" that is
      followed by a digit, as `re.search` scans from the left and `\d+` is greedy. */
  lemma {:induction false} ChromeVersionLeftmost(s: string)
    ensures ChromeVersion(s).Some? ==>
      exists i :: && ChromeAt(s, i) && (forall j :: 0 <= j < i ==> !ChromeAt(s, j))
                  && ChromeVersion(s).value == DigitRun(s[i + 7..])
    decreases |s|
  {
    if |s| <= 7 {
    } else if "chrome/" <= s && IsDigit(s[7]) {
      assert ChromeAt(s, 0);
    } else {
      ChromeVersionLeftmost(s[1..]);
      if ChromeVersion(s).Some? {
        assert ChromeVersion(s) == ChromeVersion(s[1..]);
        var k :| && ChromeAt(s[1..], k) && (forall j :: 0 <= j < k ==> !ChromeAt(s[1..], j))
                 && ChromeVersion(s).value == DigitRun(s[1..][k + 7..]);
        LeftmostShift(s, k);
      }
    }
  }

  /** A leftmost match at `k` in `s[1..]`, where `s` has none at 0, is a leftmost match
      at `k + 1` in `s`. */
  lemma LeftmostShift(s: string, k: int)
    requires s != [] && !ChromeAt(s, 0)
    requires ChromeAt(s[1..], k) && forall j :: 0 <= j < k ==> !ChromeAt(s[1..], j)
    ensures ChromeAt(s, k + 1) && (forall j :: 0 <= j < k + 1 ==> !ChromeAt(s, j))
    ensures s[1..][k + 7..] == s[k + 1 + 7..]
  {
    ChromeAtShift(s, k);
    forall j | 0 < j < k + 1 ensures !ChromeAt(s, j) {
      ChromeAtShift(s, j - 1);
    }
  }

  /** Dropping the first character moves every match one place to the left. */
  lemma ChromeAtShift(s: string, j: int)
    requires s != [] && 0 <= j
    ensures ChromeAt(s, j + 1) <==> ChromeAt(s[1..], j)
  {
    if j + 1 + 7 < |s| {
      assert s[1..][j..j + 7] == s[j + 1..j + 1 + 7];
      assert s[1..][j + 7] == s[j + 1 + 7];
    }
  }

  function ChromeVersionOrDefault(ua: string): string {
    match ChromeVersion(ua)
    case Some(v) => v
    case None => "120"
  }

  datatype Brand = Brand(name: string, version: string)

  function BrandList(version: string): seq<Brand> {
    [Brand("Not/A)Brand", "99"), Brand("Google Chrome", version), Brand("Chromium", version)]
  }

  /** An order `random.shuffle` can leave the three brands in. */
  predicate IsShuffle(order: seq<nat>) {
    |order| == 3 && order[0] < 3 && order[1] < 3 && order[2] < 3
    && order[0] != order[1] && order[0] != order[2] && order[1] != order[2]
  }

  /** `f'"{brand}";v="{version}"'` */
  function BrandEntry(b: Brand): string {
    "\"" + b.name + "\";v=\"" + b.version + "\""
  }

  /** The Sec-CH-UA value: the brand entries in shuffled order, joined by ", ". */
  function SecChUa(version: string, order: seq<nat>): string
    requires IsShuffle(order)
  {
    var brands := BrandList(version);
    Join([BrandEntry(brands[order[0]]), BrandEntry(brands[order[1]]), BrandEntry(brands[order[2]])], ", ")
  }

  /** Each of three parts joined by ", " occurs in the result. */
  lemma JoinThreeContains(a: string, b: string, c: string)
    ensures Contains(Join([a, b, c], ", "), a)
    ensures Contains(Join([a, b, c], ", "), b)
    ensures Contains(Join([a, b, c], ", "), c)
  {
    assert [a, b, c][1..] == [b, c] && [b, c][1..] == [c];
    assert Join([c], ", ") == c;
    assert Join([b, c], ", ") == b + ", " + c;
    var joined := a + ", " + (b + ", " + c);
    assert Join([a, b, c], ", ") == joined;
    assert joined[0..|a|] == a;
    OccursContains(joined, a, 0);
    assert joined[|a| + 2..|a| + 2 + |b|] == b;
    OccursContains(joined, b, |a| + 2);
    assert joined[|a| + |b| + 4..|a| + |b| + 4 + |c|] == c;
    OccursContains(joined, c, |a| + |b| + 4);
  }

  /** Whatever the shuffle, every brand entry appears in Sec-CH-UA. */
  lemma SecChUaListsEveryBrand(version: string, order: seq<nat>, k: nat)
    requires IsShuffle(order) && k < 3
    ensures Contains(SecChUa(version, order), BrandEntry(BrandList(version)[k]))
  {
    var brands := BrandList(version);
    JoinThreeContains(BrandEntry(brands[order[0]]), BrandEntry(brands[order[1]]), BrandEntry(brands[order[2]]));
    assert k == order[0] || k == order[1] || k == order[2];
  }

  const AcceptValue: string :=
    "text/html,application/xhtml+xml,application/xml;q=0.9,image/avif,image/webp,image/apng,*/*;q=0.8,application/signed-exchange;v=b3;q=0.9"
  const AcceptLanguageValue: string := "en-US,en;q=0.9,zh-CN;q=0.8,zh;q=0.7"

  /** Python truthiness of `last_url`. */
  predicate Truthy(s: Option<string>) {
    s.Some? && s.value != []
  }

  /** `custom_headers` holds key `k` (a None or empty dict holds none). */
  predicate CustomHas(custom: Option<Headers>, k: string) {
    custom.Some? && k in custom.value
  }

  const DefaultHeaderNames: set<string> :=
    {"User-Agent", "Accept", "Accept-Language", "Accept-Encoding", "Connection",
     "Upgrade-Insecure-Requests", "Sec-CH-UA", "Sec-CH-UA-Mobile", "Sec-CH-UA-Platform",
     "Sec-Fetch-Dest", "Sec-Fetch-Mode", "Sec-Fetch-Site", "Sec-Fetch-User"}

  /** The header dict of `get_consistent_headers` before the Referer and the custom
      headers are added. */
  function DefaultHeaders(ua: string, lastUrl: Option<string>, order: seq<nat>): Headers
    requires IsShuffle(order)
  {
    var platform := PlatformOf(Lower(ua));
    HeaderDict(ua, SecChUa(ChromeVersionOrDefault(Lower(ua)), order), MobileFlag(platform),
               "\"" + PlatformName(platform) + "\"",
               if Truthy(lastUrl) then "same-origin" else "cross-site")
  }

  /** The default header dict with its five computed entries given. */
  function HeaderDict(ua: string, chUa: string, mobile: string, platform: string, site: string): (h: Headers)
    ensures h.Keys == DefaultHeaderNames
  {
    FixedHeaders + map[
      "User-Agent" := ua,
      "Sec-CH-UA" := chUa,
      "Sec-CH-UA-Mobile" := mobile,
      "Sec-CH-UA-Platform" := platform,
      "Sec-Fetch-Site" := site]
  }

  lemma HeaderDictValues(ua: string, chUa: string, mobile: string, platform: string, site: string)
    ensures var h := HeaderDict(ua, chUa, mobile, platform, site);
      && h["User-Agent"] == ua && h["Sec-CH-UA"] == chUa && h["Sec-CH-UA-Mobile"] == mobile
      && h["Sec-CH-UA-Platform"] == platform && h["Sec-Fetch-Site"] == site
  {
  }

  /** The entries of the default header dict that do not depend on the User-Agent or
      on the previous URL. */
  const FixedHeaders: Headers :=
    map[
      "Accept" := AcceptValue,
      "Accept-Language" := AcceptLanguageValue,
      "Accept-Encoding" := "gzip, deflate, br",
      "Connection" := "keep-alive",
      "Upgrade-Insecure-Requests" := "1",
      "Sec-Fetch-Dest" := "document",
      "Sec-Fetch-Mode" := "navigate",
      "Sec-Fetch-User" := "?1"]

  /** `headers["Referer"] = last_url` when `last_url` is truthy. */
  function WithReferer(h: Headers, lastUrl: Option<string>): Headers {
    if Truthy(lastUrl) then h["Referer" := lastUrl.value] else h
  }

  /** `headers.update(custom_headers)` when `custom_headers` is truthy. */
  function Override(h: Headers, custom: Option<Headers>): Headers {
    if custom.Some? && custom.value != map[] then h + custom.value else h
  }

  lemma WithRefererContents(h: Headers, lastUrl: Option<string>)
    ensures var r := WithReferer(h, lastUrl);
      && r.Keys == h.Keys + (if Truthy(lastUrl) then {"Referer"} else {})
      && (forall k :: k in h && k != "Referer" ==> r[k] == h[k])
      && (Truthy(lastUrl) ==> r["Referer"] == lastUrl.value)
  {
  }

  lemma OverrideContents(h: Headers, custom: Option<Headers>)
    ensures var r := Override(h, custom);
      && r.Keys == h.Keys + (if custom.Some? then custom.value.Keys else {})
      && (forall k :: CustomHas(custom, k) ==> r[k] == custom.value[k])
      && (forall k :: k in h && !CustomHas(custom, k) ==> r[k] == h[k])
  {
  }

  /** `get_consistent_headers(user_agent, last_url, custom_headers)`, with the brand
      shuffle as `order`. */
  function GetConsistentHeaders(ua: string, lastUrl: Option<string>, custom: Option<Headers>, order: seq<nat>): Headers
    requires IsShuffle(order)
  {
    Override(WithReferer(DefaultHeaders(ua, lastUrl, order), lastUrl), custom)
  }

  /** The headers are the defaults, then Referer when `last_url` is truthy, then the
      custom headers, which override both. */
  lemma ConsistentHeadersContents(ua: string, lastUrl: Option<string>, custom: Option<Headers>, order: seq<nat>)
    requires IsShuffle(order)
    ensures var h := GetConsistentHeaders(ua, lastUrl, custom, order);
      && h.Keys == DefaultHeaderNames + (if Truthy(lastUrl) then {"Referer"} else {})
                   + (if custom.Some? then custom.value.Keys else {})
      && (forall k :: CustomHas(custom, k) ==> h[k] == custom.value[k])
      && (forall k :: k in DefaultHeaderNames && !CustomHas(custom, k) ==> h[k] == DefaultHeaders(ua, lastUrl, order)[k])
      && (!CustomHas(custom, "Referer") ==> ("Referer" in h <==> Truthy(lastUrl)))
      && (!CustomHas(custom, "Referer") && Truthy(lastUrl) ==> h["Referer"] == lastUrl.value)
  {
    assert "Referer" !in DefaultHeaderNames;
    var d := DefaultHeaders(ua, lastUrl, order);
    WithRefererContents(d, lastUrl);
    OverrideContents(WithReferer(d, lastUrl), custom);
  }

  /** Unless a custom header overrides it: the User-Agent header is the User-Agent, mobile
      is "?1" exactly for Android and iOS, and Sec-Fetch-Site is "same-origin" exactly when
      a previous URL is given. */
  lemma HeadersAgreeWithUserAgent(ua: string, lastUrl: Option<string>, custom: Option<Headers>, order: seq<nat>)
    requires IsShuffle(order)
    ensures var h := GetConsistentHeaders(ua, lastUrl, custom, order);
      var platform := PlatformOf(Lower(ua));
      && (!CustomHas(custom, "User-Agent") ==> h["User-Agent"] == ua)
      && (!CustomHas(custom, "Sec-CH-UA-Mobile") ==> (h["Sec-CH-UA-Mobile"] == "?1" <==> platform == Android || platform == IOS))
      && (!CustomHas(custom, "Sec-CH-UA-Platform") ==> h["Sec-CH-UA-Platform"] == "\"" + PlatformName(platform) + "\"")
      && (!CustomHas(custom, "Sec-Fetch-Site") ==> (h["Sec-Fetch-Site"] == "same-origin" <==> Truthy(lastUrl)))
  {
    ConsistentHeadersContents(ua, lastUrl, custom, order);
    var platform := PlatformOf(Lower(ua));
    HeaderDictValues(ua, SecChUa(ChromeVersionOrDefault(Lower(ua)), order), MobileFlag(platform),
                     "\"" + PlatformName(platform) + "\"", if Truthy(lastUrl) then "same-origin" else "cross-site");
    assert "User-Agent" in DefaultHeaderNames && "Sec-CH-UA-Mobile" in DefaultHeaderNames;
    assert "Sec-CH-UA-Platform" in DefaultHeaderNames && "Sec-Fetch-Site" in DefaultHeaderNames;
  }

  /** The Chrome version a User-Agent announces reaches Sec-CH-UA whatever the shuffle;
      without one the version is "120". */
  lemma HeadersCarryChromeVersion(ua: string, lastUrl: Option<string>, order: seq<nat>)
    requires IsShuffle(order)
    ensures var v := ChromeVersionOrDefault(Lower(ua));
      && "Sec-CH-UA" in GetConsistentHeaders(ua, lastUrl, None, order)
      && Contains(GetConsistentHeaders(ua, lastUrl, None, order)["Sec-CH-UA"], BrandEntry(Brand("Google Chrome", v)))
      && (ChromeVersion(Lower(ua)).None? ==> v == "120")
  {
    SecChUaListsEveryBrand(ChromeVersionOrDefault(Lower(ua)), order, 1);
    ConsistentHeadersContents(ua, lastUrl, None, order);
    var platform := PlatformOf(Lower(ua));
    HeaderDictValues(ua, SecChUa(ChromeVersionOrDefault(Lower(ua)), order), MobileFlag(platform),
                     "\"" + PlatformName(platform) + "\"", if Truthy(lastUrl) then "same-origin" else "cross-site");
    assert "Sec-CH-UA" in DefaultHeaderNames;
  }

  /** A request identity (`ScrapeIdentity`). */
  datatype Identity = Identity(userAgent: string, proxy: Option<ProxyDict>, headers: Headers, impersonate: string)

  /** The identity's headers and impersonation target are ones `ScrapeIdentity` can build. */
  ghost predicate HeadersFor(id: Identity, lastUrl: Option<string>, custom: Option<Headers>) {
    && id.impersonate in CurlImpersonateOptions
    && exists order :: IsShuffle(order) && id.headers == GetConsistentHeaders(id.userAgent, lastUrl, custom, order)
  }

  // ---------------------------------------------------------------------------
  // CAPTCHA detection

  const CaptchaKeywords: seq<string> :=
    ["g-recaptcha", "h-captcha", "are you a robot", "人机验证", "验证码", "slide to verify"]

  /** `is_captcha_block(text)` */
  predicate IsCaptchaBlock(text: string) {
    exists k :: 0 <= k < |CaptchaKeywords| && Contains(Lower(text), CaptchaKeywords[k])
  }

  lemma LowerIdempotent(s: string)
    ensures Lower(Lower(s)) == Lower(s)
  {
  }

  /** A CAPTCHA page is one in which some keyword occurs, at some position, in the
      lowercased text; letter case of the text does not matter. */
  lemma CaptchaIff(text: string)
    ensures IsCaptchaBlock(text) <==>
      exists k, i :: 0 <= k < |CaptchaKeywords| && OccursAt(Lower(text), CaptchaKeywords[k], i)
    ensures IsCaptchaBlock(text) <==> IsCaptchaBlock(Lower(text))
  {
    forall k | 0 <= k < |CaptchaKeywords| {
      ContainsIff(Lower(text), CaptchaKeywords[k]);
    }
    LowerIdempotent(text);
  }

  /** A page that shows a CAPTCHA still does with anything added around it. */
  lemma CaptchaInContext(a: string, text: string, b: string)
    requires IsCaptchaBlock(text)
    ensures IsCaptchaBlock(a + text + b)
  {
    var k :| 0 <= k < |CaptchaKeywords| && Contains(Lower(text), CaptchaKeywords[k]);
    LowerAppend(a + text, b);
    LowerAppend(a, text);
    ContainsInContext(Lower(a), Lower(text), Lower(b), CaptchaKeywords[k]);
  }

  // ---------------------------------------------------------------------------
  // robots.txt cache

  /** A parser from ROBOTS_PARSERS: allow-all (what a failed fetch installs) or the rules
      of a fetched robots.txt text. */
  datatype RobotsRules = AllowAll | Parsed(text: string)

  /** The cache key `f"{scheme}://{netloc}"`. */
  function RobotsKey(scheme: string, netloc: string): string {
    scheme + "://" + netloc
  }

  /** One call of `get_robots_parser` on the cache: the cached parser, or a new one built
      from `fetched` (None when the fetch or `raise_for_status` failed) and stored. */
  function CacheLookup(cache: map<string, RobotsRules>, key: string, fetched: Option<string>): (r: (RobotsRules, map<string, RobotsRules>))
    ensures key in r.1 && r.1[key] == r.0
    ensures r.1.Keys == cache.Keys + {key}
    ensures forall k :: k in cache ==> k in r.1 && r.1[k] == cache[k]
    ensures key !in cache ==> r.0 == (if fetched.Some? then Parsed(fetched.value) else AllowAll)
  {
    if key in cache then (cache[key], cache)
    else
      var rules := if fetched.Some? then Parsed(fetched.value) else AllowAll;
      (rules, cache[key := rules])
  }

  /** A second lookup with the same key (another URL of the same scheme and host) returns
      the parser of the first, whatever its own fetch would give, and changes nothing. */
  lemma CacheLookupShared(cache: map<string, RobotsRules>, key: string, f1: Option<string>, f2: Option<string>)
    ensures var (rules, cache1) := CacheLookup(cache, key, f1);
      CacheLookup(cache1, key, f2) == (rules, cache1)
  {
  }

  /** `parser.is_allowed(user_agent, url)`; the rules of a fetched file are interpreted by
      `allows`, which stands for the parser library. */
  function Allowed(rules: RobotsRules, ua: string, url: string, allows: (string, string, string) -> bool): bool {
    match rules
    case AllowAll => true
    case Parsed(text) => allows(text, ua, url)
  }

  /** ROBOTS_PARSERS */
  class RobotsCache {
    var parsers: map<string, RobotsRules>

    constructor ()
      ensures parsers == map[]
    {
      parsers := map[];
    }

    /** `get_robots_parser` for a URL with the given scheme and host. */
    method GetParser(scheme: string, netloc: string, fetched: Option<string>) returns (rules: RobotsRules)
      modifies this
      ensures (rules, parsers) == CacheLookup(old(parsers), RobotsKey(scheme, netloc), fetched)
    {
      var key := RobotsKey(scheme, netloc);
      if key in parsers {
        return parsers[key];
      }
      rules := if fetched.Some? then Parsed(fetched.value) else AllowAll;
      parsers := parsers[key := rules];
    }

    /** `is_url_allowed_by_robots(url, user_agent, ...)` */
    method IsUrlAllowed(scheme: string, netloc: string, url: string, ua: string, fetched: Option<string>,
                        allows: (string, string, string) -> bool) returns (allowed: bool)
      modifies this
      ensures parsers == CacheLookup(old(parsers), RobotsKey(scheme, netloc), fetched).1
      ensures allowed == Allowed(CacheLookup(old(parsers), RobotsKey(scheme, netloc), fetched).0, ua, url, allows)
    {
      var rules := GetParser(scheme, netloc, fetched);
      allowed := Allowed(rules, ua, url, allows);
    }
  }

  // ---------------------------------------------------------------------------
  // The engine pipeline of `fetch_url_with_strategy`

  datatype Engine = Requests | Httpx | Cloudscraper | CurlCffi

  function EngineName(e: Engine): string {
    match e
    case Requests => "requests"
    case Httpx => "httpx"
    case Cloudscraper => "cloudscraper"
    case CurlCffi => "curl_cffi"
  }

  /** STRATEGY_PIPELINE */
  const Pipeline: seq<Engine> := [Requests, Httpx, Cloudscraper, CurlCffi]

  /** `STRATEGY_PIPELINE.index(name)`, or -1 where `index` raises ValueError. */
  function IndexOfName(es: seq<Engine>, name: string): (i: int)
    ensures -1 <= i < |es|
    ensures i >= 0 ==> EngineName(es[i]) == name && forall j :: 0 <= j < i ==> EngineName(es[j]) != name
    ensures i == -1 ==> forall j :: 0 <= j < |es| ==> EngineName(es[j]) != name
  {
    if es == [] then -1
    else if EngineName(es[0]) == name then 0
    else
      var k := IndexOfName(es[1..], name);
      if k == -1 then -1 else k + 1
  }

  /** `active_pipeline`: the pipeline from the start engine on, or all of it when the
      name is not an engine. */
  function ActivePipeline(startEngine: string): (r: seq<Engine>)
    ensures 0 < |r| <= |Pipeline| && r == Pipeline[|Pipeline| - |r|..]
    ensures (exists j :: 0 <= j < |Pipeline| && EngineName(Pipeline[j]) == startEngine) ==> EngineName(r[0]) == startEngine
    ensures (forall j :: 0 <= j < |Pipeline| ==> EngineName(Pipeline[j]) != startEngine) ==> r == Pipeline
  {
    var i := IndexOfName(Pipeline, startEngine);
    if i == -1 then Pipeline else Pipeline[i..]
  }

  /** What one request attempt meets, as the engine's client reports it:
      - `Answer`: a response that `raise_for_status` accepts;
      - `HttpError`: a response whose `raise_for_status` raises an error that the
        `except (requests.exceptions.HTTPError, httpx.HTTPStatusError)` clause catches,
        with its status code and its "Server" header ("" when absent);
      - `Failure`: any other exception (network errors, timeouts, other error types). */
  datatype Reply =
    | Answer(text: string)
    | HttpError(text: string, status: int, server: string)
    | Failure

  /** The way an attempt ends. */
  datatype Verdict =
    | Fetched            // the response is returned
    | CaptchaAbort       // a CAPTCHA page: the whole fetch returns None
    | CloudflareEscalate // `break` to the next engine
    | HardBlock          // 401/403/407: the proxy is marked bad and a new identity is built
    | SoftFailure        // any other error: retry

  predicate IsCloudflare(server: string) {
    Contains(Lower(server), "cloudflare")
  }

  predicate IsHardBlock(status: int) {
    status == 403 || status == 401 || status == 407
  }

  function Classify(engine: Engine, reply: Reply, stream: bool): Verdict {
    match reply
    case Answer(text) => if !stream && IsCaptchaBlock(text) then CaptchaAbort else Fetched
    case HttpError(text, status, server) =>
      if !stream && IsCaptchaBlock(text) then CaptchaAbort
      else if IsCloudflare(server) && engine != Cloudscraper && engine != CurlCffi then CloudflareEscalate
      else if IsHardBlock(status) then HardBlock
      else SoftFailure
    case Failure => SoftFailure
  }

  /** One attempt: the engine (at place `stage` of the active pipeline), the attempt
      number, how it ended, and whether the loop then slept before the next attempt. */
  datatype Step = Step(stage: nat, engine: Engine, attempt: nat, verdict: Verdict, slept: bool)

  /** How each attempt ends when attempt `a` of an engine gets the reply `respond` gives. */
  function Verdicts(respond: (Engine, nat) -> Reply, stream: bool): (Engine, nat) -> Verdict {
    (e: Engine, a: nat) => Classify(e, respond(e, a), stream)
  }

  /** The attempts the two nested loops make from stage `i`, attempt `a` on, when
      `verdictOf` says how attempt `a` of an engine ends. */
  function Plan(engines: seq<Engine>, i: nat, a: nat, verdictOf: (Engine, nat) -> Verdict): seq<Step>
    decreases |engines| - i, MaxRetriesPerEngine - a
  {
    if i >= |engines| then []
    else if a >= MaxRetriesPerEngine then Plan(engines, i + 1, 0, verdictOf)
    else
      var v := verdictOf(engines[i], a);
      if v == Fetched || v == CaptchaAbort then [Step(i, engines[i], a, v, false)]
      else if v == CloudflareEscalate then [Step(i, engines[i], a, v, false)] + Plan(engines, i + 1, 0, verdictOf)
      else [Step(i, engines[i], a, v, a < MaxRetriesPerEngine - 1)] + Plan(engines, i, a + 1, verdictOf)
  }

  predicate Terminal(v: Verdict) {
    v == Fetched || v == CaptchaAbort
  }

  /** Unfolding `Plan` at a stage and attempt that exist. */
  lemma PlanUnfold(engines: seq<Engine>, i: nat, a: nat, verdictOf: (Engine, nat) -> Verdict)
    requires i < |engines| && a < MaxRetriesPerEngine
    ensures var v := verdictOf(engines[i], a);
      var slept := !Terminal(v) && v != CloudflareEscalate && a < MaxRetriesPerEngine - 1;
      var next := if v == CloudflareEscalate || a + 1 == MaxRetriesPerEngine then Plan(engines, i + 1, 0, verdictOf)
                  else Plan(engines, i, a + 1, verdictOf);
      Plan(engines, i, a, verdictOf) == [Step(i, engines[i], a, v, slept)] + (if Terminal(v) then [] else next)
  {
  }

  /** Every attempt is an attempt below MAX_RETRIES_PER_ENGINE of the engine at its stage,
      ends as its reply dictates, and is followed by a sleep exactly when it is a
      retryable error that is not the engine's last try. */
  predicate StepFits(engines: seq<Engine>, i: nat, verdictOf: (Engine, nat) -> Verdict, s: Step) {
    && i <= s.stage < |engines| && s.engine == engines[s.stage]
    && s.attempt < MaxRetriesPerEngine
    && s.verdict == verdictOf(s.engine, s.attempt)
    && (s.slept <==> (s.verdict == HardBlock || s.verdict == SoftFailure) && s.attempt < MaxRetriesPerEngine - 1)
  }

  lemma StepFitsLater(engines: seq<Engine>, i: nat, verdictOf: (Engine, nat) -> Verdict, steps: seq<Step>)
    requires forall k :: 0 <= k < |steps| ==> StepFits(engines, i + 1, verdictOf, steps[k])
    ensures forall k :: 0 <= k < |steps| ==> StepFits(engines, i, verdictOf, steps[k])
  {
  }

  lemma {:induction false} PlanSteps(engines: seq<Engine>, i: nat, a: nat, verdictOf: (Engine, nat) -> Verdict)
    requires a <= MaxRetriesPerEngine
    ensures forall k :: 0 <= k < |Plan(engines, i, a, verdictOf)| ==>
      StepFits(engines, i, verdictOf, Plan(engines, i, a, verdictOf)[k])
    decreases |engines| - i, MaxRetriesPerEngine - a
  {
    if i >= |engines| {
    } else {
      PlanSteps(engines, i + 1, 0, verdictOf);
      StepFitsLater(engines, i, verdictOf, Plan(engines, i + 1, 0, verdictOf));
      if a < MaxRetriesPerEngine {
        PlanUnfold(engines, i, a, verdictOf);
        PlanSteps(engines, i, a + 1, verdictOf);
      }
    }
  }

  /** The first attempt of a run from stage `i` is attempt `a` of that stage, and only the
      last attempt of a run can end the fetch. */
  lemma {:induction false} PlanOnlyLastEnds(engines: seq<Engine>, i: nat, a: nat, verdictOf: (Engine, nat) -> Verdict)
    requires a <= MaxRetriesPerEngine
    ensures var steps := Plan(engines, i, a, verdictOf);
      && (i < |engines| && a < MaxRetriesPerEngine ==> steps != [] && steps[0].stage == i && steps[0].attempt == a)
      && (forall k :: 0 <= k < |steps| - 1 ==> !Terminal(steps[k].verdict))
    decreases |engines| - i, MaxRetriesPerEngine - a
  {
    if i >= |engines| {
    } else if a == MaxRetriesPerEngine {
      PlanOnlyLastEnds(engines, i + 1, 0, verdictOf);
    } else {
      PlanUnfold(engines, i, a, verdictOf);
      PlanOnlyLastEnds(engines, i + 1, 0, verdictOf);
      PlanOnlyLastEnds(engines, i, a + 1, verdictOf);
    }
  }

  /** After a Cloudflare error, or the engine's last try, the next attempt is the first of
      the next engine; after any other error it is the next attempt of the same engine. */
  predicate Follows(s: Step, t: Step) {
    if s.verdict == CloudflareEscalate || s.attempt == MaxRetriesPerEngine - 1
    then t.stage == s.stage + 1 && t.attempt == 0
    else t.stage == s.stage && t.attempt == s.attempt + 1
  }

  lemma {:induction false} PlanTransitions(engines: seq<Engine>, i: nat, a: nat, verdictOf: (Engine, nat) -> Verdict)
    requires a <= MaxRetriesPerEngine
    ensures var steps := Plan(engines, i, a, verdictOf);
      forall k :: 0 <= k < |steps| - 1 ==> Follows(steps[k], steps[k + 1])
    decreases |engines| - i, MaxRetriesPerEngine - a
  {
    if i >= |engines| {
    } else if a == MaxRetriesPerEngine {
      assert Plan(engines, i, a, verdictOf) == Plan(engines, i + 1, 0, verdictOf);
      PlanTransitions(engines, i + 1, 0, verdictOf);
    } else {
      PlanUnfold(engines, i, a, verdictOf);
      var v := verdictOf(engines[i], a);
      if !Terminal(v) {
        var steps := Plan(engines, i, a, verdictOf);
        var (i', a') := if v == CloudflareEscalate || a + 1 == MaxRetriesPerEngine then (i + 1, 0) else (i, a + 1);
        var rest := Plan(engines, i', a', verdictOf);
        assert steps == [steps[0]] + rest;
        PlanTransitions(engines, i', a', verdictOf);
        PlanOnlyLastEnds(engines, i', a', verdictOf);
        forall k | 0 <= k < |steps| - 1 ensures Follows(steps[k], steps[k + 1]) {
          if k > 0 {
            assert steps[k] == rest[k - 1] && steps[k + 1] == rest[k];
          } else {
            assert steps[1] == rest[0];
          }
        }
      }
    }
  }

  /** A run that ends without a response or a CAPTCHA has run through the last engine:
      its last attempt was that engine's last try, or a Cloudflare error. */
  lemma {:induction false} PlanExhausts(engines: seq<Engine>, i: nat, a: nat, verdictOf: (Engine, nat) -> Verdict)
    requires a <= MaxRetriesPerEngine
    ensures var steps := Plan(engines, i, a, verdictOf);
      steps != [] && !Terminal(steps[|steps| - 1].verdict) ==>
        && steps[|steps| - 1].stage == |engines| - 1
        && (steps[|steps| - 1].verdict == CloudflareEscalate || steps[|steps| - 1].attempt == MaxRetriesPerEngine - 1)
    decreases |engines| - i, MaxRetriesPerEngine - a
  {
    if i >= |engines| {
    } else if a == MaxRetriesPerEngine {
      assert Plan(engines, i, a, verdictOf) == Plan(engines, i + 1, 0, verdictOf);
      PlanExhausts(engines, i + 1, 0, verdictOf);
    } else {
      PlanUnfold(engines, i, a, verdictOf);
      var v := verdictOf(engines[i], a);
      if !Terminal(v) {
        var steps := Plan(engines, i, a, verdictOf);
        var (i', a') := if v == CloudflareEscalate || a + 1 == MaxRetriesPerEngine then (i + 1, 0) else (i, a + 1);
        var rest := Plan(engines, i', a', verdictOf);
        assert steps == [steps[0]] + rest;
        PlanExhausts(engines, i', a', verdictOf);
        PlanOnlyLastEnds(engines, i', a', verdictOf);
        if rest != [] {
          assert steps[|steps| - 1] == rest[|rest| - 1];
        }
      }
    }
  }

  /** A streamed fetch (direct download) never aborts on a CAPTCHA, and a fetch ends in a
      CAPTCHA abort exactly when a non-streamed response carries a CAPTCHA keyword. */
  lemma CaptchaOnlyWithoutStream(engine: Engine, reply: Reply, stream: bool)
    ensures Classify(engine, reply, stream) == CaptchaAbort <==>
      !stream && !reply.Failure? && IsCaptchaBlock(reply.text)
  {
  }

  /** The parts of a task dict that `fetch_url_with_strategy` reads; `scheme` and `netloc`
      are those of `urlparse(url)`. */
  datatype Task = Task(
    url: string, scheme: string, netloc: string,
    startEngine: Option<string>,    // "start_engine", absent: the first engine
    downloadMethod: Option<string>, // "download_method"
    customHeaders: Option<Headers>, // "custom_headers"
    ignoreRobots: bool)             // "ignore_robots", absent: False

  function StartEngine(task: Task): string {
    if task.startEngine.Some? then task.startEngine.value else EngineName(Pipeline[0])
  }

  /** `stream = task.get("download_method") == "direct"` */
  predicate IsStream(task: Task) {
    task.downloadMethod == Some("direct")
  }

  /** The proxies marked bad by a run: the proxy of the identity of every hard-blocked
      attempt. */
  function Marked(steps: seq<Step>, trail: seq<Identity>): set<string>
    requires |steps| == |trail|
  {
    if steps == [] then {}
    else
      var n := |steps| - 1;
      Marked(steps[..n], trail[..n]) + (if steps[n].verdict == HardBlock then ProxySet(trail[n].proxy) else {})
  }

  lemma MarkedAppend(steps: seq<Step>, trail: seq<Identity>, s: Step, id: Identity)
    requires |steps| == |trail|
    ensures Marked(steps + [s], trail + [id]) == Marked(steps, trail) + (if s.verdict == HardBlock then ProxySet(id.proxy) else {})
  {
    assert (steps + [s])[..|steps|] == steps;
    assert (trail + [id])[..|trail|] == trail;
  }

  ghost predicate ProxyFrom(d: Option<ProxyDict>, loaded: seq<string>, bad: set<string>) {
    d.Some? ==> exists p :: p in loaded && p !in bad && d.value == ProxyDictOf(p)
  }

  /** A proxy picked when `bad` is the bad set leaves every bad proxy out. */
  lemma PickAvoidsBad(loaded: seq<string>, bad: set<string>, d: Option<ProxyDict>)
    requires ProxyPick(loaded, bad, d)
    ensures ProxySet(d) !! bad
  {
    if d.Some? {
      var p :| p in loaded && p !in bad && d.value == ProxyDictOf(p);
      assert ProxySet(d) <= {p};
    }
  }

  /** The identity after a hard block does not use the proxy just marked bad. */
  ghost predicate Renewed(next: Identity, blocked: Identity) {
    ProxySet(next.proxy) !! ProxySet(blocked.proxy)
  }

  /** How an attempt with the given verdict hands its identity on to the next one. */
  ghost predicate HandsOn(verdict: Verdict, used: Identity, next: Identity) {
    if verdict == HardBlock then Renewed(next, used) else next == used
  }

  /** Every identity of the trail has no proxy or a proxy that was good at the start. */
  ghost predicate ProxiesFrom(trail: seq<Identity>, loaded: seq<string>, bad: set<string>) {
    forall k :: 0 <= k < |trail| ==> ProxyFrom(trail[k].proxy, loaded, bad)
  }

  ghost predicate Chained(steps: seq<Step>, trail: seq<Identity>)
    requires |trail| == |steps|
  {
    forall k {:trigger steps[k]} :: 0 <= k < |steps| - 1 ==> HandsOn(steps[k].verdict, trail[k], trail[k + 1])
  }

  /** How the identities of a run hang together: the first attempt uses the first
      identity; every proxy used was good at the start; an identity is kept until a hard
      block, after which the new one does not use the proxy just marked bad. `identity` is
      the one the next attempt uses. */
  ghost predicate Trail(steps: seq<Step>, trail: seq<Identity>, identity: Identity, initial: Identity,
                        loaded: seq<string>, bad: set<string>) {
    && |trail| == |steps|
    && (steps == [] ==> identity == initial)
    && (steps != [] ==> trail[0] == initial)
    && ProxiesFrom(trail, loaded, bad)
    && Chained(steps, trail)
    && (steps != [] ==> HandsOn(steps[|steps| - 1].verdict, trail[|steps| - 1], identity))
  }

  lemma ProxiesFromAppend(trail: seq<Identity>, id: Identity, loaded: seq<string>, bad: set<string>)
    requires ProxiesFrom(trail, loaded, bad) && ProxyFrom(id.proxy, loaded, bad)
    ensures ProxiesFrom(trail + [id], loaded, bad)
  {
    forall k | 0 <= k < |trail + [id]| ensures ProxyFrom((trail + [id])[k].proxy, loaded, bad) {
      if k < |trail| {
        assert (trail + [id])[k] == trail[k];
      }
    }
  }

  lemma ChainedAppend(steps: seq<Step>, trail: seq<Identity>, s: Step, id: Identity)
    requires |trail| == |steps| && Chained(steps, trail)
    requires steps != [] ==> HandsOn(steps[|steps| - 1].verdict, trail[|steps| - 1], id)
    ensures Chained(steps + [s], trail + [id])
  {
    var steps', trail' := steps + [s], trail + [id];
    forall k | 0 <= k < |steps'| - 1 ensures HandsOn(steps'[k].verdict, trail'[k], trail'[k + 1]) {
      assert steps'[k] == steps[k] && trail'[k] == trail[k];
      if k < |steps| - 1 {
        assert trail'[k + 1] == trail[k + 1];
      }
    }
  }

  lemma TrailAppend(steps: seq<Step>, trail: seq<Identity>, identity: Identity, initial: Identity,
                    loaded: seq<string>, bad: set<string>, s: Step, next: Identity)
    requires Trail(steps, trail, identity, initial, loaded, bad)
    requires ProxyFrom(identity.proxy, loaded, bad)
    requires HandsOn(s.verdict, identity, next)
    ensures Trail(steps + [s], trail + [identity], next, initial, loaded, bad)
  {
    ProxiesFromAppend(trail, identity, loaded, bad);
    ChainedAppend(steps, trail, s, identity);
    assert (steps + [s])[|steps|] == s;
    assert (trail + [identity])[|steps|] == identity;
    if steps != [] {
      assert (trail + [identity])[0] == trail[0];
    }
  }

  /** One attempt of the inner loop: the request and its classification, and on a hard
      block `mark_proxy_bad` and a new identity. */
  method Attempt(pool: ProxyPool, engine: Engine, attempt: nat, identity: Identity, stream: bool,
                 respond: (Engine, nat) -> Reply, lastUrl: Option<string>, custom: Option<Headers>)
    returns (verdict: Verdict, next: Identity)
    modifies pool
    ensures verdict == Classify(engine, respond(engine, attempt), stream)
    ensures pool.loaded == old(pool.loaded)
    ensures HandsOn(verdict, identity, next)
    ensures verdict != HardBlock ==> pool.bad == old(pool.bad)
    ensures verdict == HardBlock ==>
      && pool.bad == old(pool.bad) + ProxySet(identity.proxy)
      && HeadersFor(next, lastUrl, custom) && ProxyPick(pool.loaded, pool.bad, next.proxy)
  {
    var reply := respond(engine, attempt);
    next := identity;
    if reply.Failure? {
      verdict := SoftFailure;
    } else if !stream && IsCaptchaBlock(reply.text) {
      verdict := CaptchaAbort;
    } else if reply.Answer? {
      verdict := Fetched;
    } else if IsCloudflare(reply.server) && engine != Cloudscraper && engine != CurlCffi {
      verdict := CloudflareEscalate;
    } else if IsHardBlock(reply.status) {
      verdict := HardBlock;
      pool.MarkProxyBad(identity.proxy);
      next := pool.NewIdentity(lastUrl, custom);
      PickAvoidsBad(pool.loaded, pool.bad, next.proxy);
    } else {
      verdict := SoftFailure;
    }
  }

  lemma ProxyPickFrom(loaded: seq<string>, bad0: set<string>, bad: set<string>, d: Option<ProxyDict>)
    requires bad0 <= bad && ProxyPick(loaded, bad, d)
    ensures ProxyFrom(d, loaded, bad0)
  {
  }

  lemma AppendAssoc(a: seq<Step>, b: seq<Step>, c: seq<Step>)
    ensures a + (b + c) == (a + b) + c
  {
  }

  lemma UnionAssoc(a: set<string>, b: set<string>, c: set<string>)
    ensures a + (b + c) == (a + b) + c
  {
  }

  /** What holds of a run after each attempt: the pool's loaded proxies are unchanged,
      the proxies marked bad are those of the hard-blocked attempts, and the identities
      hang together (`Trail`); `identity`, the one the next attempt uses, has no proxy or
      one that was good at the start. */
  ghost predicate Progress(loaded: seq<string>, bad: set<string>, steps: seq<Step>, trail: seq<Identity>,
                           identity: Identity, initial: Identity, loaded0: seq<string>, bad0: set<string>) {
    && loaded == loaded0 && |trail| == |steps| && bad == bad0 + Marked(steps, trail)
    && Trail(steps, trail, identity, initial, loaded0, bad0)
    && ProxyFrom(identity.proxy, loaded0, bad0)
  }

  /** The response of a run is the text of its last attempt's reply exactly when that
      attempt fetched the page. */
  predicate Answered(steps: seq<Step>, response: Option<string>, respond: (Engine, nat) -> Reply) {
    && (response.Some? <==> steps != [] && steps[|steps| - 1].verdict == Fetched)
    && (response.Some? ==> respond(steps[|steps| - 1].engine, steps[|steps| - 1].attempt) == Answer(response.value))
  }

  /** The run ends with its last attempt exactly when that attempt fetched the page or hit
      a CAPTCHA. */
  predicate Ends(steps: seq<Step>) {
    steps != [] && Terminal(steps[|steps| - 1].verdict)
  }

  /** The attempts that follow attempt `attempt` of stage `i` in `Plan`, given its verdict. */
  function PlanAfter(engines: seq<Engine>, i: nat, attempt: nat, v: Verdict, verdictOf: (Engine, nat) -> Verdict): seq<Step> {
    if Terminal(v) then []
    else if v == CloudflareEscalate || attempt + 1 >= MaxRetriesPerEngine then Plan(engines, i + 1, 0, verdictOf)
    else Plan(engines, i, attempt + 1, verdictOf)
  }

  /** One pass of the inner loop of `fetch_url_with_strategy`: attempt `attempt` of the
      engine at place `i`, recorded as the next step of the run; `response` is the text
      of a successful reply. */
  method AttemptStep(active: seq<Engine>, i: nat, attempt: nat, pool: ProxyPool, identity: Identity, stream: bool,
                     respond: (Engine, nat) -> Reply, lastUrl: Option<string>, custom: Option<Headers>,
                     steps: seq<Step>, trail: seq<Identity>,
                     ghost initial: Identity, ghost loaded0: seq<string>, ghost bad0: set<string>)
    returns (step: Step, next: Identity, response: Option<string>)
    requires i < |active| && attempt < MaxRetriesPerEngine
    requires Progress(pool.loaded, pool.bad, steps, trail, identity, initial, loaded0, bad0)
    modifies pool
    ensures Progress(pool.loaded, pool.bad, steps + [step], trail + [identity], next, initial, loaded0, bad0)
    ensures Plan(active, i, attempt, Verdicts(respond, stream)) == [step] + PlanAfter(active, i, attempt, step.verdict, Verdicts(respond, stream))
    ensures step.stage == i && step.engine == active[i] && step.attempt == attempt
    ensures Answered(steps + [step], response, respond)
  {
    var engine := active[i];
    var verdict;
    verdict, next := Attempt(pool, engine, attempt, identity, stream, respond, lastUrl, custom);
    var slept := (verdict == HardBlock || verdict == SoftFailure) && attempt < MaxRetriesPerEngine - 1;
    step := Step(i, engine, attempt, verdict, slept);
    PlanUnfold(active, i, attempt, Verdicts(respond, stream));
    MarkedAppend(steps, trail, step, identity);
    UnionAssoc(bad0, Marked(steps, trail), if verdict == HardBlock then ProxySet(identity.proxy) else {});
    TrailAppend(steps, trail, identity, initial, loaded0, bad0, step, next);
    if verdict == HardBlock {
      ProxyPickFrom(loaded0, bad0, pool.bad, next.proxy);
    }
    response := if verdict == Fetched then Some(respond(engine, attempt).text) else None;
  }

  /** The inner loop of `fetch_url_with_strategy` for the engine at place `i` of the
      active pipeline: up to MAX_RETRIES_PER_ENGINE attempts, appended to `steps0` and
      `trail0`. `done` says the fetch ends here (a response, or a CAPTCHA); otherwise the
      run goes on with the next engine. */
  method RunEngine(active: seq<Engine>, i: nat, pool: ProxyPool, identity0: Identity, stream: bool,
                   respond: (Engine, nat) -> Reply, lastUrl: Option<string>, custom: Option<Headers>,
                   steps0: seq<Step>, trail0: seq<Identity>,
                   ghost initial: Identity, ghost loaded0: seq<string>, ghost bad0: set<string>)
    returns (response: Option<string>, steps: seq<Step>, trail: seq<Identity>, identity: Identity, done: bool)
    requires i < |active|
    requires Progress(pool.loaded, pool.bad, steps0, trail0, identity0, initial, loaded0, bad0)
    requires !Ends(steps0)
    modifies pool
    ensures Progress(pool.loaded, pool.bad, steps, trail, identity, initial, loaded0, bad0)
    ensures steps0 + Plan(active, i, 0, Verdicts(respond, stream)) == steps + (if done then [] else Plan(active, i + 1, 0, Verdicts(respond, stream)))
    ensures done == Ends(steps)
    ensures Answered(steps, response, respond)
  {
    response, steps, trail, identity, done := None, steps0, trail0, identity0, false;
    var attempt, stop := 0, false;
    while attempt < MaxRetriesPerEngine && !stop
      invariant 0 <= attempt <= MaxRetriesPerEngine
      invariant Progress(pool.loaded, pool.bad, steps, trail, identity, initial, loaded0, bad0)
      invariant steps0 + Plan(active, i, 0, Verdicts(respond, stream))
                == steps + (if !stop then Plan(active, i, attempt, Verdicts(respond, stream))
                            else if done then [] else Plan(active, i + 1, 0, Verdicts(respond, stream)))
      invariant done == Ends(steps) && (done ==> stop)
      invariant Answered(steps, response, respond)
      decreases MaxRetriesPerEngine - attempt, if stop then 0 else 1
    {
      var step, next, r := AttemptStep(active, i, attempt, pool, identity, stream, respond, lastUrl, custom,
                                       steps, trail, initial, loaded0, bad0);
      AppendAssoc(steps, [step], PlanAfter(active, i, attempt, step.verdict, Verdicts(respond, stream)));
      steps, trail, identity := steps + [step], trail + [identity], next;
      response := r;
      done := Terminal(step.verdict);
      stop := done || step.verdict == CloudflareEscalate;
      // otherwise time.sleep(exponential_backoff_with_jitter(attempt)) when `step.slept`
      attempt := if stop then attempt else attempt + 1;
    }
  }

  /** The outer loop of `fetch_url_with_strategy`: the engines of the active pipeline in
      turn, until one of them ends the fetch. */
  method RunPipeline(active: seq<Engine>, pool: ProxyPool, identity0: Identity, stream: bool,
                     respond: (Engine, nat) -> Reply, lastUrl: Option<string>, custom: Option<Headers>,
                     ghost loaded0: seq<string>, ghost bad0: set<string>)
    returns (response: Option<string>, steps: seq<Step>, trail: seq<Identity>, identity: Identity)
    requires Progress(pool.loaded, pool.bad, [], [], identity0, identity0, loaded0, bad0)
    modifies pool
    ensures Progress(pool.loaded, pool.bad, steps, trail, identity, identity0, loaded0, bad0)
    ensures steps == Plan(active, 0, 0, Verdicts(respond, stream))
    ensures Answered(steps, response, respond)
  {
    ghost var full := Plan(active, 0, 0, Verdicts(respond, stream));
    response, steps, trail, identity := None, [], [], identity0;
    var i, done := 0, false;
    while i < |active| && !done
      invariant 0 <= i <= |active|
      invariant steps + (if done then [] else Plan(active, i, 0, Verdicts(respond, stream))) == full
      invariant done == Ends(steps)
      invariant Answered(steps, response, respond)
      invariant Progress(pool.loaded, pool.bad, steps, trail, identity, identity0, loaded0, bad0)
      decreases |active| - i, if done then 0 else 1
    {
      response, steps, trail, identity, done :=
        RunEngine(active, i, pool, identity, stream, respond, lastUrl, custom, steps, trail, identity0, loaded0, bad0);
      if !done {
        i := i + 1;
      }
    }
  }

  /** `fetch_url_with_strategy(task, session_pool, last_successful_url)`. `robotsText` is
      what fetching robots.txt gives (None: the fetch failed), `robotsAllows` stands for
      the robots.txt parser, and `respond` gives the reply to each attempt. The method
      returns the response text, the attempts made, the identity each attempt used, and
      the identity built first. */
  method FetchUrl(task: Task, lastUrl: Option<string>, pool: ProxyPool, robots: RobotsCache,
                  robotsText: Option<string>, robotsAllows: (string, string, string) -> bool,
                  respond: (Engine, nat) -> Reply)
    returns (response: Option<string>, steps: seq<Step>, trail: seq<Identity>, initial: Identity)
    modifies pool, robots
    ensures HeadersFor(initial, lastUrl, task.customHeaders) && ProxyPick(old(pool.loaded), old(pool.bad), initial.proxy)
    ensures FetchOutcome(task, lastUrl, old(pool.loaded), old(pool.bad), pool.loaded, pool.bad, old(robots.parsers), robots.parsers,
                         robotsText, robotsAllows, respond, initial, response, steps, trail)
  {
    initial := pool.NewIdentity(lastUrl, task.customHeaders);
    ProxyPickFrom(pool.loaded, pool.bad, pool.bad, initial.proxy);
    response, steps, trail := FetchAs(task, lastUrl, pool, robots, robotsText, robotsAllows, respond, initial);
  }

  /** What a run of `fetch_url_with_strategy` that built `initial` first leaves behind:
      the robots.txt cache after at most one lookup, the attempts of the plan (none when
      robots.txt forbids the URL), the bad proxies they marked, and the identities they
      used. */
  ghost predicate FetchOutcome(task: Task, lastUrl: Option<string>, loaded0: seq<string>, bad0: set<string>,
                               loaded: seq<string>, bad: set<string>,
                               parsers0: map<string, RobotsRules>, parsers: map<string, RobotsRules>,
                               robotsText: Option<string>, robotsAllows: (string, string, string) -> bool,
                               respond: (Engine, nat) -> Reply, initial: Identity,
                               response: Option<string>, steps: seq<Step>, trail: seq<Identity>)
  {
    var lookup := CacheLookup(parsers0, RobotsKey(task.scheme, task.netloc), robotsText);
    && |trail| == |steps|
    && loaded == loaded0
    && bad == bad0 + Marked(steps, trail)
    && parsers == (if task.ignoreRobots then parsers0 else lookup.1)
    && steps == (if !task.ignoreRobots && !Allowed(lookup.0, initial.userAgent, task.url, robotsAllows) then []
                 else Plan(ActivePipeline(StartEngine(task)), 0, 0, Verdicts(respond, IsStream(task))))
    && Answered(steps, response, respond)
    && exists last :: Trail(steps, trail, last, initial, loaded0, bad0)
  }

  /** The part of `fetch_url_with_strategy` after the first identity is built. */
  method FetchAs(task: Task, lastUrl: Option<string>, pool: ProxyPool, robots: RobotsCache,
                 robotsText: Option<string>, robotsAllows: (string, string, string) -> bool,
                 respond: (Engine, nat) -> Reply, initial: Identity)
    returns (response: Option<string>, steps: seq<Step>, trail: seq<Identity>)
    requires ProxyFrom(initial.proxy, pool.loaded, pool.bad)
    modifies pool, robots
    ensures FetchOutcome(task, lastUrl, old(pool.loaded), old(pool.bad), pool.loaded, pool.bad, old(robots.parsers), robots.parsers,
                         robotsText, robotsAllows, respond, initial, response, steps, trail)
  {
    ghost var loaded0, bad0 := pool.loaded, pool.bad;
    assert Progress(pool.loaded, pool.bad, [], [], initial, initial, loaded0, bad0);
    var allowed := true;
    if !task.ignoreRobots {
      allowed := robots.IsUrlAllowed(task.scheme, task.netloc, task.url, initial.userAgent, robotsText, robotsAllows);
    }
    var last := initial;
    if allowed {
      response, steps, trail, last := RunPipeline(ActivePipeline(StartEngine(task)), pool, initial, IsStream(task),
                                                  respond, lastUrl, task.customHeaders, loaded0, bad0);
    } else {
      response, steps, trail := None, [], [];
    }
    assert Trail(steps, trail, last, initial, loaded0, bad0);
  }
}
