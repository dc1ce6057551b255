/** The strategy scorer and the experience store (Gui/strategy_profiler.py).
    Scores are kept multiplied by 10, so that every score is an integer:
    `base * (11 - cost) / 10 + min(count, 10) * 5` becomes
    `base * (11 - cost) + min(count, 10) * 50`, and the threshold 20 becomes 200. */
module StrategyProfiler {

  import opened Text
  import Paths

  datatype Strategy = DirectLinkChecker | GithubApi | YtDlp | HtmlParser | Browser

  /** The name under which the worker logs a strategy and the experience file records it. */
  function Name(s: Strategy): string {
    match s
    case DirectLinkChecker => "direct_link_checker"
    case GithubApi => "github_api"
    case YtDlp => "yt_dlp"
    case HtmlParser => "html_parser"
    case Browser => "browser"
  }

  lemma NameInjective(s: Strategy, t: Strategy)
    ensures Name(s) == Name(t) ==> s == t
  {
  }

  datatype Metadata = Metadata(backend: Option<string>, cost: int)

  /** One entry of STRATEGY_METADATA. */
  function MetadataOf(s: Strategy): Metadata {
    match s
    case DirectLinkChecker => Metadata(Some("sniff_engine_direct_link_checker"), 2)
    case GithubApi => Metadata(Some("sniff_engine_github_api"), 2)
    case YtDlp => Metadata(None, 5)
    case HtmlParser => Metadata(Some("sniff_engine_html_parser"), 3)
    case Browser => Metadata(Some("sniff_engine_browser"), 10)
  }

  /** The keys of STRATEGY_METADATA, in declaration order. */
  const MetadataOrder: seq<Strategy> := [DirectLinkChecker, GithubApi, YtDlp, HtmlParser, Browser]

  /** AVAILABLE_STRATEGIES: name to backend function name, for the strategies that have one. */
  function AvailableFrom(ss: seq<Strategy>): map<string, string> {
    if ss == [] then map[]
    else
      var rest := AvailableFrom(ss[1..]);
      match MetadataOf(ss[0]).backend
      case None => rest
      case Some(b) => rest[Name(ss[0]) := b]
  }

  function AvailableStrategies(): map<string, string> {
    AvailableFrom(MetadataOrder)
  }

  lemma {:induction false} AvailableFromSpec(ss: seq<Strategy>, n: string)
    ensures n in AvailableFrom(ss) <==>
      exists i :: 0 <= i < |ss| && Name(ss[i]) == n && MetadataOf(ss[i]).backend.Some?
  {
    if ss != [] {
      AvailableFromSpec(ss[1..], n);
      if n in AvailableFrom(ss[1..]) {
        var i :| 0 <= i < |ss[1..]| && Name(ss[1..][i]) == n && MetadataOf(ss[1..][i]).backend.Some?;
        assert Name(ss[i + 1]) == n;
      }
    }
  }

  /** A strategy is available exactly when its metadata names a backend, so yt_dlp
      (handled by the worker itself) is absent and the other four are present. */
  lemma AvailableStrategiesExactly(s: Strategy)
    ensures Name(s) in AvailableStrategies() <==> MetadataOf(s).backend.Some?
    ensures Name(s) in AvailableStrategies() ==> AvailableStrategies()[Name(s)] == MetadataOf(s).backend.value
    ensures "yt_dlp" !in AvailableStrategies()
    ensures AvailableStrategies().Keys == {"direct_link_checker", "github_api", "html_parser", "browser"}
  {
  }

  // ---------------------------------------------------------------------------
  // Experience store

  /** domain (without a leading "www.") -> strategy name -> number of successes */
  type Experience = map<string, map<string, nat>>

  function Count(exp: Experience, domain: string, name: string): nat {
    if domain in exp && name in exp[domain] then exp[domain][name] else 0
  }

  /** `re.sub(r"^www\.", "", domain)`: removes one leading "www.". */
  function StripWww(domain: string): (r: string)
    ensures "www." <= domain ==> domain == "www." + r
    ensures !("www." <= domain) ==> r == domain
  {
    if "www." <= domain then domain[4..] else domain
  }

  /** The experience data after `update_experience_data(domain, name)`. */
  function RecordSuccess(exp: Experience, domain: string, name: string): (r: Experience)
    ensures Count(r, StripWww(domain), name) == Count(exp, StripWww(domain), name) + 1
    ensures forall d, n :: (d != StripWww(domain) || n != name) ==> Count(r, d, n) == Count(exp, d, n)
    ensures r.Keys == exp.Keys + {StripWww(domain)}
    ensures StripWww(domain) in r && r[StripWww(domain)].Keys == (if StripWww(domain) in exp then exp[StripWww(domain)].Keys else {}) + {name}
  {
    var d := StripWww(domain);
    var inner := if d in exp then exp[d] else map[];
    exp[d := inner[name := Count(exp, d, name) + 1]]
  }

  /** The module-level `experience_data` dict and its file. `saved` is the content of the
      experience file, rewritten in full after every update when `writable` says the file
      can be opened for writing; otherwise `save_experience_data` logs the IOError and the
      file keeps its content. */
  class ExperienceStore {
    var data: Experience
    ghost var saved: Experience
    const writable: bool

    /** `load_experience_data`: `file` is the decoded file, or None when the file is
        missing or cannot be decoded; both give an empty store. */
    constructor (file: Option<Experience>, writable: bool)
      ensures data == (if file.Some? then file.value else map[])
      ensures saved == (if file.Some? then file.value else map[])
      ensures this.writable == writable
    {
      data := if file.Some? then file.value else map[];
      saved := if file.Some? then file.value else map[];
      this.writable := writable;
    }

    /** `update_experience_data`; it also saves the whole store, or leaves the file as it
        was when it cannot be written. */
    method Update(domain: string, name: string)
      modifies this
      ensures data == RecordSuccess(old(data), domain, name)
      ensures saved == if writable then data else old(saved)
    {
      data := RecordSuccess(data, domain, name);
      if writable {
        saved := data;
      }
    }
  }

  // ---------------------------------------------------------------------------
  // Rule table

  /** The two parts of `urlparse(url)` the scorer reads. */
  datatype UrlInfo = UrlInfo(netloc: string, path: string)

  const KnownExts: seq<string> :=
    [".mp4", ".mkv", ".zip", ".rar", ".exe", ".msi", ".pdf", ".mp3", ".iso", ".dmg", ".pkg"]

  /** Python `s.endswith(tuple)`. */
  predicate EndsWithAny(s: string, suffixes: seq<string>) {
    exists i :: 0 <= i < |suffixes| && EndsWith(s, suffixes[i])
  }

  predicate IsGithubReleases(domain: string, path: string) {
    Contains(domain, "github.com") && Contains(path, "/releases")
  }

  predicate IsKnownFile(path: string) {
    EndsWithAny(Lower(path), KnownExts)
  }

  predicate IsVideoPage(domain: string, path: string) {
    (Contains(domain, "youtube.com") && (Contains(path, "/watch") || Contains(path, "/shorts/")))
    || (Contains(domain, "bilibili.com") && Contains(path, "/video/"))
  }

  /** The fixed rules, tried in order; None when no rule fires. */
  function RuleQueue(domain: string, path: string): Option<seq<Strategy>> {
    if IsGithubReleases(domain, path) then Some([GithubApi, Browser, HtmlParser])
    else if IsKnownFile(path) then Some([DirectLinkChecker, YtDlp])
    else if IsVideoPage(domain, path) then Some([YtDlp])
    else None
  }

  // ---------------------------------------------------------------------------
  // Scoring

  /** The keys of the `scores` dict, in the order `sorted` receives them. */
  const ScoringOrder: seq<Strategy> := [YtDlp, Browser, HtmlParser, DirectLinkChecker, GithubApi]

  function Rank(s: Strategy): nat {
    match s
    case YtDlp => 0
    case Browser => 1
    case HtmlParser => 2
    case DirectLinkChecker => 3
    case GithubApi => 4
  }

  predicate IsMediaSite(domain: string) {
    Contains(domain, "vimeo.com") || Contains(domain, "douyin.com") || Contains(domain, "ixigua.com")
  }

  function BaseScore(s: Strategy, domain: string, path: string): nat {
    match s
    case YtDlp => if IsMediaSite(domain) then 70 else 40
    case Browser => if Paths.SplitExt(path) == [] then 50 else 20
    case HtmlParser => 30
    case DirectLinkChecker => 25
    case GithubApi => 10
  }

  /** `min(count, 10) * 5`, times 10. */
  function ExperienceBonus(count: nat): (b: nat)
    ensures 0 <= b <= 500
    ensures b == 50 * count || (count >= 10 && b == 500)
  {
    if count < 10 then 50 * count else 500
  }

  /** `base_score * cost_penalty + experience_weight`, times 10. */
  function Score(s: Strategy, domain: string, path: string, exp: Experience): int {
    BaseScore(s, domain, path) * (11 - MetadataOf(s).cost) + ExperienceBonus(Count(exp, domain, Name(s)))
  }

  /** The score is the cost-weighted base score plus a bonus of at most 500 (50 unscaled). */
  lemma ScoreBounds(s: Strategy, domain: string, path: string, exp: Experience)
    ensures var weighted := BaseScore(s, domain, path) * (11 - MetadataOf(s).cost);
      weighted <= Score(s, domain, path, exp) <= weighted + 500
  {
  }

  datatype Scored = Scored(strategy: Strategy, score: int)

  function ScoreEach(ss: seq<Strategy>, domain: string, path: string, exp: Experience): (r: seq<Scored>)
    ensures |r| == |ss|
    ensures forall i :: 0 <= i < |ss| ==> r[i] == Scored(ss[i], Score(ss[i], domain, path, exp))
  {
    if ss == [] then [] else [Scored(ss[0], Score(ss[0], domain, path, exp))] + ScoreEach(ss[1..], domain, path, exp)
  }

  /** Places `x` after every element scoring at least as much: a stable descending insertion. */
  function Insert(x: Scored, xs: seq<Scored>): seq<Scored> {
    if xs == [] then [x]
    else if xs[0].score >= x.score then [xs[0]] + Insert(x, xs[1..])
    else [x] + xs
  }

  /** `sorted(..., key=score, reverse=True)`: stable, highest score first. */
  function SortDesc(xs: seq<Scored>): seq<Scored> {
    if xs == [] then [] else Insert(xs[|xs| - 1], SortDesc(xs[..|xs| - 1]))
  }

  /** The entries scoring above 20 (200 scaled), in order. */
  function KeepAbove(xs: seq<Scored>): seq<Scored> {
    if xs == [] then []
    else if xs[0].score > 200 then [xs[0]] + KeepAbove(xs[1..])
    else KeepAbove(xs[1..])
  }

  function Strategies(xs: seq<Scored>): (r: seq<Strategy>)
    ensures |r| == |xs| && forall i :: 0 <= i < |xs| ==> r[i] == xs[i].strategy
  {
    seq(|xs|, i requires 0 <= i < |xs| => xs[i].strategy)
  }

  /** `select_best_strategy(url)`; `url` is the result of `urlparse`, None when it raised. */
  function SelectBestStrategy(url: Option<UrlInfo>, exp: Experience): seq<Strategy> {
    match url
    case None => []
    case Some(info) =>
      var domain := StripWww(info.netloc);
      match RuleQueue(domain, info.path)
      case Some(q) => q
      case None => Strategies(KeepAbove(SortDesc(ScoreEach(ScoringOrder, domain, info.path, exp))))
  }

  /** `select_best_strategy` as the source runs it: the `final_scores` loop scores one
      strategy at a time, then the list is sorted and cut at the threshold. */
  method SelectBest(url: Option<UrlInfo>, exp: Experience) returns (queue: seq<Strategy>)
    ensures queue == SelectBestStrategy(url, exp)
  {
    if url.None? {
      return [];
    }
    var domain := StripWww(url.value.netloc);
    var path := url.value.path;
    var rule := RuleQueue(domain, path);
    if rule.Some? {
      return rule.value;
    }
    var finalScores := ScoreAll(domain, path, exp);
    queue := Strategies(KeepAbove(SortDesc(finalScores)));
  }

  /** The `final_scores` loop: each strategy in dict order with its score. */
  method ScoreAll(domain: string, path: string, exp: Experience) returns (finalScores: seq<Scored>)
    ensures finalScores == ScoreEach(ScoringOrder, domain, path, exp)
  {
    finalScores := [];
    var i := 0;
    while i < |ScoringOrder|
      invariant 0 <= i <= |ScoringOrder|
      invariant |finalScores| == i
      invariant forall k :: 0 <= k < i ==>
        finalScores[k] == Scored(ScoringOrder[k], Score(ScoringOrder[k], domain, path, exp))
    {
      var strategy := ScoringOrder[i];
      var weight := 0;
      if domain in exp && Name(strategy) in exp[domain] {
        weight := ExperienceBonus(exp[domain][Name(strategy)]);
      }
      var cost := MetadataOf(strategy).cost;
      var score := BaseScore(strategy, domain, path) * (11 - cost) + weight;
      assert weight == ExperienceBonus(Count(exp, domain, Name(strategy)));
      assert score == Score(strategy, domain, path, exp);
      finalScores := finalScores + [Scored(strategy, score)];
      i := i + 1;
    }
  }

  // ---------------------------------------------------------------------------
  // Properties of the scorer

  /** A GitHub releases URL gets the fixed queue whatever the experience data holds. */
  lemma GithubReleasesRule(netloc: string, path: string, exp: Experience)
    requires IsGithubReleases(StripWww(netloc), path)
    ensures SelectBestStrategy(Some(UrlInfo(netloc, path)), exp) == [GithubApi, Browser, HtmlParser]
  {
  }

  /** A path ending in a listed file extension (any letter case) gets the direct-link queue,
      unless the releases rule fired first. */
  lemma KnownFileRule(netloc: string, path: string, ext: string, exp: Experience)
    requires !IsGithubReleases(StripWww(netloc), path)
    requires ext in KnownExts && EndsWith(Lower(path), ext)
    ensures SelectBestStrategy(Some(UrlInfo(netloc, path)), exp) == [DirectLinkChecker, YtDlp]
  {
  }

  /** YouTube watch/shorts pages and bilibili video pages go to yt-dlp alone, when no
      earlier rule fired. */
  lemma VideoPageRule(netloc: string, path: string, exp: Experience)
    requires !IsGithubReleases(StripWww(netloc), path) && !IsKnownFile(path)
    requires IsVideoPage(StripWww(netloc), path)
    ensures SelectBestStrategy(Some(UrlInfo(netloc, path)), exp) == [YtDlp]
  {
  }

  /** `a` comes before `b` in the sorted list: a higher score, or an equal score and an
      earlier place in the `scores` dict. */
  predicate Precedes(a: Scored, b: Scored) {
    a.score > b.score || (a.score == b.score && Rank(a.strategy) < Rank(b.strategy))
  }

  ghost predicate Ordered(xs: seq<Scored>) {
    forall i, j :: 0 <= i < j < |xs| ==> Precedes(xs[i], xs[j])
  }

  lemma OrderedCons(h: Scored, t: seq<Scored>)
    requires Ordered(t)
    requires forall y :: y in t ==> Precedes(h, y)
    ensures Ordered([h] + t)
  {
    var out := [h] + t;
    forall i, j | 0 <= i < j < |out| ensures Precedes(out[i], out[j]) {
      assert out[j] == t[j - 1];
      if i > 0 { assert out[i] == t[i - 1]; }
    }
  }

  lemma {:induction false} InsertMultiset(x: Scored, xs: seq<Scored>)
    ensures multiset(Insert(x, xs)) == multiset(xs) + multiset{x}
  {
    if xs != [] && xs[0].score >= x.score {
      InsertMultiset(x, xs[1..]);
      assert xs == [xs[0]] + xs[1..];
    }
  }

  lemma {:induction false} InsertOrdered(x: Scored, xs: seq<Scored>)
    requires Ordered(xs)
    requires forall y :: y in xs ==> Rank(y.strategy) < Rank(x.strategy)
    ensures Ordered(Insert(x, xs))
  {
    if xs == [] {
    } else if xs[0].score >= x.score {
      InsertOrdered(x, xs[1..]);
      InsertMultiset(x, xs[1..]);
      forall y | y in Insert(x, xs[1..]) ensures Precedes(xs[0], y) {
        assert y in multiset(Insert(x, xs[1..]));
        if y != x {
          var k :| 0 <= k < |xs[1..]| && xs[1..][k] == y;
          assert xs[k + 1] == y;
        }
      }
      OrderedCons(xs[0], Insert(x, xs[1..]));
    } else {
      forall y | y in xs ensures Precedes(x, y) {
        var k :| 0 <= k < |xs| && xs[k] == y;
        if k > 0 { assert Precedes(xs[0], xs[k]); }
      }
      OrderedCons(x, xs);
    }
  }

  lemma {:induction false} SortDescKeeps(xs: seq<Scored>)
    requires forall i, j :: 0 <= i < j < |xs| ==> Rank(xs[i].strategy) < Rank(xs[j].strategy)
    ensures Ordered(SortDesc(xs))
    ensures multiset(SortDesc(xs)) == multiset(xs)
  {
    if xs != [] {
      var init, last := xs[..|xs| - 1], xs[|xs| - 1];
      SortDescKeeps(init);
      forall y | y in SortDesc(init) ensures Rank(y.strategy) < Rank(last.strategy) {
        assert y in multiset(init);
        var k :| 0 <= k < |init| && init[k] == y;
      }
      InsertOrdered(last, SortDesc(init));
      InsertMultiset(last, SortDesc(init));
      assert xs == init + [last];
    }
  }

  lemma {:induction false} KeepAboveKeeps(xs: seq<Scored>)
    requires Ordered(xs)
    ensures Ordered(KeepAbove(xs))
    ensures forall y :: y in KeepAbove(xs) <==> y in xs && y.score > 200
  {
    if xs != [] {
      KeepAboveKeeps(xs[1..]);
      assert xs == [xs[0]] + xs[1..];
      if xs[0].score > 200 {
        forall y | y in KeepAbove(xs[1..]) ensures Precedes(xs[0], y) {
          var k :| 0 <= k < |xs[1..]| && xs[1..][k] == y;
          assert xs[k + 1] == y;
        }
        OrderedCons(xs[0], KeepAbove(xs[1..]));
      }
    }
  }

  lemma RankIndexes(s: Strategy)
    ensures ScoringOrder[Rank(s)] == s
  {
  }

  /** The list handed to `sorted` comes out ordered, with the same entries. */
  lemma SortedScores(domain: string, path: string, exp: Experience)
    ensures var scored := ScoreEach(ScoringOrder, domain, path, exp);
      Ordered(SortDesc(scored)) && multiset(SortDesc(scored)) == multiset(scored)
  {
    var scored := ScoreEach(ScoringOrder, domain, path, exp);
    assert forall i, j :: 0 <= i < j < |scored| ==> Rank(scored[i].strategy) < Rank(scored[j].strategy);
    SortDescKeeps(scored);
  }

  /** When no rule fires, the queue holds exactly the strategies scoring above 20
      (200 scaled), each once, highest score first, ties in the order yt_dlp, browser,
      html_parser, direct_link_checker, github_api. */
  lemma ScoredQueue(netloc: string, path: string, exp: Experience)
    requires RuleQueue(StripWww(netloc), path).None?
    ensures var q := SelectBestStrategy(Some(UrlInfo(netloc, path)), exp);
      var domain := StripWww(netloc);
      && (forall s :: s in q <==> Score(s, domain, path, exp) > 200)
      && (forall i, j :: 0 <= i < j < |q| ==>
            Precedes(Scored(q[i], Score(q[i], domain, path, exp)), Scored(q[j], Score(q[j], domain, path, exp))))
  {
    var domain := StripWww(netloc);
    var scored := ScoreEach(ScoringOrder, domain, path, exp);
    var sorted := SortDesc(scored);
    SortedScores(domain, path, exp);
    var kept := KeepAbove(sorted);
    KeepAboveKeeps(sorted);
    var q := Strategies(kept);
    assert q == SelectBestStrategy(Some(UrlInfo(netloc, path)), exp);
    forall i | 0 <= i < |kept| ensures kept[i] == Scored(q[i], Score(q[i], domain, path, exp)) {
      assert kept[i] in multiset(scored);
    }
    forall s ensures s in q <==> Score(s, domain, path, exp) > 200 {
      var y := Scored(s, Score(s, domain, path, exp));
      RankIndexes(s);
      assert scored[Rank(s)] == y;
      assert y in multiset(sorted);
      if s in q {
        var i :| 0 <= i < |q| && q[i] == s;
        assert kept[i] in kept;
      }
      if Score(s, domain, path, exp) > 200 {
        assert y in kept;
        var i :| 0 <= i < |kept| && kept[i] == y;
        assert q[i] == s;
      }
    }
  }

  /** Every strategy the scorer returns scores strictly above the threshold. */
  lemma ReturnedAboveThreshold(netloc: string, path: string, exp: Experience, s: Strategy)
    requires RuleQueue(StripWww(netloc), path).None?
    requires s in SelectBestStrategy(Some(UrlInfo(netloc, path)), exp)
    ensures Score(s, StripWww(netloc), path, exp) > 200
  {
    ScoredQueue(netloc, path, exp);
  }

  /** Recording one more success of `s` for a domain (below the cap of 10) raises the score
      of `s` by exactly 50 (5 unscaled) and no other score; at the cap nothing changes. */
  lemma RecordSuccessRaisesOnlyOwnScore(netloc: string, path: string, exp: Experience, s: Strategy, t: Strategy)
    ensures var domain := StripWww(netloc);
      var exp' := RecordSuccess(exp, netloc, Name(s));
      && (t != s ==> Score(t, domain, path, exp') == Score(t, domain, path, exp))
      && (Count(exp, domain, Name(s)) < 10 ==> Score(s, domain, path, exp') == Score(s, domain, path, exp) + 50)
      && (Count(exp, domain, Name(s)) >= 10 ==> Score(s, domain, path, exp') == Score(s, domain, path, exp))
  {
    NameInjective(s, t);
  }

  lemma NotContainedByFirstChar(s: string, t: string)
    requires t != [] && t[0] !in s
    ensures !Contains(s, t)
  {
    ContainsIff(s, t);
  }

  /** `sorted` and the threshold on the five scores of a plain page with no experience. */
  lemma PlainPageSort()
    ensures var y, b, h, d, g := Scored(YtDlp, 240), Scored(Browser, 50), Scored(HtmlParser, 240),
                                 Scored(DirectLinkChecker, 225), Scored(GithubApi, 90);
      SortDesc([y, b, h, d, g]) == [y, h, d, g, b]
  {
    var y, b, h, d, g := Scored(YtDlp, 240), Scored(Browser, 50), Scored(HtmlParser, 240),
                         Scored(DirectLinkChecker, 225), Scored(GithubApi, 90);
    assert SortDesc([y]) == [y];
    assert SortDesc([y, b]) == Insert(b, [y]) == [y, b];
    assert [y, b][1..] == [b] && Insert(h, [b]) == [h, b];
    assert [y, b, h][..2] == [y, b] && [y, b, h][2] == h;
    assert Insert(h, [y, b]) == [y, h, b];
    assert SortDesc([y, b, h]) == [y, h, b];
    assert [y, h, b][1..] == [h, b] && [h, b][1..] == [b] && Insert(d, [b]) == [d, b];
    assert Insert(d, [h, b]) == [h, d, b];
    assert [y, b, h, d][..3] == [y, b, h] && [y, b, h, d][3] == d;
    assert Insert(d, [y, h, b]) == [y, h, d, b];
    assert SortDesc([y, b, h, d]) == [y, h, d, b];
    assert [y, h, d, b][1..] == [h, d, b] && [h, d, b][1..] == [d, b] && [d, b][1..] == [b];
    assert Insert(g, [b]) == [g, b] && Insert(g, [d, b]) == [d, g, b] && Insert(g, [h, d, b]) == [h, d, g, b];
    assert [y, b, h, d, g][..4] == [y, b, h, d];
  }

  lemma PlainPageKeep()
    ensures var y, b, h, d, g := Scored(YtDlp, 240), Scored(Browser, 50), Scored(HtmlParser, 240),
                                 Scored(DirectLinkChecker, 225), Scored(GithubApi, 90);
      KeepAbove([y, h, d, g, b]) == [y, h, d]
  {
    var y, b, h, d, g := Scored(YtDlp, 240), Scored(Browser, 50), Scored(HtmlParser, 240),
                         Scored(DirectLinkChecker, 225), Scored(GithubApi, 90);
    assert [b][1..] == [] && KeepAbove([b]) == [];
    assert [g, b][1..] == [b] && KeepAbove([g, b]) == [];
    assert [d, g, b][1..] == [g, b] && KeepAbove([d, g, b]) == [d];
    assert [h, d, g, b][1..] == [d, g, b] && KeepAbove([h, d, g, b]) == [h, d];
    assert [y, h, d, g, b][1..] == [h, d, g, b];
  }

  lemma PlainPageScores(domain: string, path: string)
    requires !IsMediaSite(domain) && Paths.SplitExt(path) == []
    ensures ScoreEach(ScoringOrder, domain, path, map[]) ==
      [Scored(YtDlp, 240), Scored(Browser, 50), Scored(HtmlParser, 240), Scored(DirectLinkChecker, 225), Scored(GithubApi, 90)]
  {
    var exp: Experience := map[];
    assert Score(YtDlp, domain, path, exp) == 240;
    assert Score(Browser, domain, path, exp) == 50;
  }

  /** With no experience, a page on a domain that is not a media site, whose path has no
      extension and fires no rule, gets yt_dlp (24), html_parser (24) and
      direct_link_checker (22.5); browser (5) and github_api (9) are dropped. */
  lemma PlainPageQueue(netloc: string, path: string)
    requires RuleQueue(StripWww(netloc), path).None?
    requires !IsMediaSite(StripWww(netloc)) && Paths.SplitExt(path) == []
    ensures SelectBestStrategy(Some(UrlInfo(netloc, path)), map[]) == [YtDlp, HtmlParser, DirectLinkChecker]
  {
    PlainPageScores(StripWww(netloc), path);
    PlainPageSort();
    PlainPageKeep();
  }

  lemma PageIsNotKnownFile()
    ensures !IsKnownFile("/page")
  {
    var low := Lower("/page");
    assert low[1] == 'p';
    forall i | 0 <= i < |KnownExts| ensures !EndsWith(low, KnownExts[i]) {
      assert KnownExts[i][0] == '.';
    }
  }

  /** `example.com` names none of the domains the rules and the scorer look for. */
  lemma ExampleComDomain()
    ensures !Contains("example.com", "github.com") && !Contains("example.com", "youtube.com")
    ensures !Contains("example.com", "bilibili.com") && !IsMediaSite("example.com")
    ensures StripWww("example.com") == "example.com"
  {
    var domain: string := "example.com";
    assert domain[0] == 'e';
    assert !("www." <= domain);
    NotContainedByFirstChar(domain, "github.com");
    NotContainedByFirstChar(domain, "youtube.com");
    NotContainedByFirstChar(domain, "bilibili.com");
    NotContainedByFirstChar(domain, "vimeo.com");
    NotContainedByFirstChar(domain, "douyin.com");
    NotContainedByFirstChar(domain, "ixigua.com");
  }

  /** No rule fires for `example.com/page`, which is no media site and has no extension. */
  lemma ExampleComPlain()
    ensures RuleQueue("example.com", "/page").None?
    ensures !IsMediaSite("example.com") && Paths.SplitExt("/page") == []
    ensures StripWww("example.com") == "example.com"
  {
    ExampleComDomain();
    PageIsNotKnownFile();
  }

  /** The worked example: `https://example.com/page` with no experience data. */
  lemma ExampleComPage()
    ensures SelectBestStrategy(Some(UrlInfo("example.com", "/page")), map[]) == [YtDlp, HtmlParser, DirectLinkChecker]
  {
    ExampleComPlain();
    PlainPageQueue("example.com", "/page");
  }
}
