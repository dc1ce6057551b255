/** The scraping back end (`Gui/backend_scraper.py`): resource categories, the link
    filter run after HTML parsing, the GitHub release engine, the yt-dlp download command
    and the progress accounting of direct downloads. HTML parsing, `urljoin`/`urlparse`,
    the network and the file system are parameters. */
module BackendScraper {

  import opened Text
  import Paths

  // ---------------------------------------------------------------------------
  // RESOURCE_CATEGORIES

  /** The keys of RESOURCE_CATEGORIES, in dict order. */
  datatype Category = Video | Audio | Image | Archive | Installer | Document

  function Label(c: Category): string {
    match c
    case Video => "视频"
    case Audio => "音频"
    case Image => "图片"
    case Archive => "压缩包"
    case Installer => "可执行/安装包"
    case Document => "文档"
  }

  /** The category of a GitHub asset whose extension is in no category. */
  const OtherLabel: string := "其他"

  function Extensions(c: Category): seq<string> {
    match c
    case Video => [".mp4", ".mkv", ".avi", ".mov", ".flv", ".webm", ".ts", ".m3u8"]
    case Audio => [".mp3", ".m4a", ".wav", ".aac", ".flac", ".ogg"]
    case Image => [".jpg", ".jpeg", ".png", ".gif", ".bmp", ".webp", ".svg"]
    case Archive => [".zip", ".rar", ".7z", ".tar", ".gz", ".iso"]
    case Installer => [".exe", ".msi", ".dmg", ".pkg", ".deb", ".rpm"]
    case Document => [".pdf", ".doc", ".docx", ".xls", ".xlsx", ".ppt", ".pptx", ".txt", ".md"]
  }

  /** `for category, extensions in RESOURCE_CATEGORIES.items(): if ext in extensions: ... break`:
      the first category, in dict order, listing `ext`. */
  function FindCategory(ext: string): (r: Option<Category>)
    ensures r.Some? ==> ext in Extensions(r.value) && |ext| >= 3
    ensures r.None? <==> forall c :: ext !in Extensions(c)
  {
    if ext in Extensions(Video) then Some(Video)
    else if ext in Extensions(Audio) then Some(Audio)
    else if ext in Extensions(Image) then Some(Image)
    else if ext in Extensions(Archive) then Some(Archive)
    else if ext in Extensions(Installer) then Some(Installer)
    else if ext in Extensions(Document) then Some(Document)
    else None
  }

  /** No extension is listed under two categories. */
  lemma CategoriesDisjoint(c: Category, d: Category, ext: string)
    requires ext in Extensions(c) && ext in Extensions(d)
    ensures c == d
  {
    match c
    case Video => OnlyVideo(ext);
    case Audio => OnlyAudio(ext);
    case Image => OnlyImage(ext);
    case Archive => OnlyArchive(ext);
    case Installer => OnlyInstaller(ext);
    case Document => OnlyDocument(ext);
  }

  lemma OnlyVideo(ext: string)
    requires ext in Extensions(Video)
    ensures forall d :: d != Video ==> ext !in Extensions(d)
  {
  }

  lemma OnlyAudio(ext: string)
    requires ext in Extensions(Audio)
    ensures forall d :: d != Audio ==> ext !in Extensions(d)
  {
  }

  lemma OnlyImage(ext: string)
    requires ext in Extensions(Image)
    ensures forall d :: d != Image ==> ext !in Extensions(d)
  {
  }

  lemma OnlyArchive(ext: string)
    requires ext in Extensions(Archive)
    ensures forall d :: d != Archive ==> ext !in Extensions(d)
  {
  }

  lemma OnlyInstaller(ext: string)
    requires ext in Extensions(Installer)
    ensures forall d :: d != Installer ==> ext !in Extensions(d)
  {
  }

  lemma OnlyDocument(ext: string)
    requires ext in Extensions(Document)
    ensures forall d :: d != Document ==> ext !in Extensions(d)
  {
    DocumentNotMedia(ext);
    DocumentNotPackage(ext);
  }

  lemma DocumentNotMedia(ext: string)
    requires ext in Extensions(Document)
    ensures ext !in Extensions(Video) && ext !in Extensions(Audio) && ext !in Extensions(Image)
  {
  }

  lemma DocumentNotPackage(ext: string)
    requires ext in Extensions(Document)
    ensures ext !in Extensions(Archive) && ext !in Extensions(Installer)
  {
  }

  /** The category found for an extension is the only one listing it. */
  lemma FindCategoryIff(ext: string, c: Category)
    ensures FindCategory(ext) == Some(c) <==> ext in Extensions(c)
  {
    if ext in Extensions(c) {
      CategoriesDisjoint(FindCategory(ext).value, c, ext);
    }
  }

  /** `any(ext in exts for exts in RESOURCE_CATEGORIES.values())` */
  predicate IsKnownExt(ext: string) {
    FindCategory(ext).Some?
  }

  // ---------------------------------------------------------------------------
  // get_executable_path

  /** What `get_executable_path` looks at: the PyInstaller bundle directory
      (`sys._MEIPASS`), `sys.argv[0]` (None when argv is empty) and `os.path.exists`. */
  datatype Environment = Environment(bundleDir: Option<string>, argv0: Option<string>, fileExists: string -> bool)

  /** `os.path.join(os.path.dirname(argv0), filename)` */
  function Beside(argv0: string, filename: string): string {
    Paths.Join(Paths.Dirname(argv0), filename)
  }

  /** `get_executable_path(filename)` */
  function GetExecutablePath(filename: string, env: Environment): (path: string)
    ensures env.bundleDir.Some? ==> path == Paths.Join(env.bundleDir.value, filename)
    ensures env.bundleDir.None? && env.argv0.Some? && env.fileExists(Beside(env.argv0.value, filename)) ==>
              path == Beside(env.argv0.value, filename)
    ensures env.bundleDir.None? && (env.argv0.None? || !env.fileExists(Beside(env.argv0.value, filename))) ==>
              path == filename
  {
    if env.bundleDir.Some? then Paths.Join(env.bundleDir.value, filename)
    else if env.argv0.Some? && env.fileExists(Paths.Join(Paths.Dirname(env.argv0.value), filename)) then
      Paths.Join(Paths.Dirname(env.argv0.value), filename)
    else filename
  }

  /** Outside a bundle the executable is looked up beside the program first; a relative
      file name keeps its own name at the end of the path. */
  lemma ExecutablePathEndsWithName(filename: string, env: Environment)
    requires filename == [] || filename[0] != '/'
    ensures EndsWith(GetExecutablePath(filename, env), filename)
  {
    if GetExecutablePath(filename, env) == filename {
      assert filename[|filename| - |filename|..] == filename;
    }
  }

  // ---------------------------------------------------------------------------
  // extract_links_from_html, after parsing

  /** An `<a href=...>` tag: its href and whether it carries `data-skip-pjax`. */
  datatype Anchor = Anchor(href: string, skipPjax: bool)

  /** One entry of `verified_links`. */
  datatype Link = Link(url: string, filename: string, category: string, ext: string)

  /** `s.startswith(('javascript:', '#', 'data:'))` */
  predicate IsScriptOrFragment(s: string) {
    "javascript:" <= s || "#" <= s || "data:" <= s
  }

  /** The test of the first loop: a non-empty href that is no script, fragment or data
      URL, on a GitHub asset link or with a known extension (`pathOf` is `urlparse(..).path`). */
  predicate AnchorKept(a: Anchor, pathOf: string -> string) {
    a.href != [] && !IsScriptOrFragment(a.href) && (a.skipPjax || IsKnownExt(Lower(Paths.SplitExt(pathOf(a.href)))))
  }

  /** The test of the second loop, on the `src` of an img, video, audio or source tag. */
  predicate SrcKept(src: string) {
    src != [] && !IsScriptOrFragment(src)
  }

  /** `found_urls` after both loops (`join` is `urljoin`). */
  function FoundUrls(base: string, anchors: seq<Anchor>, srcs: seq<string>,
                     join: (string, string) -> string, pathOf: string -> string): set<string> {
    AnchorUrls(base, anchors, |anchors|, join, pathOf) + SrcUrls(base, srcs, |srcs|, join)
  }

  function AnchorUrls(base: string, anchors: seq<Anchor>, k: nat, join: (string, string) -> string,
                      pathOf: string -> string): set<string>
    requires k <= |anchors|
  {
    set j | 0 <= j < k && AnchorKept(anchors[j], pathOf) :: join(base, anchors[j].href)
  }

  function SrcUrls(base: string, srcs: seq<string>, k: nat, join: (string, string) -> string): set<string>
    requires k <= |srcs|
  {
    set j | 0 <= j < k && SrcKept(srcs[j]) :: join(base, srcs[j])
  }

  /** The entry the last loop makes for a found URL, if its path has an extension that
      some category lists. */
  function LinkFor(url: string, pathOf: string -> string): Option<Link> {
    var path := pathOf(url);
    var ext := Paths.SplitExt(path);
    if ext == [] then None
    else
      match FindCategory(Lower(ext))
      case None => None
      case Some(c) =>
        var name := Paths.Basename(path);
        Some(Link(url, if name == [] then "unknown" else name, Label(c), Lower(ext)))
  }

  /** A URL gets a link exactly when the lower-cased extension of its path is a known one. */
  lemma LinkForIff(url: string, pathOf: string -> string)
    ensures LinkFor(url, pathOf).Some? <==> IsKnownExt(Lower(Paths.SplitExt(pathOf(url))))
  {
  }

  /** A link made for a URL: its extension is the lower-cased extension of the URL path and
      its category the one category listing it; its file name is the basename of the path,
      or "unknown" for a path ending in '/'. */
  lemma LinkForMeaning(url: string, pathOf: string -> string)
    requires LinkFor(url, pathOf).Some?
    ensures var l := LinkFor(url, pathOf).value;
      var path := pathOf(url);
      && l.url == url
      && l.ext == Lower(Paths.SplitExt(path)) && EndsWith(Lower(path), l.ext)
      && (exists c :: l.category == Label(c) && l.ext in Extensions(c))
      && (l.filename == Paths.Basename(path) || (Paths.Basename(path) == [] && l.filename == "unknown"))
  {
    var path := pathOf(url);
    var ext := Paths.SplitExt(path);
    LowerEndsWith(path, ext);
    var l := LinkFor(url, pathOf).value;
    var c := FindCategory(Lower(ext)).value;
    assert l.category == Label(c) && l.ext in Extensions(c);
  }

  lemma AnchorUrlsStep(base: string, anchors: seq<Anchor>, k: nat, join: (string, string) -> string,
                       pathOf: string -> string)
    requires k < |anchors|
    ensures AnchorUrls(base, anchors, k + 1, join, pathOf)
         == AnchorUrls(base, anchors, k, join, pathOf)
            + (if AnchorKept(anchors[k], pathOf) then {join(base, anchors[k].href)} else {})
  {
  }

  lemma SrcUrlsStep(base: string, srcs: seq<string>, k: nat, join: (string, string) -> string)
    requires k < |srcs|
    ensures SrcUrls(base, srcs, k + 1, join)
         == SrcUrls(base, srcs, k, join) + (if SrcKept(srcs[k]) then {join(base, srcs[k])} else {})
  {
  }

  /** The first two loops of `extract_links_from_html`: the set `found_urls`. */
  method CollectFoundUrls(base: string, anchors: seq<Anchor>, srcs: seq<string>,
                          join: (string, string) -> string, pathOf: string -> string)
    returns (found: set<string>)
    ensures found == FoundUrls(base, anchors, srcs, join, pathOf)
  {
    found := {};
    var k := 0;
    while k < |anchors|
      invariant k <= |anchors| && found == AnchorUrls(base, anchors, k, join, pathOf)
    {
      var a := anchors[k];
      if AnchorKept(a, pathOf) {
        found := found + {join(base, a.href)};
      }
      AnchorUrlsStep(base, anchors, k, join, pathOf);
      k := k + 1;
    }
    ghost var fromAnchors := found;
    k := 0;
    while k < |srcs|
      invariant k <= |srcs| && found == fromAnchors + SrcUrls(base, srcs, k, join)
    {
      var src := srcs[k];
      if SrcKept(src) {
        found := found + {join(base, src)};
      }
      SrcUrlsStep(base, srcs, k, join);
      k := k + 1;
    }
  }

  /** The last loop of `extract_links_from_html`: one link per URL of `found` that
      `linkFor` (the loop body, `LinkFor`) accepts, no URL twice, in the iteration order of
      the set, which the model leaves open. */
  method LinksOf(found: set<string>, linkFor: string -> Option<Link>) returns (links: seq<Link>)
    requires forall u :: linkFor(u).Some? ==> linkFor(u).value.url == u
    ensures forall i, j :: 0 <= i < j < |links| ==> links[i].url != links[j].url
    ensures forall i :: 0 <= i < |links| ==> links[i].url in found && linkFor(links[i].url) == Some(links[i])
    ensures forall u :: u in found && linkFor(u).Some? ==> exists i :: 0 <= i < |links| && links[i].url == u
  {
    links := [];
    var rest := found;
    while rest != {}
      invariant rest <= found
      invariant forall i, j :: 0 <= i < j < |links| ==> links[i].url != links[j].url
      invariant forall i :: 0 <= i < |links| ==> links[i].url in found - rest && linkFor(links[i].url) == Some(links[i])
      invariant forall u :: u in found - rest && linkFor(u).Some? ==> exists i :: 0 <= i < |links| && links[i].url == u
      decreases rest
    {
      var u :| u in rest;
      ghost var rest0, links0 := rest, links;
      rest := rest - {u};
      var link := linkFor(u);
      if link.Some? {
        links := links + [link.value];
        assert links[|links0|].url == u;
      }
      forall v | v in found - rest && linkFor(v).Some?
        ensures exists i :: 0 <= i < |links| && links[i].url == v
      {
        if v == u {
          assert links[|links| - 1].url == v;
        } else {
          assert v in found - rest0;
          var i :| 0 <= i < |links0| && links0[i].url == v;
          assert links[i].url == v;
        }
      }
    }
  }

  /** `extract_links_from_html(base_url, html)` once BeautifulSoup has listed the anchors
      and the `src` values. The links have distinct URLs, each is the link `LinkFor` makes
      for a found URL, and every found URL with a known extension has one. */
  method ExtractLinks(base: string, anchors: seq<Anchor>, srcs: seq<string>,
                      join: (string, string) -> string, pathOf: string -> string)
    returns (links: seq<Link>)
    ensures forall i, j :: 0 <= i < j < |links| ==> links[i].url != links[j].url
    ensures forall i :: 0 <= i < |links| ==>
      links[i].url in FoundUrls(base, anchors, srcs, join, pathOf) && LinkFor(links[i].url, pathOf) == Some(links[i])
    ensures forall u :: u in FoundUrls(base, anchors, srcs, join, pathOf) && LinkFor(u, pathOf).Some? ==>
      exists i :: 0 <= i < |links| && links[i].url == u
  {
    var found := CollectFoundUrls(base, anchors, srcs, join, pathOf);
    forall u | LinkFor(u, pathOf).Some? ensures LinkFor(u, pathOf).value.url == u {
      LinkForMeaning(u, pathOf);
    }
    links := LinksOf(found, u => LinkFor(u, pathOf));
  }

  /** No link comes from a script, fragment or data href or src: each found URL joins the
      base with a kept href or src. */
  lemma FoundUrlsAreKept(base: string, anchors: seq<Anchor>, srcs: seq<string>,
                         join: (string, string) -> string, pathOf: string -> string, u: string)
    requires u in FoundUrls(base, anchors, srcs, join, pathOf)
    ensures || (exists j :: 0 <= j < |anchors| && !IsScriptOrFragment(anchors[j].href) && anchors[j].href != []
                            && (anchors[j].skipPjax || IsKnownExt(Lower(Paths.SplitExt(pathOf(anchors[j].href)))))
                            && u == join(base, anchors[j].href))
            || (exists j :: 0 <= j < |srcs| && !IsScriptOrFragment(srcs[j]) && srcs[j] != [] && u == join(base, srcs[j]))
  {
    if u in AnchorUrls(base, anchors, |anchors|, join, pathOf) {
      var j :| 0 <= j < |anchors| && AnchorKept(anchors[j], pathOf) && u == join(base, anchors[j].href);
    } else {
      var j :| 0 <= j < |srcs| && SrcKept(srcs[j]) && u == join(base, srcs[j]);
    }
  }

  // ---------------------------------------------------------------------------
  // sniff_engine_github_api

  /** The groups of `github\.com/([^/]+)/([^/]+)/releases/tag/([^/?#]+)`. */
  datatype Release = Release(owner: string, repo: string, tag: string)

  const HostPrefix: string := "github.com/"
  const TagInfix: string := "/releases/tag/"
  const NameStops: set<char> := {'/'}
  const TagStops: set<char> := {'/', '?', '#'}

  predicate Avoids(s: string, stops: set<char>) {
    forall k :: 0 <= k < |s| ==> s[k] !in stops
  }

  /** The end of the run of characters outside `stops` that starts at `i`. */
  function RunEnd(s: string, i: nat, stops: set<char>): (j: nat)
    requires i <= |s|
    ensures i <= j <= |s|
    ensures j < |s| ==> s[j] in stops
    ensures Avoids(s[i..j], stops)
    decreases |s| - i
  {
    if i == |s| || s[i] in stops then i
    else
      var j := RunEnd(s, i + 1, stops);
      assert s[i..j] == [s[i]] + s[i + 1..j];
      j
  }

  /** A run ends at the first stop character after it. */
  lemma {:induction false} RunEndAt(s: string, i: nat, j: nat, stops: set<char>)
    requires i <= j <= |s|
    requires Avoids(s[i..j], stops)
    requires j == |s| || s[j] in stops
    ensures RunEnd(s, i, stops) == j
    decreases j - i
  {
    if i < j {
      assert s[i] == s[i..j][0];
      assert s[i + 1..j] == s[i..j][1..];
      RunEndAt(s, i + 1, j, stops);
    }
  }

  /** `t` occurs in `s` at `i`. */
  predicate PrefixAt(s: string, i: nat, t: string) {
    i + |t| <= |s| && s[i..i + |t|] == t
  }

  /** The regular expression matched at position `p`, with its literal pieces `host`
      ("github.com/") and `infix` ("/releases/tag/") as parameters: both names are greedy
      runs without '/', the tag a greedy run without '/', '?' and '#'. */
  function MatchWith(s: string, p: nat, host: string, infix: string): Option<Release> {
    if PrefixAt(s, p, host) then MatchOwner(s, p + |host|, infix) else None
  }

  /** The owner is the run from `o` to the next '/'. */
  function MatchOwner(s: string, o: nat, infix: string): Option<Release>
    requires o <= |s|
  {
    var oe := RunEnd(s, o, NameStops);
    if oe == o || oe == |s| then None else MatchRepo(s, o, oe, infix)
  }

  /** The repository is the run after the '/' at `oe`, followed by `infix`. */
  function MatchRepo(s: string, o: nat, oe: nat, infix: string): Option<Release>
    requires o <= oe < |s|
  {
    var re := RunEnd(s, oe + 1, NameStops);
    if re == oe + 1 || !PrefixAt(s, re, infix) then None else MatchTag(s, o, oe, re, re + |infix|)
  }

  /** The tag is the run from `t` to the next '/', '?' or '#'. */
  function MatchTag(s: string, o: nat, oe: nat, re: nat, t: nat): Option<Release>
    requires o <= oe < re <= t <= |s|
  {
    var te := RunEnd(s, t, TagStops);
    if te == t then None else Some(Release(s[o..oe], s[oe + 1..re], s[t..te]))
  }

  /** `github\.com/([^/]+)/([^/]+)/releases/tag/([^/?#]+)` tried at position `p`. */
  function MatchAt(s: string, p: nat): Option<Release> {
    MatchWith(s, p, HostPrefix, TagInfix)
  }

  /** `s` holds, from `p` on, `host`, the owner, '/', the repository, `infix` and the tag,
      each name non-empty and free of its stop characters, and the tag as long as it can
      be: what the regular expression matches. */
  predicate MatchesWith(s: string, p: nat, rel: Release, host: string, infix: string) {
    var o := p + |host|;
    var oe := o + |rel.owner|;
    var re := oe + 1 + |rel.repo|;
    var t := re + |infix|;
    var te := t + |rel.tag|;
    && te <= |s|
    && s[p..o] == host && s[o..oe] == rel.owner && s[oe] == '/'
    && s[oe + 1..re] == rel.repo && s[re..t] == infix && s[t..te] == rel.tag
    && rel.owner != [] && rel.repo != [] && rel.tag != []
    && Avoids(rel.owner, NameStops) && Avoids(rel.repo, NameStops) && Avoids(rel.tag, TagStops)
    && (te == |s| || s[te] in TagStops)
  }

  predicate MatchesAt(s: string, p: nat, rel: Release) {
    MatchesWith(s, p, rel, HostPrefix, TagInfix)
  }

  /** The positions a successful match passes through: the owner ends at `oe`, the
      repository at `re`, the tag at `te`. */
  predicate Decomposed(s: string, p: nat, host: string, infix: string, oe: nat, re: nat, te: nat, rel: Release) {
    var o := p + |host|;
    var t := re + |infix|;
    && o < oe && oe + 1 < re && t < te <= |s|
    && s[p..o] == host && s[oe] == '/' && s[re..t] == infix
    && Avoids(s[o..oe], NameStops) && Avoids(s[oe + 1..re], NameStops) && Avoids(s[t..te], TagStops)
    && (te == |s| || s[te] in TagStops)
    && rel == Release(s[o..oe], s[oe + 1..re], s[t..te])
  }

  lemma DecomposedPieces(s: string, p: nat, host: string, infix: string, oe: nat, re: nat, te: nat, rel: Release)
    requires Decomposed(s, p, host, infix, oe, re, te, rel)
    ensures MatchesWith(s, p, rel, host, infix)
  {
  }

  /** What `MatchWith` finds is a greedy match. */
  lemma MatchWithSound(s: string, p: nat, host: string, infix: string)
    requires MatchWith(s, p, host, infix).Some?
    ensures MatchesWith(s, p, MatchWith(s, p, host, infix).value, host, infix)
  {
    var rel := MatchWith(s, p, host, infix).value;
    var o := p + |host|;
    var oe := RunEnd(s, o, NameStops);
    var re := RunEnd(s, oe + 1, NameStops);
    var t := re + |infix|;
    var te := RunEnd(s, t, TagStops);
    assert MatchOwner(s, o, infix) == Some(rel);
    assert MatchRepo(s, o, oe, infix) == Some(rel);
    assert Decomposed(s, p, host, infix, oe, re, te, rel);
    DecomposedPieces(s, p, host, infix, oe, re, te, rel);
  }

  /** Every greedy match is what `MatchWith` finds, when `infix` starts with '/'. */
  lemma MatchWithComplete(s: string, p: nat, rel: Release, host: string, infix: string)
    requires infix != [] && infix[0] == '/'
    requires MatchesWith(s, p, rel, host, infix)
    ensures MatchWith(s, p, host, infix) == Some(rel)
  {
    var oe := p + |host| + |rel.owner|;
    var re := oe + 1 + |rel.repo|;
    var te := re + |infix| + |rel.tag|;
    assert Decomposed(s, p, host, infix, oe, re, te, rel);
    DecomposedFound(s, p, host, infix, oe, re, te, rel);
  }

  lemma DecomposedFound(s: string, p: nat, host: string, infix: string, oe: nat, re: nat, te: nat, rel: Release)
    requires infix != [] && infix[0] == '/'
    requires Decomposed(s, p, host, infix, oe, re, te, rel)
    ensures MatchWith(s, p, host, infix) == Some(rel)
  {
    var o := p + |host|;
    var t := re + |infix|;
    assert s[re] == s[re..t][0];
    RunEndAt(s, o, oe, NameStops);
    RunEndAt(s, oe + 1, re, NameStops);
    RunEndAt(s, t, te, TagStops);
    TagFound(s, o, oe, re, t, te, rel);
    RepoFound(s, o, oe, re, infix, rel);
    OwnerFound(s, o, oe, infix, rel);
  }

  lemma TagFound(s: string, o: nat, oe: nat, re: nat, t: nat, te: nat, rel: Release)
    requires o <= oe < re <= t < te <= |s| && RunEnd(s, t, TagStops) == te
    requires rel == Release(s[o..oe], s[oe + 1..re], s[t..te])
    ensures MatchTag(s, o, oe, re, t) == Some(rel)
  {
  }

  lemma RepoFound(s: string, o: nat, oe: nat, re: nat, infix: string, rel: Release)
    requires o <= oe && oe + 1 < re <= |s| && RunEnd(s, oe + 1, NameStops) == re && PrefixAt(s, re, infix)
    requires MatchTag(s, o, oe, re, re + |infix|) == Some(rel)
    ensures MatchRepo(s, o, oe, infix) == Some(rel)
  {
  }

  lemma OwnerFound(s: string, o: nat, oe: nat, infix: string, rel: Release)
    requires o < oe < |s| && RunEnd(s, o, NameStops) == oe && MatchRepo(s, o, oe, infix) == Some(rel)
    ensures MatchOwner(s, o, infix) == Some(rel)
  {
  }

  /** `MatchAt` finds exactly the greedy matches of the regular expression. */
  lemma MatchAtIff(s: string, p: nat, rel: Release)
    ensures MatchAt(s, p) == Some(rel) <==> MatchesAt(s, p, rel)
  {
    if MatchAt(s, p) == Some(rel) {
      MatchWithSound(s, p, HostPrefix, TagInfix);
    }
    if MatchesAt(s, p, rel) {
      MatchWithComplete(s, p, rel, HostPrefix, TagInfix);
    }
  }

  /** `re.search`: the match at the first position from `p` on where there is one. */
  function Search(s: string, p: nat): (r: Option<(nat, Release)>)
    ensures r.Some? ==> p <= r.value.0 <= |s| && MatchAt(s, r.value.0) == Some(r.value.1)
    ensures r.Some? ==> forall q :: p <= q < r.value.0 ==> MatchAt(s, q).None?
    ensures r.None? ==> forall q :: p <= q <= |s| ==> MatchAt(s, q).None?
    decreases |s| + 1 - p
  {
    if p > |s| then None
    else if MatchAt(s, p).Some? then Some((p, MatchAt(s, p).value))
    else Search(s, p + 1)
  }

  /** A GitHub release asset as the API's JSON gives it; None for a missing key. */
  datatype Asset = Asset(downloadUrl: Option<string>, name: Option<string>, size: Option<int>, mime: Option<string>)

  /** The reply of `session.get(api_url)`: a RequestException, or the release JSON (its
      "assets" list, [] when missing, and its "name", None when missing). */
  datatype ApiReply = RequestFailed(message: string) | ReleaseJson(assets: seq<Asset>, name: Option<string>)

  datatype AssetLink = AssetLink(url: string, filename: string, category: string,
                                 size: Option<int>, mime: Option<string>, ext: string)

  /** What `sniff_engine_github_api` returns; its "engine" is always "github_api". */
  datatype ReleaseResult = ReleaseError(error: string) | ReleaseLinks(links: seq<AssetLink>, title: string)

  predicate Truthy(s: Option<string>) {
    s.Some? && s.value != []
  }

  /** The category label for a lower-cased extension, "其他" when no category lists it. */
  function CategoryLabel(ext: string): (name: string)
    ensures name == OtherLabel <==> !IsKnownExt(ext)
  {
    match FindCategory(ext)
    case Some(c) => Label(c)
    case None => OtherLabel
  }

  /** The link for one asset, or None when it lacks a download URL or a name. */
  function AssetLinkOf(a: Asset): Option<AssetLink> {
    if Truthy(a.downloadUrl) && Truthy(a.name) then
      var ext := Lower(Paths.SplitExt(a.name.value));
      Some(AssetLink(a.downloadUrl.value, a.name.value, CategoryLabel(ext), a.size, a.mime, ext))
    else None
  }

  /** The values `f` keeps from `xs`, in order. */
  function Kept<A, B>(f: A -> Option<B>, xs: seq<A>): seq<B> {
    if xs == [] then []
    else Kept(f, xs[..|xs| - 1]) + (if f(xs[|xs| - 1]).Some? then [f(xs[|xs| - 1]).value] else [])
  }

  lemma {:induction false} KeptAppend<A, B>(f: A -> Option<B>, a: seq<A>, b: seq<A>)
    ensures Kept(f, a + b) == Kept(f, a) + Kept(f, b)
    decreases |b|
  {
    if b == [] {
      assert a + b == a;
    } else {
      var init := b[..|b| - 1];
      assert (a + b)[..|a + b| - 1] == a + init;
      assert (a + b)[|a + b| - 1] == b[|b| - 1];
      KeptAppend(f, a, init);
    }
  }

  /** The links of the kept assets, in order. */
  function AssetLinks(assets: seq<Asset>): seq<AssetLink> {
    Kept(AssetLinkOf, assets)
  }

  /** Assets are filtered one by one: the links of a concatenation are the links of its parts. */
  lemma AssetLinksAppend(a: seq<Asset>, b: seq<Asset>)
    ensures AssetLinks(a + b) == AssetLinks(a) + AssetLinks(b)
  {
    KeptAppend(AssetLinkOf, a, b);
  }

  /** An asset is kept exactly when it has a download URL and a name; a kept asset keeps
      them, and its category is the one listing its lower-cased extension, or "其他". */
  lemma AssetLinkMeaning(a: Asset)
    ensures AssetLinkOf(a).Some? <==> Truthy(a.downloadUrl) && Truthy(a.name)
    ensures AssetLinkOf(a).Some? ==>
      var l := AssetLinkOf(a).value;
      && l.url == a.downloadUrl.value && l.filename == a.name.value
      && l.size == a.size && l.mime == a.mime
      && l.ext == Lower(Paths.SplitExt(a.name.value))
      && (forall c :: l.ext in Extensions(c) ==> l.category == Label(c))
      && (l.category == OtherLabel <==> forall c :: l.ext !in Extensions(c))
  {
    if AssetLinkOf(a).Some? {
      var l := AssetLinkOf(a).value;
      forall c | l.ext in Extensions(c) ensures l.category == Label(c) {
        FindCategoryIff(l.ext, c);
        assert FindCategory(l.ext) == Some(c);
      }
    }
  }

  lemma AssetLinksStep(assets: seq<Asset>, i: nat)
    requires i < |assets|
    ensures AssetLinks(assets[..i + 1])
         == AssetLinks(assets[..i]) + (if AssetLinkOf(assets[i]).Some? then [AssetLinkOf(assets[i]).value] else [])
  {
    assert assets[..i + 1][..i] == assets[..i];
  }

  /** One pass of the loop over `data.get("assets", [])`: the entry made for an asset. */
  method MakeAssetLink(a: Asset) returns (link: Option<AssetLink>)
    ensures link == AssetLinkOf(a)
  {
    if Truthy(a.downloadUrl) && Truthy(a.name) {
      var ext := Lower(Paths.SplitExt(a.name.value));
      var category := OtherLabel;
      var found := FindCategory(ext);
      if found.Some? {
        category := Label(found.value);
      }
      assert category == CategoryLabel(ext);
      link := Some(AssetLink(a.downloadUrl.value, a.name.value, category, a.size, a.mime, ext));
    } else {
      link := None;
    }
  }

  /** The loop over `data.get("assets", [])`. */
  method CollectAssetLinks(assets: seq<Asset>) returns (links: seq<AssetLink>)
    ensures links == AssetLinks(assets)
  {
    links := [];
    var i := 0;
    while i < |assets|
      invariant i <= |assets| && links == AssetLinks(assets[..i])
    {
      AssetLinksStep(assets, i);
      var link := MakeAssetLink(assets[i]);
      if link.Some? {
        links := links + [link.value];
      }
      i := i + 1;
    }
    assert assets[..i] == assets;
  }

  function ApiUrl(rel: Release): string {
    "https://api.github.com/repos/" + rel.owner + "/" + rel.repo + "/releases/tags/" + rel.tag
  }

  /** The User-Agent `create_requests_session` sets. */
  const SessionUserAgent: string :=
    "Mozilla/5.0 (Windows NT 10.0; Win64; x64) AppleWebKit/537.36 (KHTML, like Gecko) Chrome/120.0.0.0 Safari/537.36"

  /** The session headers of the API request; Authorization only with a non-empty
      GITHUB_TOKEN. */
  function ApiHeaders(token: Option<string>): (h: map<string, string>)
    ensures "Authorization" in h <==> Truthy(token)
    ensures Truthy(token) ==> h["Authorization"] == "token " + token.value
    ensures "Accept" in h && h["Accept"] == "application/vnd.github.v3+json"
  {
    var h := map["User-Agent" := SessionUserAgent, "Accept" := "application/vnd.github.v3+json"];
    if Truthy(token) then h["Authorization" := "token " + token.value] else h
  }

  /** `sniff_engine_github_api(url)`: `token` is GITHUB_TOKEN and `get` the API request. */
  method SniffGithubApi(url: string, token: Option<string>, get: (string, map<string, string>) -> ApiReply)
    returns (result: ReleaseResult)
    ensures Search(url, 0).None? ==> result == ReleaseError("无法解析URL")
    ensures Search(url, 0).Some? ==>
      var rel := Search(url, 0).value.1;
      match get(ApiUrl(rel), ApiHeaders(token))
      case RequestFailed(e) => result == ReleaseError("网络请求失败: " + e)
      case ReleaseJson(assets, name) =>
        result == ReleaseLinks(AssetLinks(assets),
                               if name.Some? then name.value else rel.owner + "/" + rel.repo + " - " + rel.tag)
  {
    var m := Search(url, 0);
    if m.None? {
      return ReleaseError("无法解析URL");
    }
    var rel := m.value.1;
    var reply := get(ApiUrl(rel), ApiHeaders(token));
    match reply
    case RequestFailed(e) =>
      result := ReleaseError("网络请求失败: " + e);
    case ReleaseJson(assets, name) =>
      var links := CollectAssetLinks(assets);
      var title := if name.Some? then name.value else rel.owner + "/" + rel.repo + " - " + rel.tag;
      result := ReleaseLinks(links, title);
  }

  // ---------------------------------------------------------------------------
  // build_download_command

  const OutputTemplate: string := "%(title)s [%(id)s][%(format_id)s].%(ext)s"
  const ProgressTemplate: string := "download-stream:%(progress._percent_str)s"

  /** The options between the format codes and the optional ffmpeg and proxy options. */
  function FixedOptions(downloadDir: string): seq<string> {
    ["--output", Paths.Join(downloadDir, OutputTemplate),
     "--merge-output-format", "mp4", "--no-warnings",
     "--progress", "--progress-template", ProgressTemplate]
  }

  predicate HasProxy(proxy: Option<map<string, string>>) {
    proxy.Some? && proxy.value != map[]
  }

  /** `build_download_command(url, format_codes, download_dir, proxy_dict)`. */
  function BuildDownloadCommand(url: string, formatCodes: string, downloadDir: string,
                                proxy: Option<map<string, string>>, env: Environment): seq<string>
    requires HasProxy(proxy) ==> "https://" in proxy.value
  {
    var ffmpeg := GetExecutablePath("ffmpeg.exe", env);
    [GetExecutablePath("yt-dlp.exe", env), "-f", formatCodes] + FixedOptions(downloadDir)
    + (if env.fileExists(ffmpeg) then ["--ffmpeg-location", Paths.Dirname(ffmpeg)] else [])
    + (if HasProxy(proxy) then ["--proxy", proxy.value["https://"]] else [])
    + [url]
  }

  /** The command starts with yt-dlp and the formats, then the output template and the
      progress template, and ends with the URL; the ffmpeg directory follows the fixed
      options exactly when ffmpeg exists, and the proxy comes just before the URL exactly
      when a proxy is given. */
  lemma DownloadCommandShape(url: string, formatCodes: string, downloadDir: string,
                             proxy: Option<map<string, string>>, env: Environment)
    requires HasProxy(proxy) ==> "https://" in proxy.value
    ensures var c := BuildDownloadCommand(url, formatCodes, downloadDir, proxy, env);
      var ffmpeg := GetExecutablePath("ffmpeg.exe", env);
      && |c| == 12 + (if env.fileExists(ffmpeg) then 2 else 0) + (if HasProxy(proxy) then 2 else 0)
      && c[..3] == [GetExecutablePath("yt-dlp.exe", env), "-f", formatCodes]
      && c[3..11] == FixedOptions(downloadDir)
      && c[|c| - 1] == url
      && (env.fileExists(ffmpeg) ==> c[11..13] == ["--ffmpeg-location", Paths.Dirname(ffmpeg)])
      && (HasProxy(proxy) ==> c[|c| - 3..|c| - 1] == ["--proxy", proxy.value["https://"]])
  {
    var ffmpeg := GetExecutablePath("ffmpeg.exe", env);
    var pre := [GetExecutablePath("yt-dlp.exe", env), "-f", formatCodes];
    var ff: seq<string> := if env.fileExists(ffmpeg) then ["--ffmpeg-location", Paths.Dirname(ffmpeg)] else [];
    var px: seq<string> := if HasProxy(proxy) then ["--proxy", proxy.value["https://"]] else [];
    var c := BuildDownloadCommand(url, formatCodes, downloadDir, proxy, env);
    assert c == pre + FixedOptions(downloadDir) + ff + px + [url];
    assert |FixedOptions(downloadDir)| == 8;
    CommandParts(pre, FixedOptions(downloadDir), ff, px, url);
  }

  /** Where the parts of a command built as `pre + fixed + ff + px + [url]` lie. */
  lemma CommandParts(pre: seq<string>, fixed: seq<string>, ff: seq<string>, px: seq<string>, url: string)
    ensures var c := pre + fixed + ff + px + [url];
      var n := |pre| + |fixed|;
      && |c| == n + |ff| + |px| + 1
      && c[..|pre|] == pre && c[|pre|..n] == fixed && c[n..n + |ff|] == ff
      && c[|c| - 1 - |px|..|c| - 1] == px && c[|c| - 1] == url
  {
    var c := pre + fixed + ff + px + [url];
    var n := |pre| + |fixed|;
    assert c[..n] == pre + fixed;
    assert c[..|pre|] == (pre + fixed)[..|pre|];
    assert c[|pre|..n] == (pre + fixed)[|pre|..];
  }

  // ---------------------------------------------------------------------------
  // download_direct_link

  /** The outcome of `session.get(url, stream=True)`: an exception before the body (the
      request, `raise_for_status` or opening the file), a content-length that `int()`
      rejects, the content-length (0 when the header is missing) and the chunk sizes of a
      complete body, or the content-length, the chunks written and the exception raised
      by `iter_content` or `f.write` while the body streams. */
  datatype DirectReply =
    | Refused(error: string)
    | BadLength(error: string)
    | Body(total: int, chunks: seq<nat>)
    | Broken(total: int, chunks: seq<nat>, error: string)

  function Sum(chunks: seq<nat>): nat {
    if chunks == [] then 0 else Sum(chunks[..|chunks| - 1]) + chunks[|chunks| - 1]
  }

  /** The exact percentage `(100 * downloaded) / total`, rounded down. */
  function Percent(downloaded: nat, total: int): int
    requires total > 0
  {
    (100 * downloaded) / total
  }

  /** What the model knows of `pct(d) = int((d / total) * 100)` in double precision: it
      never goes down as `d` grows, and it lies at most one below the exact percentage
      (two roundings can lose the last unit, as 29 of 100 bytes gives 28), never above it
      and never below 0. */
  ghost predicate DoubleRounding(pct: nat -> int, total: int)
    requires total > 0
  {
    && (forall d: nat :: 0 <= pct(d) && Percent(d, total) - 1 <= pct(d) <= Percent(d, total))
    && (forall d1: nat, d2: nat :: d1 <= d2 ==> pct(d1) <= pct(d2))
  }

  /** The exact percentage is one rounding the requirement admits. */
  lemma ExactPercentRounds(total: int)
    requires total > 0
    ensures DoubleRounding((d: nat) => Percent(d, total), total)
  {
    forall d1: nat, d2: nat | d1 <= d2
      ensures Percent(d1, total) <= Percent(d2, total)
    {
      DivMonotone(100 * d1, 100 * d2, total);
    }
  }

  /** The values passed to `progress_callback` inside the loop: after each non-empty
      chunk, the rounded percentage `pct` of the bytes so far. */
  function Percentages(chunks: seq<nat>, pct: nat -> int): seq<int> {
    if chunks == [] then []
    else
      Percentages(chunks[..|chunks| - 1], pct)
      + (if chunks[|chunks| - 1] == 0 then [] else [pct(Sum(chunks))])
  }

  /** The progress the chunk loop reports: none without a content-length. */
  function StreamProgress(total: int, chunks: seq<nat>, pct: nat -> int): seq<int> {
    if total > 0 then Percentages(chunks, pct) else []
  }

  /** `p` never goes down and stays between 0 and `bound`. */
  predicate RisesWithin(p: seq<int>, bound: int) {
    && (forall i, j :: 0 <= i <= j < |p| ==> p[i] <= p[j])
    && (forall i :: 0 <= i < |p| ==> 0 <= p[i] <= bound)
  }

  /** Adding at most one value, the new bound, to a rising sequence keeps it rising. */
  lemma RisesWithinExtend(q: seq<int>, before: int, after: int, tail: seq<int>)
    requires RisesWithin(q, before) && 0 <= before <= after && (tail == [] || tail == [after])
    ensures RisesWithin(q + tail, after)
  {
    var p := q + tail;
    forall i | 0 <= i < |p|
      ensures 0 <= p[i] <= after
    {
      if i < |q| {
        assert p[i] == q[i];
      }
    }
    forall i, j | 0 <= i <= j < |p|
      ensures p[i] <= p[j]
    {
      if j < |q| {
        assert p[i] == q[i] && p[j] == q[j];
      } else if i < |q| {
        assert p[i] == q[i];
      }
    }
  }

  /** The percentages never go down and never pass the one for the whole body, hence
      stay at most 100 when the body is no longer than the announced length. */
  lemma {:induction false} PercentagesGrow(chunks: seq<nat>, pct: nat -> int, total: int)
    requires total > 0 && DoubleRounding(pct, total)
    ensures RisesWithin(Percentages(chunks, pct), pct(Sum(chunks)))
    ensures 0 <= pct(Sum(chunks))
    ensures Sum(chunks) <= total ==> pct(Sum(chunks)) <= 100
  {
    if chunks != [] {
      var init := chunks[..|chunks| - 1];
      PercentagesGrow(init, pct, total);
      var before, after := pct(Sum(init)), pct(Sum(chunks));
      assert 0 <= before <= after;
      RisesWithinExtend(Percentages(init, pct), before, after,
                        if chunks[|chunks| - 1] == 0 then [] else [after]);
    }
    if Sum(chunks) <= total {
      DivAtMost(100 * Sum(chunks), total, 100);
    }
  }

  /** The last value reported is the percentage of the whole body: an empty chunk adds
      no bytes. */
  lemma {:induction false} PercentagesLast(chunks: seq<nat>, pct: nat -> int)
    ensures var p := Percentages(chunks, pct);
      p != [] ==> p[|p| - 1] == pct(Sum(chunks))
  {
    if chunks != [] && chunks[|chunks| - 1] == 0 {
      PercentagesLast(chunks[..|chunks| - 1], pct);
    }
  }

  /** A quotient is at most `k` when the dividend is at most `k` times the divisor. */
  lemma DivAtMost(n: nat, d: int, k: nat)
    requires d > 0 && n <= k * d
    ensures n / d <= k
  {
    MulGap(d, n / d, k);
    assert n == d * (n / d) + n % d;
  }

  lemma {:induction false} MulAtLeast(d: nat, k: nat)
    requires k >= 1
    ensures d * k >= d
    decreases k
  {
    if k > 1 {
      MulAtLeast(d, k - 1);
      assert d * k == d * (k - 1) + d;
    }
  }

  lemma MulGap(d: nat, x: int, y: int)
    ensures x > y ==> d * x >= d * y + d
  {
    if x > y {
      MulAtLeast(d, x - y);
      assert d * x == d * y + d * (x - y);
    }
  }

  /** Truncating division by a positive number keeps the order. */
  lemma DivMonotone(a: nat, b: nat, d: int)
    requires a <= b && d > 0
    ensures a / d <= b / d
  {
    MulGap(d, a / d, b / d);
    assert a == d * (a / d) + a % d && b == d * (b / d) + b % d;
  }

  /** `download_direct_link(url, download_dir, progress_callback=...)`: `pathOf` is
      `urlparse(..).path`, `now` is `int(time.time())`, `pct` the rounded percentage
      of the bytes so far, and `hasCallback` says whether a progress callback is given.
      Returns the result pair, the progress values emitted and the file path written. */
  method DownloadDirectLink(url: string, downloadDir: string, pathOf: string -> string, now: nat,
                            reply: DirectReply, pct: nat -> int, hasCallback: bool)
    returns (ok: bool, message: string, progress: seq<int>, filepath: string)
    ensures var name := Paths.Basename(pathOf(url));
      filepath == Paths.Join(downloadDir, if name == [] then "download_" + NatString(now) else name)
    ensures ok <==> reply.Body?
    ensures reply.Refused? || reply.BadLength? ==> message == reply.error && progress == []
    ensures reply.Broken? ==> message == reply.error
                              && progress == if hasCallback then StreamProgress(reply.total, reply.chunks, pct) else []
    ensures reply.Body? ==> message == "下载成功完成。"
    ensures reply.Body? ==> progress == if hasCallback then StreamProgress(reply.total, reply.chunks, pct) + [100] else []
  {
    var name := Paths.Basename(pathOf(url));
    filepath := Paths.Join(downloadDir, if name == [] then "download_" + NatString(now) else name);
    match reply
    case Refused(e) =>
      return false, e, [], filepath;
    case BadLength(e) =>
      return false, e, [], filepath;
    case Body(total, chunks) =>
      progress := StreamChunks(total, chunks, pct, hasCallback);
      if hasCallback {
        progress := progress + [100];
      }
      ok, message := true, "下载成功完成。";
    case Broken(total, chunks, e) =>
      progress := StreamChunks(total, chunks, pct, hasCallback);
      ok, message := false, e;
  }

  /** The `for chunk in r.iter_content(...)` loop: counts the bytes of every non-empty
      chunk and reports the percentage after each when the length is known. */
  method StreamChunks(total: int, chunks: seq<nat>, pct: nat -> int, hasCallback: bool)
    returns (progress: seq<int>)
    ensures progress == if hasCallback then StreamProgress(total, chunks, pct) else []
  {
    progress := [];
    var downloaded := 0;
    var i := 0;
    while i < |chunks|
      invariant i <= |chunks| && downloaded == Sum(chunks[..i])
      invariant progress == if hasCallback && total > 0 then Percentages(chunks[..i], pct) else []
    {
      var chunk := chunks[i];
      assert chunks[..i + 1][..i] == chunks[..i];
      if chunk > 0 {
        downloaded := downloaded + chunk;
        if total > 0 && hasCallback {
          progress := progress + [pct(downloaded)];
        }
      }
      i := i + 1;
    }
    assert chunks[..i] == chunks;
  }
}
