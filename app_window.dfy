/** The main window's task logic (Gui/app_window.py): starting a sniff and recording its
    result, the resource list shown for a task, building the download queue and draining
    it one worker at a time, and stopping. Widgets are left out: the task list is the
    sequence of its rows, the resource tree the sequence of its items in the order
    `QTreeWidgetItemIterator` visits them, the log pane and the message boxes are the
    lists of texts they showed, and the worker the window starts is a `Job` value. */
module AppWindow {

  import opened Text
  import W = Worker

  // ---------------------------------------------------------------------------
  // Sniff results as the window reads them

  /** One entry of a yt-dlp result's "formats" list; a codec is None when its key is missing. */
  datatype Format = Format(formatId: string, vcodec: Option<string>, acodec: Option<string>)

  /** One entry of a "links" list; the category is None when its key is missing. */
  datatype Link = Link(url: string, category: Option<string>)

  /** A sniff result dict: its text fields, and its "formats" and "links" lists (None when
      the key is missing). */
  datatype TaskData = TaskData(fields: W.Record, formats: Option<seq<Format>>, links: Option<seq<Link>>)

  /** `not data`: the dict has no key at all. */
  predicate IsEmpty(d: TaskData) {
    d.fields == map[] && d.formats.None? && d.links.None?
  }

  /** `data.get("error")` is truthy. */
  predicate Failed(d: TaskData) {
    "error" in d.fields && d.fields["error"] != ""
  }

  /** `data.get("engine")`, "" when missing. */
  function Engine(d: TaskData): string {
    if "engine" in d.fields then d.fields["engine"] else ""
  }

  /** The title column of a task row. */
  function RowTitle(d: TaskData): string {
    if Failed(d) then "[嗅探失败]"
    else if "title" in d.fields then d.fields["title"] else "无标题"
  }

  // ---------------------------------------------------------------------------
  // The resource tree

  /** The data an item of the resource tree carries. */
  datatype DownloadInfo = Direct(url: string) | YtDlpFormat(formatId: string, videoOnly: bool)

  /** An item of the resource tree: category and stream headers carry no data and have no
      check box. */
  datatype Item = Item(checked: bool, info: Option<DownloadInfo>)

  const Header: Item := Item(false, None)

  /** `f.get('vcodec') != 'none'`. */
  predicate IsVideo(f: Format) {
    f.vcodec != Some("none")
  }

  /** `is_video and not is_audio`: a video codec and no audio codec. */
  predicate IsVideoOnly(f: Format) {
    f.vcodec != Some("none") && f.acodec == Some("none")
  }

  function FormatInfo(f: Format): DownloadInfo {
    YtDlpFormat(f.formatId, IsVideoOnly(f))
  }

  /** The unchecked items of the formats that go under the video root (`video`) or under
      the audio root, in list order. */
  function FormatItems(fs: seq<Format>, video: bool): (r: seq<Item>)
    ensures forall i :: 0 <= i < |r| ==> !r[i].checked && r[i].info.Some?
  {
    if fs == [] then []
    else FormatItems(fs[..|fs| - 1], video)
         + (if IsVideo(fs[|fs| - 1]) == video then [Item(false, Some(FormatInfo(fs[|fs| - 1])))] else [])
  }

  /** `display_yt_dlp_resources`: the video root and its formats, then the audio root and
      its formats. */
  function YtDlpItems(fs: seq<Format>): seq<Item> {
    [Header] + FormatItems(fs, true) + [Header] + FormatItems(fs, false)
  }

  function CategoryOf(l: Link): string {
    if l.category.Some? then l.category.value else "其他"
  }

  /** The categories of `links` in the order their roots are created: first appearance. */
  function Categories(links: seq<Link>): (cats: seq<string>)
    ensures forall i, j :: 0 <= i < j < |cats| ==> cats[i] != cats[j]
    ensures forall c :: c in cats <==> exists l :: l in links && CategoryOf(l) == c
  {
    if links == [] then []
    else
      var init := Categories(links[..|links| - 1]);
      var c := CategoryOf(links[|links| - 1]);
      assert forall l :: l in links <==> l in links[..|links| - 1] || l == links[|links| - 1];
      if c in init then init else init + [c]
  }

  /** The unchecked items of the links in category `c`, in list order. */
  function LinksIn(links: seq<Link>, c: string): (r: seq<Item>)
    ensures forall i :: 0 <= i < |r| ==> !r[i].checked && r[i].info.Some?
  {
    if links == [] then []
    else LinksIn(links[..|links| - 1], c)
         + (if CategoryOf(links[|links| - 1]) == c then [Item(false, Some(Direct(links[|links| - 1].url)))] else [])
  }

  function Groups(cats: seq<string>, links: seq<Link>): (r: seq<Item>)
    ensures forall i :: 0 <= i < |r| ==> !r[i].checked
  {
    if cats == [] then [] else [Header] + LinksIn(links, cats[0]) + Groups(cats[1..], links)
  }

  /** `display_html_resources`: each category root followed by its links. */
  function HtmlItems(links: seq<Link>): seq<Item> {
    Groups(Categories(links), links)
  }

  function ListOr<T>(o: Option<seq<T>>): seq<T> {
    if o.Some? then o.value else []
  }

  /** `display_resources` for the data stored under the current row's URL, with
      "browser" results shown like "html" ones. */
  function Resources(d: Option<TaskData>): seq<Item> {
    if d.None? || IsEmpty(d.value) || Failed(d.value) then []
    else if Engine(d.value) == "yt-dlp" then YtDlpItems(ListOr(d.value.formats))
    else if Engine(d.value) in ["html", "github_api", "browser"] then HtmlItems(ListOr(d.value.links))
    else []
  }

  /** `display_resources` as written: only "html" and "github_api" results list links. */
  function ResourcesAsWritten(d: Option<TaskData>): seq<Item> {
    if d.None? || IsEmpty(d.value) || Failed(d.value) then []
    else if Engine(d.value) == "yt-dlp" then YtDlpItems(ListOr(d.value.formats))
    else if Engine(d.value) in ["html", "github_api"] then HtmlItems(ListOr(d.value.links))
    else []
  }

  /** A freshly displayed resource list has nothing checked. */
  lemma ResourcesUnchecked(d: Option<TaskData>)
    ensures forall i :: 0 <= i < |Resources(d)| ==> !Resources(d)[i].checked
  {
    if d.Some? && !IsEmpty(d.value) && !Failed(d.value) && Engine(d.value) == "yt-dlp" {
      var fs := ListOr(d.value.formats);
      var r := YtDlpItems(fs);
      forall i | 0 <= i < |r| ensures !r[i].checked {
        var a := FormatItems(fs, true);
        if 1 <= i < 1 + |a| {
          assert r[i] == a[i - 1];
        } else if i > 1 + |a| {
          assert r[i] == FormatItems(fs, false)[i - 2 - |a|];
        }
      }
    }
  }

  /** The data of the items, in tree order. */
  function Infos(items: seq<Item>): seq<DownloadInfo> {
    if items == [] then []
    else (if items[0].info.Some? then [items[0].info.value] else []) + Infos(items[1..])
  }

  lemma {:induction false} InfosAppend(a: seq<Item>, b: seq<Item>)
    ensures Infos(a + b) == Infos(a) + Infos(b)
    decreases |a|
  {
    if a == [] {
      assert a + b == b;
    } else {
      InfosAppend(a[1..], b);
      assert (a + b)[1..] == a[1..] + b;
    }
  }

  /** A header adds no data. */
  lemma InfosAfterHeader(rest: seq<Item>)
    ensures Infos([Header] + rest) == Infos(rest)
  {
    assert ([Header] + rest)[1..] == rest;
  }

  function FormatInfos(fs: seq<Format>): (r: seq<DownloadInfo>)
    ensures |r| == |fs| && forall i :: 0 <= i < |fs| ==> r[i] == FormatInfo(fs[i])
  {
    if fs == [] then [] else FormatInfos(fs[..|fs| - 1]) + [FormatInfo(fs[|fs| - 1])]
  }

  lemma InfosSingle(it: Item)
    ensures Infos([it]) == if it.info.Some? then [it.info.value] else []
  {
    assert [it][1..] == [];
  }

  /** The data of the formats that go under the video root (`video`) or the audio root. */
  function RootInfos(fs: seq<Format>, video: bool): seq<DownloadInfo> {
    if fs == [] then []
    else RootInfos(fs[..|fs| - 1], video) + (if IsVideo(fs[|fs| - 1]) == video then [FormatInfo(fs[|fs| - 1])] else [])
  }

  lemma {:induction false} FormatItemsInfos(fs: seq<Format>, video: bool)
    ensures Infos(FormatItems(fs, video)) == RootInfos(fs, video)
    decreases |fs|
  {
    if fs != [] {
      var init, f := fs[..|fs| - 1], fs[|fs| - 1];
      FormatItemsInfos(init, video);
      var tail := if IsVideo(f) == video then [Item(false, Some(FormatInfo(f)))] else [];
      InfosAppend(FormatItems(init, video), tail);
      if tail != [] {
        InfosSingle(tail[0]);
      }
    }
  }

  lemma {:induction false} RootInfosSplit(fs: seq<Format>)
    ensures multiset(RootInfos(fs, true)) + multiset(RootInfos(fs, false)) == multiset(FormatInfos(fs))
    decreases |fs|
  {
    if fs != [] {
      RootInfosSplit(fs[..|fs| - 1]);
    }
  }

  /** Every format of a yt-dlp result is listed exactly once, with the video-only flag of
      its codecs. */
  lemma YtDlpItemsList(fs: seq<Format>)
    ensures multiset(Infos(YtDlpItems(fs))) == multiset(FormatInfos(fs))
  {
    var a, b := FormatItems(fs, true), FormatItems(fs, false);
    var rest := [Header] + b;
    assert YtDlpItems(fs) == [Header] + (a + rest);
    InfosAfterHeader(a + rest);
    InfosAppend(a, rest);
    InfosAfterHeader(b);
    FormatItemsInfos(fs, true);
    FormatItemsInfos(fs, false);
    RootInfosSplit(fs);
  }

  /** The formats with a video codec are the ones listed before the audio root. */
  lemma VideoBeforeAudio(fs: seq<Format>)
    ensures var n := 1 + |FormatItems(fs, true)|;
      YtDlpItems(fs)[n] == Header && Infos(YtDlpItems(fs)[..n]) == RootInfos(fs, true)
  {
    var a := FormatItems(fs, true);
    assert YtDlpItems(fs)[..1 + |a|] == [Header] + a;
    InfosAfterHeader(a);
    FormatItemsInfos(fs, true);
  }

  /** The links whose category is in `cats`, as direct downloads. */
  function DirectsIn(links: seq<Link>, cats: set<string>): multiset<DownloadInfo> {
    if links == [] then multiset{}
    else DirectsIn(links[..|links| - 1], cats)
         + (if CategoryOf(links[|links| - 1]) in cats then multiset{Direct(links[|links| - 1].url)} else multiset{})
  }

  lemma {:induction false} LinksInDirects(links: seq<Link>, c: string)
    ensures multiset(Infos(LinksIn(links, c))) == DirectsIn(links, {c})
    decreases |links|
  {
    if links != [] {
      var l := links[|links| - 1];
      LinksInDirects(links[..|links| - 1], c);
      var tail := if CategoryOf(l) == c then [Item(false, Some(Direct(l.url)))] else [];
      InfosAppend(LinksIn(links[..|links| - 1], c), tail);
      if tail != [] {
        InfosSingle(tail[0]);
      }
    }
  }

  lemma {:induction false} DirectsSplit(links: seq<Link>, c: string, cats: set<string>)
    requires c !in cats
    ensures DirectsIn(links, {c} + cats) == DirectsIn(links, {c}) + DirectsIn(links, cats)
    decreases |links|
  {
    if links != [] {
      DirectsSplit(links[..|links| - 1], c, cats);
    }
  }

  /** The category set of a list without repeats, split at its head. */
  lemma HeadAndRest(cats: seq<string>)
    requires cats != [] && forall i, j :: 0 <= i < j < |cats| ==> cats[i] != cats[j]
    ensures cats[0] !in (set c | c in cats[1..])
    ensures (set c | c in cats) == {cats[0]} + (set c | c in cats[1..])
  {
    assert cats == [cats[0]] + cats[1..];
    forall i | 1 <= i < |cats| ensures cats[i] != cats[0] {
    }
  }

  lemma GroupsUnfold(cats: seq<string>, links: seq<Link>)
    requires cats != []
    ensures Infos(Groups(cats, links)) == Infos(LinksIn(links, cats[0])) + Infos(Groups(cats[1..], links))
  {
    var x, y := LinksIn(links, cats[0]), Groups(cats[1..], links);
    assert Groups(cats, links) == [Header] + (x + y);
    InfosAfterHeader(x + y);
    InfosAppend(x, y);
  }

  lemma {:induction false} GroupsDirects(cats: seq<string>, links: seq<Link>)
    requires forall i, j :: 0 <= i < j < |cats| ==> cats[i] != cats[j]
    ensures multiset(Infos(Groups(cats, links))) == DirectsIn(links, set c | c in cats)
    decreases |cats|
  {
    if cats == [] {
      assert (set c | c in cats) == {};
      EmptyDirects(links);
    } else {
      GroupsDirects(cats[1..], links);
      GroupsUnfold(cats, links);
      LinksInDirects(links, cats[0]);
      HeadAndRest(cats);
      DirectsSplit(links, cats[0], set c | c in cats[1..]);
    }
  }

  lemma {:induction false} EmptyDirects(links: seq<Link>)
    ensures DirectsIn(links, {}) == multiset{}
    decreases |links|
  {
    if links != [] {
      EmptyDirects(links[..|links| - 1]);
    }
  }

  /** All links, as direct downloads. */
  function AllDirects(links: seq<Link>): multiset<DownloadInfo> {
    if links == [] then multiset{} else AllDirects(links[..|links| - 1]) + multiset{Direct(links[|links| - 1].url)}
  }

  lemma {:induction false} DirectsCovered(links: seq<Link>, cats: set<string>)
    requires forall l :: l in links ==> CategoryOf(l) in cats
    ensures DirectsIn(links, cats) == AllDirects(links)
    decreases |links|
  {
    if links != [] {
      DirectsCovered(links[..|links| - 1], cats);
    }
  }

  /** Every link of an html, GitHub or browser result is listed exactly once, as a direct
      download of its URL. */
  lemma HtmlItemsList(links: seq<Link>)
    ensures multiset(Infos(HtmlItems(links))) == AllDirects(links)
  {
    var cats := Categories(links);
    GroupsDirects(cats, links);
    DirectsCovered(links, set c | c in cats);
  }

  /** A "browser" result with links lists each link. */
  lemma BrowserLinksShown(d: TaskData)
    requires !IsEmpty(d) && !Failed(d) && Engine(d) == "browser"
    ensures multiset(Infos(Resources(Some(d)))) == AllDirects(ListOr(d.links))
  {
    HtmlItemsList(ListOr(d.links));
  }

  /** As written, a successful "browser" result (which carries links, engine "browser")
      shows an empty resource list, so nothing it found can be downloaded. */
  lemma BrowserLinksHiddenAsWritten(d: TaskData)
    requires !IsEmpty(d) && !Failed(d) && Engine(d) == "browser"
    ensures ResourcesAsWritten(Some(d)) == []
    ensures ListOr(d.links) != [] ==> AllDirects(ListOr(d.links)) != multiset{}
  {
    assert "browser" !in ["html", "github_api"];
    var links := ListOr(d.links);
    if links != [] {
      assert Direct(links[|links| - 1].url) in AllDirects(links);
    }
  }

  // ---------------------------------------------------------------------------
  // The download queue

  /** An entry of `download_queue`. */
  datatype Task = DirectTask(url: string) | YtDlpTask(formatId: string)

  /** The data of the checked items, in tree order. */
  function Checked(items: seq<Item>): seq<DownloadInfo>
    requires forall i :: 0 <= i < |items| && items[i].checked ==> items[i].info.Some?
  {
    if items == [] then []
    else Checked(items[..|items| - 1]) + (if items[|items| - 1].checked then [items[|items| - 1].info.value] else [])
  }

  /** The entry an item becomes with auto-merge on: a video-only format gets "+bestaudio". */
  function AutoTask(d: DownloadInfo): Task {
    match d
    case Direct(u) => DirectTask(u)
    case YtDlpFormat(id, videoOnly) => YtDlpTask(if videoOnly then id + "+bestaudio" else id)
  }

  /** The entries the loop appends for `infos`; without auto-merge it appends direct items only. */
  function Planned(infos: seq<DownloadInfo>, autoMerge: bool): seq<Task> {
    if infos == [] then []
    else
      var d := infos[|infos| - 1];
      Planned(infos[..|infos| - 1], autoMerge)
      + (if d.Direct? || autoMerge then [AutoTask(d)] else [])
  }

  /** `yt_dlp_formats_manual`: the yt-dlp format ids among `infos`, in order. */
  function ManualIds(infos: seq<DownloadInfo>): seq<string> {
    if infos == [] then []
    else
      var d := infos[|infos| - 1];
      ManualIds(infos[..|infos| - 1]) + (if d.YtDlpFormat? then [d.formatId] else [])
  }

  /** The queue `prepare_downloads` builds from the checked items' data. */
  function QueueFor(infos: seq<DownloadInfo>, autoMerge: bool): seq<Task> {
    Planned(infos, autoMerge)
    + (if !autoMerge && ManualIds(infos) != [] then [YtDlpTask(Join(ManualIds(infos), "+"))] else [])
  }

  /** With auto-merge on, each checked item is queued once, in tree order: a direct link
      as it is, a video-only format as `id+bestaudio`, any other format as its id. */
  lemma {:induction false} AutoMergeQueue(infos: seq<DownloadInfo>)
    ensures var q := QueueFor(infos, true);
      |q| == |infos| && forall k :: 0 <= k < |infos| ==> q[k] == AutoTask(infos[k])
    decreases |infos|
  {
    if infos != [] {
      AutoMergeQueue(infos[..|infos| - 1]);
      assert QueueFor(infos, true) == Planned(infos, true);
    }
  }

  /** The direct items among `infos`, in order. */
  function DirectTasks(infos: seq<DownloadInfo>): seq<Task> {
    if infos == [] then []
    else DirectTasks(infos[..|infos| - 1]) + (if infos[|infos| - 1].Direct? then [AutoTask(infos[|infos| - 1])] else [])
  }

  /** With auto-merge off, the direct items come first, in tree order, and all checked
      format ids, joined with "+", make one last entry. */
  lemma ManualQueue(infos: seq<DownloadInfo>)
    ensures QueueFor(infos, false) ==
      DirectTasks(infos) + (if ManualIds(infos) != [] then [YtDlpTask(Join(ManualIds(infos), "+"))] else [])
    ensures forall k :: 0 <= k < |DirectTasks(infos)| ==> DirectTasks(infos)[k].DirectTask?
  {
    PlannedManual(infos);
  }

  lemma {:induction false} PlannedManual(infos: seq<DownloadInfo>)
    ensures Planned(infos, false) == DirectTasks(infos)
    ensures forall k :: 0 <= k < |DirectTasks(infos)| ==> DirectTasks(infos)[k].DirectTask?
    decreases |infos|
  {
    if infos != [] {
      PlannedManual(infos[..|infos| - 1]);
    }
  }

  /** The queue is empty exactly when no item is checked. */
  lemma {:induction false} QueueEmpty(infos: seq<DownloadInfo>, autoMerge: bool)
    ensures QueueFor(infos, autoMerge) == [] <==> infos == []
    decreases |infos|
  {
    if infos != [] {
      var d := infos[|infos| - 1];
      if !(d.Direct? || autoMerge) {
        assert ManualIds(infos) != [];
      }
    }
  }

  lemma CheckedStep(items: seq<Item>, i: nat)
    requires forall k :: 0 <= k < |items| && items[k].checked ==> items[k].info.Some?
    requires i < |items|
    ensures Checked(items[..i + 1]) == Checked(items[..i]) + (if items[i].checked then [items[i].info.value] else [])
  {
    assert items[..i + 1][..i] == items[..i];
  }

  lemma PlanStep(infos: seq<DownloadInfo>, d: DownloadInfo, autoMerge: bool)
    ensures Planned(infos + [d], autoMerge) == Planned(infos, autoMerge) + (if d.Direct? || autoMerge then [AutoTask(d)] else [])
    ensures ManualIds(infos + [d]) == ManualIds(infos) + (if d.YtDlpFormat? then [d.formatId] else [])
  {
    assert (infos + [d])[..|infos|] == infos;
  }

  /** The loop of `prepare_downloads` over the resource tree: each checked item in tree
      order is queued, and with auto-merge off the checked format ids are joined into one
      last entry. */
  method BuildQueue(items: seq<Item>, auto: bool) returns (queue: seq<Task>)
    requires forall k :: 0 <= k < |items| && items[k].checked ==> items[k].info.Some?
    ensures queue == QueueFor(Checked(items), auto)
  {
    queue := [];
    var manual: seq<string> := [];
    var i := 0;
    while i < |items|
      invariant 0 <= i <= |items|
      invariant queue == Planned(Checked(items[..i]), auto)
      invariant manual == if auto then [] else ManualIds(Checked(items[..i]))
    {
      CheckedStep(items, i);
      var item := items[i];
      if !item.checked {
        assert Checked(items[..i + 1]) == Checked(items[..i]);
      } else {
        PlanStep(Checked(items[..i]), item.info.value, auto);
        var info := item.info.value;
        if info.Direct? {
          assert ManualIds(Checked(items[..i + 1])) == ManualIds(Checked(items[..i]));
          queue := queue + [DirectTask(info.url)];
        } else if auto {
          if info.videoOnly {
            queue := queue + [YtDlpTask(info.formatId + "+bestaudio")];
          } else {
            queue := queue + [YtDlpTask(info.formatId)];
          }
        } else {
          manual := manual + [info.formatId];
        }
      }
      i := i + 1;
    }
    assert items[..i] == items;
    if !auto && manual != [] {
      queue := queue + [YtDlpTask(Join(manual, "+"))];
    }
  }

  /** The worker keyword arguments for a queue entry. */
  function KwargsFor(t: Task, baseUrl: string, downloadPath: string): W.Kwargs {
    match t
    case DirectTask(u) => W.Kwargs("", "direct", "", downloadPath, u)
    case YtDlpTask(id) => W.Kwargs(baseUrl, "yt-dlp", id, downloadPath, "")
  }

  function StartLog(t: Task): string {
    match t
    case DirectTask(u) => "<b>开始直接下载: " + u + "</b>"
    case YtDlpTask(id) => "<b>开始yt-dlp下载: ...，格式: " + id + "</b>"
  }

  function PrepareLog(n: nat): string {
    "<b>准备下载 " + NatString(n) + " 个项目...</b>"
  }

  function ResultLog(success: bool, message: string): string {
    if success then "<font color='#98c379'>项目下载成功。</font>"
    else "<font color='#e06c75'>项目下载失败: " + message + "</font>"
  }

  const AllDoneLog: string := "<font color='#98c379'><b>所有下载任务已处理完毕！</b></font>"
  const AllDoneDialog: string := "所有下载任务已处理完毕！"
  const SelectTaskDialog: string := "请先在左侧选择一个任务。"
  const CheckItemsDialog: string := "请在资源列表中勾选要下载的项目。"
  const StopLog: string := "<b>[用户操作] 发送停止信号...</b>"

  function SniffLog(url: string): string {
    "<b>开始嗅探: " + url + "</b>"
  }

  // ---------------------------------------------------------------------------
  // The task list

  /** A row of the task list: the URL, the title column, and whether it is shown as failed. */
  datatype Row = Row(url: string, title: string, failed: bool)

  /** `findItems(url, MatchExactly, 0)[0]`: the first row for `url`. */
  function FindRow(rows: seq<Row>, url: string): (r: Option<nat>)
    ensures r.Some? ==> r.value < |rows| && rows[r.value].url == url
    ensures r.Some? ==> forall j :: 0 <= j < r.value ==> rows[j].url != url
    ensures r.None? ==> forall j :: 0 <= j < |rows| ==> rows[j].url != url
  {
    if rows == [] then None
    else if rows[0].url == url then Some(0)
    else
      var r := FindRow(rows[1..], url);
      if r.Some? then Some(r.value + 1) else None
  }

  /** The rows after `on_sniff_finished(data, url)`: the row for `url` is updated, or a new
      one is added at the end. */
  function Upsert(rows: seq<Row>, url: string, d: TaskData): seq<Row> {
    var row := Row(url, RowTitle(d), Failed(d));
    match FindRow(rows, url)
    case Some(i) => rows[i := row]
    case None => rows + [row]
  }

  predicate UniqueUrls(rows: seq<Row>) {
    forall i, j :: 0 <= i < j < |rows| ==> rows[i].url != rows[j].url
  }

  /** A result for a URL already listed reuses its row; otherwise one row is appended.
      Every other row is left as it was, and the URLs stay distinct. */
  lemma UpsertRows(rows: seq<Row>, url: string, d: TaskData)
    requires UniqueUrls(rows)
    ensures var r := Upsert(rows, url, d);
      && UniqueUrls(r)
      && |r| == |rows| + (if FindRow(rows, url).Some? then 0 else 1)
      && (forall j :: 0 <= j < |rows| && rows[j].url != url ==> r[j] == rows[j])
      && r[if FindRow(rows, url).Some? then FindRow(rows, url).value else |rows|] == Row(url, RowTitle(d), Failed(d))
  {
  }

  // ---------------------------------------------------------------------------
  // The window

  /** The worker the window started last, and whether it was told to stop. */
  datatype Job = Sniffing(url: string, stopped: bool) | Downloading(kwargs: W.Kwargs, stopped: bool)

  class Window {
    var rows: seq<Row>
    /** The index of `task_tree.currentItem()`. */
    var current: Option<nat>
    var taskData: map<string, TaskData>
    var resources: seq<Item>
    var downloadQueue: seq<Task>
    /** `current_download_info["base_url"]`. */
    var baseUrl: string
    var job: Option<Job>
    var busy: bool
    var downloadPath: string
    var autoMerge: bool
    var log: seq<string>
    var dialogs: seq<string>

    /** The window keeps the current row in range, one row per URL, and check boxes only
        on items with data. */
    predicate Valid()
      reads this`current, this`rows, this`resources
    {
      && (current.Some? ==> current.value < |rows|)
      && UniqueUrls(rows)
      && forall i :: 0 <= i < |resources| && resources[i].checked ==> resources[i].info.Some?
    }

    /** `__init__` with the saved download path and auto-merge setting. */
    constructor (downloadPath: string, autoMerge: bool)
      ensures Valid()
      ensures rows == [] && current == None && taskData == map[] && resources == []
      ensures downloadQueue == [] && baseUrl == "" && job == None && !busy
      ensures this.downloadPath == downloadPath && this.autoMerge == autoMerge
      ensures log == [] && dialogs == []
    {
      rows := [];
      current := None;
      taskData := map[];
      resources := [];
      downloadQueue := [];
      baseUrl := "";
      job := None;
      busy := false;
      this.downloadPath := downloadPath;
      this.autoMerge := autoMerge;
      log := [];
      dialogs := [];
    }

    /** `start_sniffing` with the URL field's text: nothing while busy or for a blank URL;
        otherwise busy, with a sniff worker for the stripped URL. */
    method StartSniffing(text: string)
      modifies this`busy, this`log, this`job
      ensures old(busy) || Strip(text) == [] ==> busy == old(busy) && log == old(log) && job == old(job)
      ensures !old(busy) && Strip(text) != [] ==>
        busy && log == old(log) + [SniffLog(Strip(text))] && job == Some(Sniffing(Strip(text), false))
    {
      if busy {
        return;
      }
      var url := Strip(text);
      if url == [] {
        return;
      }
      busy := true;
      log := log + [SniffLog(url)];
      job := Some(Sniffing(url, false));
    }

    /** `display_resources`, run when the current row changes. */
    method SelectRow(i: nat)
      requires Valid() && i < |rows|
      modifies this`current, this`resources
      ensures Valid() && current == Some(i)
      ensures resources == if old(current) == Some(i) then old(resources) else Resources(if rows[i].url in taskData then Some(taskData[rows[i].url]) else None)
    {
      if current != Some(i) {
        current := Some(i);
        var d := if rows[i].url in taskData then Some(taskData[rows[i].url]) else None;
        ResourcesUnchecked(d);
        resources := Resources(d);
      }
    }

    /** `on_sniff_finished(data, url)`: the data is stored under the URL, the URL's row is
        reused or added and made current (which redisplays the resources only when the
        current row changes), and the window is idle again. */
    method OnSniffFinished(d: TaskData, url: string)
      requires Valid()
      modifies this`rows, this`current, this`taskData, this`resources, this`busy, this`job
      ensures Valid()
      ensures taskData == old(taskData)[url := d]
      ensures rows == Upsert(old(rows), url, d)
      ensures var i := if FindRow(old(rows), url).Some? then FindRow(old(rows), url).value else |old(rows)|;
        current == Some(i) && resources == if old(current) == Some(i) then old(resources) else Resources(Some(d))
      ensures !busy && job == None
    {
      UpsertRows(rows, url, d);
      var found := FindRow(rows, url);
      rows := Upsert(rows, url, d);
      taskData := taskData[url := d];
      var i := if found.Some? then found.value else |rows| - 1;
      SelectRow(i);
      busy := false;
      job := None;
    }

    /** Ticking or clearing the check box of an item with data. */
    method SetChecked(i: nat, checked: bool)
      requires Valid() && i < |resources| && resources[i].info.Some?
      modifies this`resources
      ensures Valid()
      ensures resources == old(resources)[i := Item(checked, old(resources[i].info))]
    {
      resources := resources[i := Item(checked, resources[i].info)];
    }

    /** `process_next_in_queue`: the front entry is popped and a download worker started
        for it; an empty queue ends the run and the window is idle. */
    method ProcessNextInQueue()
      modifies this`downloadQueue, this`busy, this`log, this`job, this`dialogs
      ensures old(downloadQueue) == [] ==>
        downloadQueue == [] && !busy && log == old(log) + [AllDoneLog] && dialogs == old(dialogs) + [AllDoneDialog] && job == old(job)
      ensures old(downloadQueue) != [] ==>
        && downloadQueue == old(downloadQueue)[1..] && busy == old(busy) && dialogs == old(dialogs)
        && log == old(log) + [StartLog(old(downloadQueue)[0])]
        && job == Some(Downloading(KwargsFor(old(downloadQueue)[0], baseUrl, downloadPath), false))
    {
      if downloadQueue == [] {
        log := log + [AllDoneLog];
        busy := false;
        dialogs := dialogs + [AllDoneDialog];
        return;
      }
      var task := downloadQueue[0];
      downloadQueue := downloadQueue[1..];
      log := log + [StartLog(task)];
      job := Some(Downloading(KwargsFor(task, baseUrl, downloadPath), false));
    }

    /** `prepare_downloads`: nothing while busy; a warning without a current row; else the
        queue is rebuilt from the checked items, and either a warning (nothing checked) or
        the first download starts. */
    method PrepareDownloads()
      requires Valid()
      modifies this`baseUrl, this`downloadQueue, this`busy, this`log, this`job, this`dialogs
      ensures old(busy) || current.None? ==>
        baseUrl == old(baseUrl) && downloadQueue == old(downloadQueue) && busy == old(busy) && log == old(log) && job == old(job)
      ensures old(busy) ==> dialogs == old(dialogs)
      ensures !old(busy) && current.None? ==> dialogs == old(dialogs) + [SelectTaskDialog]
      ensures !old(busy) && current.Some? ==>
        var q := QueueFor(Checked(resources), autoMerge);
        && baseUrl == rows[current.value].url
        && (q == [] ==> downloadQueue == [] && busy == old(busy) && log == old(log) && job == old(job) && dialogs == old(dialogs) + [CheckItemsDialog])
        && (q != [] ==> && busy && downloadQueue == q[1..] && dialogs == old(dialogs)
                        && log == old(log) + [PrepareLog(|q|)] + [StartLog(q[0])]
                        && job == Some(Downloading(KwargsFor(q[0], baseUrl, downloadPath), false)))
    {
      if busy {
        return;
      }
      if current.None? {
        dialogs := dialogs + [SelectTaskDialog];
        return;
      }
      baseUrl := rows[current.value].url;
      var queue := BuildQueue(resources, autoMerge);
      downloadQueue := queue;
      if queue == [] {
        dialogs := dialogs + [CheckItemsDialog];
        return;
      }
      busy := true;
      log := log + [PrepareLog(|downloadQueue|)];
      ProcessNextInQueue();
    }

    /** `on_single_download_finished`: the result is logged, the worker dropped, and the
        next entry started, whether the download succeeded or failed. */
    method OnSingleDownloadFinished(success: bool, message: string)
      modifies this`downloadQueue, this`busy, this`log, this`job, this`dialogs
      ensures old(downloadQueue) == [] ==>
        && downloadQueue == [] && !busy && job == None
        && log == old(log) + [ResultLog(success, message)] + [AllDoneLog] && dialogs == old(dialogs) + [AllDoneDialog]
      ensures old(downloadQueue) != [] ==>
        && downloadQueue == old(downloadQueue)[1..] && busy == old(busy) && dialogs == old(dialogs)
        && log == old(log) + [ResultLog(success, message)] + [StartLog(old(downloadQueue)[0])]
        && job == Some(Downloading(KwargsFor(old(downloadQueue)[0], baseUrl, downloadPath), false))
    {
      log := log + [ResultLog(success, message)];
      job := None;
      ProcessNextInQueue();
    }

    /** `stop_task`: with a worker, it is told to stop, the queue is emptied and the
        window is idle; without one nothing happens. */
    method StopTask()
      modifies this`log, this`job, this`downloadQueue, this`busy
      ensures old(job).None? ==> log == old(log) && job == old(job) && downloadQueue == old(downloadQueue) && busy == old(busy)
      ensures old(job).Some? ==>
        log == old(log) + [StopLog] && job == Some(old(job).value.(stopped := true)) && downloadQueue == [] && !busy
    {
      if job.Some? {
        log := log + [StopLog];
        job := Some(job.value.(stopped := true));
        downloadQueue := [];
        busy := false;
      }
    }
  }
}
