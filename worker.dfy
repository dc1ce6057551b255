/** The background worker (Gui/worker.py): the strategy-by-strategy sniff, the yt-dlp and
    direct downloads, and stopping. The Qt signals the worker emits are kept as a list of
    events; the sniff backends, the yt-dlp process, JSON decoding and the moment a stop
    request arrives are inputs. */
module Worker {

  import opened Text
  import SP = StrategyProfiler
  import BS = BackendScraper

  // ---------------------------------------------------------------------------
  // Results and signals

  /** A sniff result dict, key to value; "" stands for every falsy value. */
  type Record = map<string, string>

  function ErrorRecord(message: string): Record {
    map["error" := message]
  }

  /** `result and not result.get("error")`: a non-empty dict whose "error" is missing or falsy. */
  predicate IsSuccess(r: Record) {
    r != map[] && ("error" !in r || r["error"] == "")
  }

  /** `result.get("error", "未知错误") if result else "未知错误"`. */
  function ErrorMessage(r: Record): (m: string)
    ensures r != map[] && "error" in r ==> m == r["error"]
    ensures (r == map[] || "error" !in r) ==> m == UnknownError
  {
    if r != map[] && "error" in r then r["error"] else UnknownError
  }

  const Cancelled: string := "操作被用户取消。"
  const NoStrategy: string := "没有适用的嗅探策略。"
  const Exhausted: string := "所有推荐的嗅探策略均已尝试。"
  const UnknownError: string := "未知错误"
  const CancelledBeforeStart: string := "任务在启动前被取消。"
  const DownloadDone: string := "下载成功完成。"

  /** What the worker emits: `log`, `sniff_finished`, `download_progress` and
      `download_finished`, plus each call of `update_experience_data`. */
  datatype Event =
    | Log(text: string)
    | SniffFinished(result: Record, url: string)
    | DownloadProgress(percent: int)
    | DownloadFinished(ok: bool, message: string)
    | Learned(domain: string, strategy: string)

  /** Python `str(i)` for an integer. */
  function IntString(i: int): string {
    if i < 0 then "-" + NatString(-i) else NatString(i)
  }

  // ---------------------------------------------------------------------------
  // One attempt

  /** What a backend function did: returned a dict (the empty one for None) or raised. */
  datatype Call = Returned(result: Record) | Raised(message: string)

  /** `json.loads` of a line followed by `data["engine"] = ...`: a JSON object, or the
      message of the exception (which a JSON value other than an object also raises). */
  datatype Json = Object(fields: Record) | Failed(message: string)

  /** The `yt-dlp --dump-json` process: the pieces `readAllStandardOutput` returns, in
      order, and the exit code passed to `finished`. */
  datatype YtDlpRun = YtDlpRun(chunks: seq<string>, exitCode: int)

  /** Everything a sniff depends on besides the worker's own fields. */
  datatype World = World(
    urlInfo: Option<SP.UrlInfo>,     // urlparse(url), None when it raises
    call: string -> Call,            // backend function name -> what calling it with the URL does
    env: BS.Environment,             // where yt-dlp.exe is looked for, and which files exist
    ytDlp: YtDlpRun,
    parse: string -> Json,
    stopDuring: SP.Strategy -> bool, // whether `stop()` arrives while that strategy runs
    pid: nat)

  /** The functions backend_scraper defines among the names AVAILABLE_STRATEGIES uses. */
  const BackendFunctions: set<string> :=
    {"sniff_engine_yt_dlp", "sniff_engine_github_api", "sniff_engine_html_parser", "sniff_engine_browser"}

  /** The AttributeError of `getattr(backend_scraper, name)`. */
  function NoAttribute(name: string): string {
    "module 'backend_scraper' has no attribute '" + name + "'"
  }

  /** `getattr(backend_scraper, name)(url)`: the call with the arguments the backends take. */
  function BackendCall(name: string, w: World): Call {
    if name in BackendFunctions then w.call(name) else Raised(NoAttribute(name))
  }

  /** `getattr(backend_scraper, name)(url, context_worker=self)`, the call as written: no
      backend takes `context_worker`, so every defined one raises TypeError. */
  function BackendCallAsWritten(name: string, w: World): Call {
    if name in BackendFunctions then Raised(name + "() got an unexpected keyword argument 'context_worker'")
    else Raised(NoAttribute(name))
  }

  /** The dict handed to `_handle_sniff_result` after the `try`. */
  function Handled(c: Call): Record {
    match c
    case Returned(r) => r
    case Raised(m) => ErrorRecord("执行后端函数时发生意外错误: " + m)
  }

  /** The text the process printed, as `handle_output` accumulates it. */
  function Concat(chunks: seq<string>): string {
    if chunks == [] then [] else Concat(chunks[..|chunks| - 1]) + chunks[|chunks| - 1]
  }

  function YtDlpExe(w: World): string {
    BS.GetExecutablePath("yt-dlp.exe", w.env)
  }

  predicate YtDlpFound(w: World) {
    w.env.fileExists(YtDlpExe(w))
  }

  /** The step with strategy `s` starts the yt-dlp process. */
  predicate RunsYtDlp(s: SP.Strategy, w: World) {
    s == SP.YtDlp && YtDlpFound(w)
  }

  /** `buffer.strip().split("\n")[0]`: the line `handle_finish` decodes. */
  function JsonLine(buffer: string): string {
    FirstLine(Strip(buffer))
  }

  /** The dict `handle_finish` builds from the running flag, the exit code and the
      accumulated output: the first line of the stripped output, decoded and tagged with
      the engine, when the process exited with 0. */
  function SniffFinishResult(running: bool, exitCode: int, buffer: string, parse: string -> Json): (r: Record)
    ensures !running ==> r == ErrorRecord(Cancelled)
    ensures running && exitCode != 0 ==> !IsSuccess(r)
    ensures running && exitCode == 0 ==>
      match parse(JsonLine(buffer))
      case Object(d) => "engine" in r && r["engine"] == "yt-dlp" && (IsSuccess(r) <==> "error" !in d || d["error"] == "")
                        && forall k :: k in d && k != "engine" ==> k in r && r[k] == d[k]
      case Failed(m) => !IsSuccess(r)
  {
    if !running then ErrorRecord(Cancelled)
    else if exitCode == 0 then
      match parse(JsonLine(buffer))
      case Object(d) => d["engine" := "yt-dlp"]
      case Failed(m) => ErrorRecord("解析yt-dlp输出失败: " + m)
    else ErrorRecord("yt-dlp 执行失败 (代码: " + IntString(exitCode) + ")")
  }

  /** The result of `_run_yt_dlp_sniff_qprocess`; `running` is the flag when `handle_finish` runs. */
  function YtDlpResult(w: World, running: bool): Record {
    if !YtDlpFound(w) then ErrorRecord("yt-dlp.exe 未找到")
    else SniffFinishResult(running, w.ytDlp.exitCode, Concat(w.ytDlp.chunks), w.parse)
  }

  /** What one step of `_process_next_strategy` hands to `_handle_sniff_result`, or None
      when AVAILABLE_STRATEGIES has no backend for the strategy. */
  function AttemptResult(s: SP.Strategy, w: World, running: bool): Option<Record> {
    if s == SP.YtDlp then Some(YtDlpResult(w, running))
    else
      var available := SP.AvailableStrategies();
      if SP.Name(s) !in available || available[SP.Name(s)] == "" then None
      else Some(Handled(BackendCall(available[SP.Name(s)], w)))
  }

  /** How the steps of a chain turn out: the dict handed to `_handle_sniff_result` for a
      strategy and the running flag after its attempt, or None for a missing backend;
      and whether a stop request arrives during a strategy's attempt. */
  datatype Steps = Steps(result: (SP.Strategy, bool) -> Option<Record>, stopDuring: SP.Strategy -> bool)

  function StepsOf(w: World): Steps {
    Steps((s, running) => AttemptResult(s, w, running), w.stopDuring)
  }

  /** The step with strategy `s` ends the sniff with a success. */
  predicate Succeeds(s: SP.Strategy, st: Steps) {
    Ends(st.result(s, !st.stopDuring(s)))
  }

  function TryingLog(s: SP.Strategy): string {
    "<b>策略执行: 尝试使用 '" + SP.Name(s) + "' 引擎...</b>"
  }

  function ConfigErrorLog(s: SP.Strategy): string {
    "<font color='red'>配置错误：策略 '" + SP.Name(s) + "' 没有对应的后端函数。</font>"
  }

  function SuccessLog(s: SP.Strategy): string {
    "<font color='green'>策略 '" + SP.Name(s) + "' 成功找到资源！</font>"
  }

  function FailureLog(s: SP.Strategy, message: string): string {
    "策略 '" + SP.Name(s) + "' 失败: " + message
  }

  // ---------------------------------------------------------------------------
  // The sniff chain

  /** A run of the chain: the strategies popped, in order, the events emitted and the
      running flag at the end. */
  datatype Sniff = Sniff(attempted: seq<SP.Strategy>, events: seq<Event>, running: bool)

  function Prepend(attempted: seq<SP.Strategy>, events: seq<Event>, rest: Sniff): Sniff {
    Sniff(attempted + rest.attempted, events + rest.events, rest.running)
  }

  /** The step's result ends the sniff. */
  predicate Ends(res: Option<Record>) {
    res.Some? && IsSuccess(res.value)
  }

  /** The events after the attempt with strategy `s` gave `res`: the configuration error,
      or those of `_handle_sniff_result`. */
  function ResultEvents(s: SP.Strategy, res: Option<Record>, url: string, domain: string): seq<Event> {
    match res
    case None => [Log(ConfigErrorLog(s))]
    case Some(r) =>
      if IsSuccess(r) then [Log(SuccessLog(s)), Learned(domain, SP.Name(s)), SniffFinished(r, url)]
      else [Log(FailureLog(s, ErrorMessage(r)))]
  }

  /** The events of one step with strategy `s` whose attempt gave `res`. */
  function StepEvents(s: SP.Strategy, res: Option<Record>, url: string, domain: string): seq<Event> {
    [Log(TryingLog(s))] + ResultEvents(s, res, url, domain)
  }

  /** `_process_next_strategy` and `_handle_sniff_result` calling each other until the sniff
      ends; `domain` is `urlparse(original_url).netloc`. */
  function Chain(queue: seq<SP.Strategy>, running: bool, st: Steps, url: string, domain: string): (r: Sniff)
    ensures |r.attempted| <= |queue|
    decreases |queue|
  {
    if !running then Sniff([], [SniffFinished(ErrorRecord(Cancelled), url)], false)
    else if queue == [] then Sniff([], [SniffFinished(ErrorRecord(Exhausted), url)], true)
    else
      var s := queue[0];
      var after := !st.stopDuring(s);
      var res := st.result(s, after);
      if Ends(res) then Sniff([s], StepEvents(s, res, url, domain), after)
      else Prepend([s], StepEvents(s, res, url, domain), Chain(queue[1..], after, st, url, domain))
  }

  /** The dict of the last `sniff_finished`, or the empty one. */
  function Outcome(r: Sniff): Record {
    if r.events != [] && r.events[|r.events| - 1].SniffFinished? then r.events[|r.events| - 1].result else map[]
  }

  /** `urlparse(original_url).netloc`, the domain `_handle_sniff_result` records. */
  function Domain(w: World): string {
    if w.urlInfo.Some? then w.urlInfo.value.netloc else ""
  }

  function StartLog(url: string): string {
    "后台：启动智能策略嗅探 -> " + url
  }

  /** The experience data after a sniff: one success recorded for the last strategy tried
      when the sniff succeeded. */
  function LearnedData(data: SP.Experience, domain: string, r: Sniff): SP.Experience {
    if r.attempted != [] && IsSuccess(Outcome(r)) then SP.RecordSuccess(data, domain, SP.Name(r.attempted[|r.attempted| - 1]))
    else data
  }

  // ---------------------------------------------------------------------------
  // Properties of the chain

  /** Strategies are popped from the front, in queue order, each queue entry at most once.
      Every popped strategy but the last failed softly without a stop; the chain goes on
      while neither happens. A stopped worker pops nothing. */
  lemma {:induction false} ChainAttempts(queue: seq<SP.Strategy>, running: bool, st: Steps, url: string, domain: string)
    ensures var r := Chain(queue, running, st, url, domain);
      && |r.attempted| <= |queue| && r.attempted == queue[..|r.attempted|]
      && (forall i :: 0 <= i < |r.attempted| - 1 ==> !st.stopDuring(queue[i]) && !Succeeds(queue[i], st))
      && (!running ==> r.attempted == [] && r.events == [SniffFinished(ErrorRecord(Cancelled), url)])
      && (running && |r.attempted| < |queue| ==>
            r.attempted != [] && (st.stopDuring(queue[|r.attempted| - 1]) || Succeeds(queue[|r.attempted| - 1], st)))
    decreases |queue|
  {
    if running && queue != [] {
      var s := queue[0];
      var after := !st.stopDuring(s);
      var rest := Chain(queue[1..], after, st, url, domain);
      ChainAttempts(queue[1..], after, st, url, domain);
      var r := Chain(queue, running, st, url, domain);
      if !Succeeds(s, st) {
        assert r.attempted == [s] + rest.attempted;
        assert queue == [s] + queue[1..];
        forall i | 0 <= i < |r.attempted| - 1
          ensures !st.stopDuring(queue[i]) && !Succeeds(queue[i], st)
        {
          if i > 0 {
            assert queue[i] == queue[1..][i - 1];
          }
        }
        if |r.attempted| < |queue| && !after {
          assert rest.attempted == [];
        }
      }
    }
  }

  /** `e` holds exactly one `sniff_finished`, as its last event, for `url`. */
  predicate FinishesOnce(e: seq<Event>, url: string) {
    && e != [] && e[|e| - 1].SniffFinished? && e[|e| - 1].url == url
    && forall i :: 0 <= i < |e| - 1 ==> !e[i].SniffFinished?
  }

  /** Exactly one `sniff_finished` is emitted, as the last event, for the original URL. */
  lemma {:induction false} ChainFinishesOnce(queue: seq<SP.Strategy>, running: bool, st: Steps, url: string, domain: string)
    ensures FinishesOnce(Chain(queue, running, st, url, domain).events, url)
    decreases |queue|
  {
    if running && queue != [] && !Succeeds(queue[0], st) {
      var after := !st.stopDuring(queue[0]);
      ChainFinishesOnce(queue[1..], after, st, url, domain);
      ChainUnfold(queue, st, url, domain);
      FinishesOnceAfterLogs(StepEvents(queue[0], st.result(queue[0], after), url, domain),
                            Chain(queue[1..], after, st, url, domain).events, url);
    }
  }

  lemma FinishesOnceAfterLogs(head: seq<Event>, rest: seq<Event>, url: string)
    requires forall i :: 0 <= i < |head| ==> head[i].Log?
    requires FinishesOnce(rest, url)
    ensures FinishesOnce(head + rest, url)
  {
    var e := head + rest;
    forall i | 0 <= i < |e| - 1
      ensures !e[i].SniffFinished?
    {
      if i >= |head| {
        assert e[i] == rest[i - |head|];
      }
    }
  }

  lemma {:induction false} ChainEmits(queue: seq<SP.Strategy>, running: bool, st: Steps, url: string, domain: string)
    ensures Chain(queue, running, st, url, domain).events != []
    decreases |queue|
  {
    if running && queue != [] && !Succeeds(queue[0], st) {
      ChainEmits(queue[1..], !st.stopDuring(queue[0]), st, url, domain);
    }
  }

  /** A sniff that ends with a success got it from the last strategy tried, and then
      `update_experience_data(domain, name)` for that strategy comes just before
      `sniff_finished`. */
  predicate SucceededWith(r: Sniff, st: Steps, domain: string) {
    && r.attempted != [] && |r.events| >= 2
    && var s := r.attempted[|r.attempted| - 1];
    && Succeeds(s, st) && st.result(s, !st.stopDuring(s)) == Some(Outcome(r))
    && r.events[|r.events| - 2] == Learned(domain, SP.Name(s))
  }

  lemma {:induction false} ChainSuccess(queue: seq<SP.Strategy>, running: bool, st: Steps, url: string, domain: string)
    ensures var r := Chain(queue, running, st, url, domain);
      IsSuccess(Outcome(r)) ==> SucceededWith(r, st, domain)
    decreases |queue|
  {
    if running && queue != [] && !Succeeds(queue[0], st) {
      var after := !st.stopDuring(queue[0]);
      ChainSuccess(queue[1..], after, st, url, domain);
      ChainUnfold(queue, st, url, domain);
      ChainEmits(queue[1..], after, st, url, domain);
      var e := StepEvents(queue[0], st.result(queue[0], after), url, domain);
      PrependLogs(queue[0], e, Chain(queue[1..], after, st, url, domain), st, domain);
    }
  }

  /** A sniff that does not end with a success ends with the "cancelled" or the "all
      strategies tried" error. */
  lemma {:induction false} ChainError(queue: seq<SP.Strategy>, running: bool, st: Steps, url: string, domain: string)
    ensures var r := Chain(queue, running, st, url, domain);
      !IsSuccess(Outcome(r)) ==> Outcome(r) == ErrorRecord(Cancelled) || Outcome(r) == ErrorRecord(Exhausted)
    decreases |queue|
  {
    if running && queue != [] && !Succeeds(queue[0], st) {
      var after := !st.stopDuring(queue[0]);
      ChainError(queue[1..], after, st, url, domain);
      ChainUnfold(queue, st, url, domain);
      ChainEmits(queue[1..], after, st, url, domain);
      var e := StepEvents(queue[0], st.result(queue[0], after), url, domain);
      PrependLogs(queue[0], e, Chain(queue[1..], after, st, url, domain), st, domain);
    }
  }

  /** Two log lines and a strategy in front of a sniff that emitted something keep its
      outcome, and its success shape. */
  lemma PrependLogs(s: SP.Strategy, e: seq<Event>, rest: Sniff, st: Steps, domain: string)
    requires |e| == 2 && e[0].Log? && e[1].Log? && rest.events != []
    ensures var r := Sniff([s] + rest.attempted, e + rest.events, rest.running);
      && Outcome(r) == Outcome(rest)
      && (SucceededWith(rest, st, domain) ==> SucceededWith(r, st, domain))
  {
    var r := Sniff([s] + rest.attempted, e + rest.events, rest.running);
    FromEnd(e, rest.events, 0);
    if SucceededWith(rest, st, domain) {
      FromEnd([s], rest.attempted, 0);
      FromEnd(e, rest.events, 1);
    }
  }

  /** A first step that does not end the sniff adds its two log lines and its strategy in
      front of the chain on the rest of the queue. */
  lemma ChainUnfold(queue: seq<SP.Strategy>, st: Steps, url: string, domain: string)
    requires queue != [] && !Succeeds(queue[0], st)
    ensures var s := queue[0];
      var after := !st.stopDuring(s);
      var r := Chain(queue, true, st, url, domain);
      var rest := Chain(queue[1..], after, st, url, domain);
      var e := StepEvents(s, st.result(s, after), url, domain);
      && |e| == 2 && e[0].Log? && e[1].Log?
      && r == Sniff([s] + rest.attempted, e + rest.events, rest.running)
  {
  }

  /** Every `update_experience_data` event in `e` sits just before its last event. */
  predicate LearnedOnlyLast(e: seq<Event>) {
    forall i :: 0 <= i < |e| && e[i].Learned? ==> i == |e| - 2
  }

  predicate NoLearned(e: seq<Event>) {
    forall i :: 0 <= i < |e| ==> !e[i].Learned?
  }

  lemma LearnedAfterLogs(head: seq<Event>, rest: seq<Event>)
    requires forall i :: 0 <= i < |head| ==> head[i].Log?
    ensures LearnedOnlyLast(rest) ==> LearnedOnlyLast(head + rest)
    ensures NoLearned(rest) ==> NoLearned(head + rest)
  {
    var e := head + rest;
    forall i | |head| <= i < |e|
      ensures e[i] == rest[i - |head|]
    {
    }
  }

  /** `update_experience_data` is called at most once, only in a sniff that succeeds and
      only as the event before `sniff_finished`. */
  lemma {:induction false} ChainLearnsOnce(queue: seq<SP.Strategy>, running: bool, st: Steps, url: string, domain: string)
    ensures var r := Chain(queue, running, st, url, domain);
      LearnedOnlyLast(r.events) && (IsSuccess(Outcome(r)) || NoLearned(r.events))
    decreases |queue|
  {
    if running && queue != [] && !Succeeds(queue[0], st) {
      var after := !st.stopDuring(queue[0]);
      ChainLearnsOnce(queue[1..], after, st, url, domain);
      ChainUnfold(queue, st, url, domain);
      ChainEmits(queue[1..], after, st, url, domain);
      var e := StepEvents(queue[0], st.result(queue[0], after), url, domain);
      var rest := Chain(queue[1..], after, st, url, domain);
      PrependLogs(queue[0], e, rest, st, domain);
      LearnedAfterLogs(e, rest.events);
    }
  }

  /** When no strategy succeeds and no stop arrives, every strategy is tried and the
      sniff ends with "all strategies tried". */
  lemma {:induction false} ChainExhausted(queue: seq<SP.Strategy>, st: Steps, url: string, domain: string)
    requires forall i :: 0 <= i < |queue| ==> !st.stopDuring(queue[i]) && !Succeeds(queue[i], st)
    ensures var r := Chain(queue, true, st, url, domain);
      r.attempted == queue && Outcome(r) == ErrorRecord(Exhausted) && r.running
    decreases |queue|
  {
    if queue != [] {
      assert !st.stopDuring(queue[0]) && !Succeeds(queue[0], st);
      forall i | 0 <= i < |queue[1..]|
        ensures !st.stopDuring(queue[1..][i]) && !Succeeds(queue[1..][i], st)
      {
        assert queue[1..][i] == queue[i + 1];
      }
      ChainExhausted(queue[1..], st, url, domain);
      var rest := Chain(queue[1..], true, st, url, domain);
      var r := Chain(queue, true, st, url, domain);
      assert r.attempted == [queue[0]] + rest.attempted;
      assert |r.events| == 2 + |rest.events| && r.events[|r.events| - 1] == rest.events[|rest.events| - 1];
    }
  }

  /** A result a backend returns reaches `sniff_finished` unchanged when it is a success:
      the corrected call passes the backend's own dict through. */
  lemma BackendSuccessReported(queue: seq<SP.Strategy>, w: World, url: string, domain: string, r: Record)
    requires queue != [] && queue[0] != SP.YtDlp && IsSuccess(r)
    requires SP.MetadataOf(queue[0]).backend.Some?
    requires SP.MetadataOf(queue[0]).backend.value in BackendFunctions
    requires w.call(SP.MetadataOf(queue[0]).backend.value) == Returned(r)
    ensures var c := Chain(queue, true, StepsOf(w), url, domain);
      c.attempted == [queue[0]] && Outcome(c) == r
      && c.events[|c.events| - 2] == Learned(domain, SP.Name(queue[0]))
  {
    SP.AvailableStrategiesExactly(queue[0]);
    assert AttemptResult(queue[0], w, !w.stopDuring(queue[0])) == Some(r);
  }

  /** The call as written turns the same successful backend into an error, so the chain
      moves on to the next strategy (or ends with "all strategies tried"). */
  lemma AsWrittenLosesBackendResult(name: string, w: World, r: Record)
    requires name in BackendFunctions && w.call(name) == Returned(r) && IsSuccess(r)
    ensures IsSuccess(Handled(BackendCall(name, w)))
    ensures !IsSuccess(Handled(BackendCallAsWritten(name, w)))
    ensures ErrorMessage(Handled(BackendCallAsWritten(name, w))) ==
      "执行后端函数时发生意外错误: " + name + "() got an unexpected keyword argument 'context_worker'"
  {
  }

  // ---------------------------------------------------------------------------
  // Progress lines of a yt-dlp download

  const ProgressMarker: string := "download-stream:"

  /** The end of the run of characters satisfying `p` that starts at `i`. */
  function RunWhile(s: string, i: nat, p: char -> bool): (j: nat)
    requires i <= |s|
    ensures i <= j <= |s|
    ensures forall k :: i <= k < j ==> p(s[k])
    ensures j < |s| ==> !p(s[j])
    decreases |s| - i
  {
    if i < |s| && p(s[i]) then RunWhile(s, i + 1, p) else i
  }

  /** A match of `download-stream:(\s*\d+\.?\d*%)` starting at `p`, and the integer part
      of its number, which `int(float(...))` keeps. */
  function ProgressAt(s: string, p: nat): Option<nat> {
    if !(p + |ProgressMarker| <= |s| && s[p..p + |ProgressMarker|] == ProgressMarker) then None
    else
      var a := RunWhile(s, p + |ProgressMarker|, IsSpace);
      var b := RunWhile(s, a, IsDigit);
      if b == a then None
      else
        var c := if b < |s| && s[b] == '.' then RunWhile(s, b + 1, IsDigit) else b;
        if c < |s| && s[c] == '%' then Some(DigitsValue(s[a..b])) else None
  }

  /** `progress_pattern.search(line)` from position `p` on: the leftmost match wins. */
  function ProgressFrom(s: string, p: nat): Option<nat>
    decreases |s| + 1 - p
  {
    if p > |s| then None
    else if ProgressAt(s, p).Some? then ProgressAt(s, p)
    else ProgressFrom(s, p + 1)
  }

  function Progress(line: string): Option<nat> {
    ProgressFrom(line, 0)
  }

  /** A line without the marker emits no progress. */
  lemma {:induction false} ProgressNeedsMarker(s: string, p: nat)
    ensures ProgressFrom(s, p).Some? ==> Contains(s, ProgressMarker)
    decreases |s| + 1 - p
  {
    if p <= |s| {
      if ProgressAt(s, p).Some? {
        assert OccursAt(s, ProgressMarker, p);
        OccursContains(s, ProgressMarker, p);
      } else {
        ProgressNeedsMarker(s, p + 1);
      }
    }
  }

  /** `RunWhile` stops at the first character outside `p`. */
  lemma RunWhileAt(s: string, i: nat, j: nat, p: char -> bool)
    requires i <= j <= |s|
    requires forall k :: i <= k < j ==> p(s[k])
    requires j == |s| || !p(s[j])
    ensures RunWhile(s, i, p) == j
    decreases j - i
  {
    if i < j {
      RunWhileAt(s, i + 1, j, p);
    }
  }

  /** The line yt-dlp prints for the progress template, `download-stream:` and a percentage
      such as ` 12.5%`, gives the integer part of the percentage. */
  lemma ProgressOfTemplate(spaces: string, n: nat, fraction: nat)
    requires forall k :: 0 <= k < |spaces| ==> IsSpace(spaces[k])
    ensures Progress(ProgressMarker + spaces + NatString(n) + "." + NatString(fraction) + "%") == Some(n)
  {
    var digits, frac := NatString(n), NatString(fraction);
    var s := ProgressMarker + spaces + digits + "." + frac + "%";
    var a := |ProgressMarker| + |spaces|;
    var b := a + |digits|;
    var c := b + 1 + |frac|;
    assert s[..|ProgressMarker|] == ProgressMarker;
    assert |s| == c + 1;
    RunWhileAt(s, |ProgressMarker|, a, IsSpace);
    assert s[a..b] == digits;
    RunWhileAt(s, a, b, IsDigit);
    assert s[b] == '.';
    assert s[b + 1..c] == frac;
    RunWhileAt(s, b + 1, c, IsDigit);
    assert s[c] == '%';
    assert ProgressAt(s, 0) == Some(n);
  }

  /** The events one output line gives: the stripped line when it is not blank, then its
      progress value when it matches. */
  function LineEvents(line: string): seq<Event> {
    LineLog(Strip(line)) + ProgressEvent(Progress(line))
  }

  /** The log line of a stripped output line, unless it is empty. */
  function LineLog(text: string): seq<Event> {
    if text != [] then [Log("[yt-dlp] " + text)] else []
  }

  function ProgressEvent(p: Option<nat>): seq<Event> {
    match p case Some(n) => [DownloadProgress(n)] case None => []
  }

  function OptionValue(p: Option<nat>): seq<int> {
    match p case Some(n) => [n as int] case None => []
  }

  function OutputEvents(lines: seq<string>): seq<Event> {
    if lines == [] then [] else OutputEvents(lines[..|lines| - 1]) + LineEvents(lines[|lines| - 1])
  }

  /** The progress values among some events, in order. */
  function ProgressValues(events: seq<Event>): seq<int> {
    if events == [] then []
    else ProgressValues(events[..|events| - 1])
         + (if events[|events| - 1].DownloadProgress? then [events[|events| - 1].percent] else [])
  }

  /** The progress value of a matching line. */
  function LineMatched(line: string): seq<int> {
    OptionValue(Progress(line))
  }

  /** The progress values of the matching lines, in order. */
  function Matched(lines: seq<string>): seq<int> {
    if lines == [] then [] else Matched(lines[..|lines| - 1]) + LineMatched(lines[|lines| - 1])
  }

  lemma {:induction false} ProgressValuesAppend(a: seq<Event>, b: seq<Event>)
    ensures ProgressValues(a + b) == ProgressValues(a) + ProgressValues(b)
    decreases |b|
  {
    if b != [] {
      var init, last := b[..|b| - 1], b[|b| - 1];
      var t: seq<int> := if last.DownloadProgress? then [last.percent] else [];
      ProgressValuesAppend(a, init);
      assert (a + b)[..|a + b| - 1] == a + init;
      assert (a + b)[|a + b| - 1] == last;
      assert ProgressValues(a + b) == ProgressValues(a + init) + t;
      assert ProgressValues(b) == ProgressValues(init) + t;
      Associative(ProgressValues(a), ProgressValues(init), t);
    } else {
      assert a + b == a;
    }
  }

  /** Every event in `e` is a log line or a progress value. */
  predicate LogsAndProgress(e: seq<Event>) {
    forall i :: 0 <= i < |e| ==> e[i].Log? || e[i].DownloadProgress?
  }

  lemma LogsAndProgressAppend(a: seq<Event>, b: seq<Event>)
    requires LogsAndProgress(a) && LogsAndProgress(b)
    ensures LogsAndProgress(a + b)
  {
    forall i | |a| <= i < |a + b|
      ensures (a + b)[i] == b[i - |a|]
    {
    }
  }

  /** A line's events: its log line, then its progress value when it matches. */
  lemma LineProgress(line: string)
    ensures ProgressValues(LineEvents(line)) == LineMatched(line)
    ensures LogsAndProgress(LineEvents(line))
  {
    LineParts(Strip(line), Progress(line));
  }

  lemma LineParts(text: string, p: Option<nat>)
    ensures ProgressValues(LineLog(text) + ProgressEvent(p)) == OptionValue(p)
    ensures LogsAndProgress(LineLog(text) + ProgressEvent(p))
  {
    ProgressValuesAppend(LineLog(text), ProgressEvent(p));
    assert ProgressValues(LineLog(text)) == [];
    LogsAndProgressAppend(LineLog(text), ProgressEvent(p));
  }

  /** Only matching lines emit progress, one value each, in line order; every other event
      is a log line. */
  lemma {:induction false} OutputProgress(lines: seq<string>)
    ensures ProgressValues(OutputEvents(lines)) == Matched(lines)
    ensures LogsAndProgress(OutputEvents(lines))
    decreases |lines|
  {
    if lines != [] {
      var init, line := lines[..|lines| - 1], lines[|lines| - 1];
      OutputProgress(init);
      LineProgress(line);
      var before, now := OutputEvents(init), LineEvents(line);
      ProgressValuesAppend(before, now);
      LogsAndProgressAppend(before, now);
    }
  }

  /** The events after `_on_yt_dlp_output` has logged the final output: `running` is the flag. */
  function FinishEvents(running: bool, exitCode: int, crashed: bool): (e: seq<Event>)
    ensures e != [] && e[|e| - 1].DownloadFinished?
    ensures e[|e| - 1].ok <==> running && exitCode == 0
    ensures !running ==> e == [DownloadFinished(false, Cancelled)]
    ensures running && exitCode == 0 ==> e == [DownloadProgress(100), DownloadFinished(true, DownloadDone)]
  {
    if !running then [DownloadFinished(false, Cancelled)]
    else if exitCode == 0 then [DownloadProgress(100), DownloadFinished(true, DownloadDone)]
    else [DownloadFinished(false, "下载失败 (代码: " + IntString(exitCode) + ", 状态: " + (if crashed then "崩溃" else "正常退出") + ")")]
  }

  lemma PrependAssoc(a: seq<SP.Strategy>, b: seq<SP.Strategy>, e: seq<Event>, f: seq<Event>, r: Sniff)
    ensures Prepend(a, e, Prepend(b, f, r)) == Prepend(a + b, e + f, r)
  {
    assert a + (b + r.attempted) == (a + b) + r.attempted;
    assert e + (f + r.events) == (e + f) + r.events;
  }

  /** A first step that ends the sniff is the whole chain, and records its strategy. */
  lemma ChainHeadEnds(q: seq<SP.Strategy>, st: Steps, url: string, domain: string, data: SP.Experience)
    requires q != [] && Succeeds(q[0], st)
    ensures var s := q[0];
      var after := !st.stopDuring(s);
      var r := Chain(q, true, st, url, domain);
      && r == Sniff([s], StepEvents(s, st.result(s, after), url, domain), after)
      && LearnedData(data, domain, r) == SP.RecordSuccess(data, domain, SP.Name(s))
  {
    var s := q[0];
    var res := st.result(s, !st.stopDuring(s));
    var e := StepEvents(s, res, url, domain);
    assert e[|e| - 1] == SniffFinished(res.value, url);
  }

  /** Any other first step is followed by the chain on the rest of the queue, which decides
      what is learned. */
  lemma ChainHeadGoesOn(q: seq<SP.Strategy>, st: Steps, url: string, domain: string, data: SP.Experience)
    requires q != [] && !Succeeds(q[0], st)
    ensures var s := q[0];
      var after := !st.stopDuring(s);
      var r := Chain(q, true, st, url, domain);
      var rest := Chain(q[1..], after, st, url, domain);
      && r == Prepend([s], StepEvents(s, st.result(s, after), url, domain), rest)
      && LearnedData(data, domain, r) == LearnedData(data, domain, rest)
  {
    var s := q[0];
    var after := !st.stopDuring(s);
    ChainUnfold(q, st, url, domain);
    ChainEmits(q[1..], after, st, url, domain);
    NothingAttempted(q[1..], after, st, url, domain);
    LearnedPrepend(s, StepEvents(s, st.result(s, after), url, domain), Chain(q[1..], after, st, url, domain), st, data, domain);
  }

  /** What is learned from a sniff does not change when a failed step comes before it. */
  lemma LearnedPrepend(s: SP.Strategy, e: seq<Event>, rest: Sniff, st: Steps, data: SP.Experience, domain: string)
    requires |e| == 2 && e[0].Log? && e[1].Log? && rest.events != []
    requires rest.attempted == [] ==> !IsSuccess(Outcome(rest))
    ensures LearnedData(data, domain, Sniff([s] + rest.attempted, e + rest.events, rest.running)) == LearnedData(data, domain, rest)
  {
    PrependLogs(s, e, rest, st, domain);
    if rest.attempted != [] {
      FromEnd([s], rest.attempted, 0);
    }
  }

  /** A chain that pops no strategy ends with an error. */
  lemma NothingAttempted(q: seq<SP.Strategy>, running: bool, st: Steps, url: string, domain: string)
    ensures var r := Chain(q, running, st, url, domain);
      r.attempted == [] ==> !IsSuccess(Outcome(r))
  {
    if !running || q == [] {
      assert !IsSuccess(ErrorRecord(if running then Exhausted else Cancelled));
    }
  }

  /** The chain's last step with a stopped worker or an empty queue. */
  lemma ChainEnd(q: seq<SP.Strategy>, running: bool, st: Steps, url: string, domain: string, data: SP.Experience)
    requires !running || q == []
    ensures var r := Chain(q, running, st, url, domain);
      r == Sniff([], [SniffFinished(ErrorRecord(if running then Exhausted else Cancelled), url)], running)
      && LearnedData(data, domain, r) == data
  {
    assert !IsSuccess(ErrorRecord(if running then Exhausted else Cancelled));
  }

  /** The `k`-th element from the end of `a + b` is that of `b`. */
  lemma FromEnd<T>(a: seq<T>, b: seq<T>, k: nat)
    requires k < |b|
    ensures (a + b)[|a + b| - 1 - k] == b[|b| - 1 - k]
  {
  }

  lemma Associative<T>(a: seq<T>, b: seq<T>, c: seq<T>)
    ensures (a + b) + c == a + (b + c)
  {
  }

  /** The fields of a worker that a sniff changes. */
  datatype Snapshot = Snapshot(queue: seq<SP.Strategy>, running: bool, process: Option<Process>, buffer: string, events: seq<Event>)

  /** The fields after one call of `_process_next_strategy` with the first queued strategy:
      it is popped, the running flag is the one after its attempt, a yt-dlp run leaves no
      process and its output in the buffer, and the step's events are emitted. */
  function StepState(s: Snapshot, w: World, url: string, domain: string): Snapshot
    requires s.queue != []
  {
    var q := s.queue[0];
    var after := !w.stopDuring(q);
    var ran := RunsYtDlp(q, w);
    Snapshot(s.queue[1..], after, if ran then None else s.process, if ran then Concat(w.ytDlp.chunks) else s.buffer,
             s.events + StepEvents(q, AttemptResult(q, w, after), url, domain))
  }

  /** The fields after the whole chain: the strategies it pops are gone from the queue, the
      running flag is the chain's, a yt-dlp run among the attempts leaves no process and its
      output in the buffer, and the chain's events are emitted. */
  function ChainState(s: Snapshot, w: World, url: string, domain: string): Snapshot {
    After(s, Chain(s.queue, s.running, StepsOf(w), url, domain), w)
  }

  /** The fields after a run `r` of the chain from `s`. */
  function After(s: Snapshot, r: Sniff, w: World): Snapshot {
    var ran := SP.YtDlp in r.attempted && YtDlpFound(w);
    Snapshot(if |r.attempted| <= |s.queue| then s.queue[|r.attempted|..] else [], r.running,
             if ran then None else s.process, if ran then Concat(w.ytDlp.chunks) else s.buffer, s.events + r.events)
  }

  /** A run that is one step from `s` leaves the fields that step leaves. */
  lemma AfterOne(s: Snapshot, q: SP.Strategy, e: seq<Event>, running: bool, w: World, s': Snapshot)
    requires s.queue != [] && s.queue[0] == q
    requires s' == Snapshot(s.queue[1..], running, if RunsYtDlp(q, w) then None else s.process,
                            if RunsYtDlp(q, w) then Concat(w.ytDlp.chunks) else s.buffer, s.events + e)
    ensures After(s, Sniff([q], e, running), w) == s'
  {
  }

  /** A run that is a step followed by the run `rest` leaves the fields `rest` leaves after
      that step. */
  lemma AfterPrepend(s: Snapshot, q: SP.Strategy, e: seq<Event>, rest: Sniff, w: World, s': Snapshot)
    requires s.queue != [] && s.queue[0] == q && |rest.attempted| < |s.queue|
    requires s' == Snapshot(s.queue[1..], s'.running, if RunsYtDlp(q, w) then None else s.process,
                            if RunsYtDlp(q, w) then Concat(w.ytDlp.chunks) else s.buffer, s.events + e)
    ensures After(s, Prepend([q], e, rest), w) == After(s', rest, w)
  {
    assert s.queue[1 + |rest.attempted|..] == s.queue[1..][|rest.attempted|..];
    assert SP.YtDlp in [q] + rest.attempted <==> q == SP.YtDlp || SP.YtDlp in rest.attempted;
    Associative(s.events, e, rest.events);
  }

  /** The chain from a worker state is its first step followed by the chain from the state
      after that step, unless the step ended the sniff. */
  lemma ChainStep(s: Snapshot, w: World, url: string, domain: string, data: SP.Experience)
    requires s.running && s.queue != []
    ensures var q := s.queue[0];
      var done := Ends(AttemptResult(q, w, !w.stopDuring(q)));
      var r := Chain(s.queue, true, StepsOf(w), url, domain);
      var s' := StepState(s, w, url, domain);
      && (done ==> ChainState(s, w, url, domain) == s'
                   && LearnedData(data, domain, r) == SP.RecordSuccess(data, domain, SP.Name(q)))
      && (!done ==> ChainState(s, w, url, domain) == ChainState(s', w, url, domain)
                    && LearnedData(data, domain, r) == LearnedData(data, domain, Chain(s'.queue, s'.running, StepsOf(w), url, domain)))
  {
    var q := s.queue[0];
    var after := !w.stopDuring(q);
    var st := StepsOf(w);
    var res := AttemptResult(q, w, after);
    assert st.result(q, after) == res;
    var e := StepEvents(q, res, url, domain);
    var s' := StepState(s, w, url, domain);
    if Ends(res) {
      ChainHeadEnds(s.queue, st, url, domain, data);
      AfterOne(s, q, e, after, w, s');
    } else {
      ChainHeadGoesOn(s.queue, st, url, domain, data);
      AfterPrepend(s, q, e, Chain(s.queue[1..], after, st, url, domain), w, s');
    }
  }

  // ---------------------------------------------------------------------------
  // The worker object

  /** The keyword arguments the GUI passes. */
  datatype Kwargs = Kwargs(url: string, resourceType: string, formats: string, downloadPath: string, directUrl: string)

  /** A started QProcess: its process id, whether it is still running, and its command. */
  datatype Process = Process(pid: nat, live: bool, program: string, args: seq<string>)

  /** A registered stoppable resource; only a Chrome driver is told to quit. */
  datatype Resource = Resource(isChrome: bool)

  /** What a download depends on besides the worker's fields. */
  datatype DownloadWorld = DownloadWorld(
    env: BS.Environment,
    pid: nat,
    reply: BS.DirectReply,
    pathOf: string -> string,
    now: nat,
    pct: nat -> int,          // the double-precision percentage of the bytes so far
    stopDuring: bool)         // whether `stop()` arrives while the direct download runs

  /** The progress values `download_direct_link` passes to its callback. */
  function DirectProgress(reply: BS.DirectReply, pct: nat -> int): seq<int> {
    match reply
    case Body(total, chunks) => BS.StreamProgress(total, chunks, pct) + [100]
    case Broken(total, chunks, _) => BS.StreamProgress(total, chunks, pct)
    case _ => []
  }

  function ProgressEvents(p: seq<int>): (e: seq<Event>)
    ensures |e| == |p| && forall i :: 0 <= i < |p| ==> e[i] == DownloadProgress(p[i])
    ensures ProgressValues(e) == p
  {
    if p == [] then []
    else
      var e := ProgressEvents(p[..|p| - 1]) + [DownloadProgress(p[|p| - 1])];
      assert e[..|e| - 1] == ProgressEvents(p[..|p| - 1]);
      e
  }

  function StopLogs(process: Option<Process>, resource: Option<Resource>): seq<Event> {
    if process.Some? && process.value.live then [Log("正在终止 QProcess (PID: " + NatString(process.value.pid) + ")...")]
    else if resource.Some? then (if resource.value.isChrome then [Log("正在关闭浏览器驱动...")] else [])
    else [Log("没有活动的嗅探资源或下载子进程需要停止。")]
  }

  /** The fields after `_run_intelligent_sniff` with experience data `data`: the start log,
      then "no applicable strategy" for an empty queue (only while running), or the chain
      over the selected queue. */
  function SniffState(s: Snapshot, url: string, data: SP.Experience, w: World): Snapshot {
    var queue := SP.SelectBestStrategy(w.urlInfo, data);
    var started := Snapshot(queue, s.running, s.process, s.buffer, s.events + [Log(StartLog(url))]);
    if queue == [] then started.(events := started.events + if s.running then [SniffFinished(ErrorRecord(NoStrategy), url)] else [])
    else ChainState(started, w, url, Domain(w))
  }

  /** The experience data after `_run_intelligent_sniff`. */
  function SniffLearned(url: string, running: bool, data: SP.Experience, w: World): SP.Experience {
    var queue := SP.SelectBestStrategy(w.urlInfo, data);
    if queue == [] then data else LearnedData(data, Domain(w), Chain(queue, running, StepsOf(w), url, Domain(w)))
  }

  /** A sniff logs its start first. It then emits exactly one `sniff_finished`, as its last
      event, unless it was stopped with nothing to try; an empty queue on a running worker
      ends with "no applicable strategy". */
  lemma SniffEvents(s: Snapshot, url: string, data: SP.Experience, w: World)
    ensures var s' := SniffState(s, url, data, w);
      var queue := SP.SelectBestStrategy(w.urlInfo, data);
      && |s'.events| > |s.events| && s'.events[..|s.events| + 1] == s.events + [Log(StartLog(url))]
      && (s.running || queue != [] ==> FinishesOnce(s'.events[|s.events| + 1..], url))
      && (!s.running && queue == [] ==> s'.events == s.events + [Log(StartLog(url))])
      && (s.running && queue == [] ==> s'.events == s.events + [Log(StartLog(url)), SniffFinished(ErrorRecord(NoStrategy), url)])
  {
    var queue := SP.SelectBestStrategy(w.urlInfo, data);
    var s' := SniffState(s, url, data, w);
    var head := s.events + [Log(StartLog(url))];
    if queue != [] {
      var r := Chain(queue, s.running, StepsOf(w), url, Domain(w));
      ChainFinishesOnce(queue, s.running, StepsOf(w), url, Domain(w));
      assert s'.events == head + r.events;
      assert s'.events[|s.events| + 1..] == r.events;
    } else if s.running {
      assert s'.events[|s.events| + 1..] == [SniffFinished(ErrorRecord(NoStrategy), url)];
    }
  }

  /** The fields after `_run_yt_dlp_download_qprocess` and `_run_direct_download`. */
  function DownloadState(s: Snapshot, k: Kwargs, dl: DownloadWorld): Snapshot {
    if !s.running then s.(events := s.events + [DownloadFinished(false, CancelledBeforeStart)])
    else if k.resourceType == "yt-dlp" then
      var cmd := BS.BuildDownloadCommand(k.url, k.formats, k.downloadPath, None, dl.env);
      s.(process := Some(Process(dl.pid, true, cmd[0], cmd[1..])))
    else s.(running := !dl.stopDuring, events := s.events + DirectEvents(dl))
  }

  /** The message `download_direct_link` returns. */
  function DirectMessage(reply: BS.DirectReply): string {
    match reply
    case Refused(e) => e
    case BadLength(e) => e
    case Body(_, _) => DownloadDone
    case Broken(_, _, e) => e
  }

  /** The events of a direct download a running worker started: the progress values, then
      the result, or the "cancelled" error when a stop arrived meanwhile. */
  function DirectEvents(dl: DownloadWorld): seq<Event> {
    ProgressEvents(DirectProgress(dl.reply, dl.pct))
    + [if dl.stopDuring then DownloadFinished(false, Cancelled) else DownloadFinished(dl.reply.Body?, DirectMessage(dl.reply))]
  }

  /** A direct download ends with exactly one `download_finished`, which succeeds only for
      a complete body without a stop; every event before it is a progress value, and those
      are the values `download_direct_link` passes to its callback. */
  lemma DirectDownloadEvents(dl: DownloadWorld)
    ensures var e := DirectEvents(dl);
      && e != [] && e[|e| - 1].DownloadFinished?
      && (forall i :: 0 <= i < |e| - 1 ==> e[i].DownloadProgress?)
      && (e[|e| - 1].ok <==> dl.reply.Body? && !dl.stopDuring)
      && ProgressValues(e) == DirectProgress(dl.reply, dl.pct)
  {
    var p := DirectProgress(dl.reply, dl.pct);
    var e := DirectEvents(dl);
    var last := e[|e| - 1];
    ProgressValuesAppend(ProgressEvents(p), [last]);
    assert ProgressValues([last]) == [];
    assert e[..|e| - 1] == ProgressEvents(p);
  }

  /** The progress values of a direct download never go down and stay within 0..100 when
      the body is no longer than its content-length; a complete body ends them with 100, a
      body broken off ends them with the last chunk's percentage and no 100, and a refused
      request or a bad length reports none. */
  lemma DirectProgressRises(reply: BS.DirectReply, pct: nat -> int)
    requires (reply.Body? || reply.Broken?) && reply.total > 0 ==> BS.DoubleRounding(pct, reply.total)
    ensures reply.Body? && (reply.total > 0 ==> BS.Sum(reply.chunks) <= reply.total) ==>
      var p := DirectProgress(reply, pct);
      p != [] && p[|p| - 1] == 100 && BS.RisesWithin(p, 100)
    ensures reply.Broken? && (reply.total > 0 ==> BS.Sum(reply.chunks) <= reply.total) ==>
      var p := DirectProgress(reply, pct);
      && p == BS.StreamProgress(reply.total, reply.chunks, pct) && BS.RisesWithin(p, 100)
      && (p != [] ==> p[|p| - 1] == pct(BS.Sum(reply.chunks)))
    ensures reply.Refused? || reply.BadLength? ==> DirectProgress(reply, pct) == []
  {
    if (reply.Body? || reply.Broken?) && (reply.total > 0 ==> BS.Sum(reply.chunks) <= reply.total) {
      var q := BS.StreamProgress(reply.total, reply.chunks, pct);
      StreamRises(reply.total, reply.chunks, pct);
      if reply.Body? {
        BS.RisesWithinExtend(q, 100, 100, [100]);
      }
    }
  }

  /** The chunk loop's values rise within 0..100 and the last is the whole body's. */
  lemma StreamRises(total: int, chunks: seq<nat>, pct: nat -> int)
    requires total > 0 ==> BS.DoubleRounding(pct, total) && BS.Sum(chunks) <= total
    ensures var q := BS.StreamProgress(total, chunks, pct);
      BS.RisesWithin(q, 100) && (q != [] ==> q[|q| - 1] == pct(BS.Sum(chunks)))
  {
    var q := BS.StreamProgress(total, chunks, pct);
    if total > 0 {
      BS.PercentagesGrow(chunks, pct, total);
      BS.PercentagesLast(chunks, pct);
      BS.RisesWithinExtend(q, pct(BS.Sum(chunks)), 100, []);
      assert q + [] == q;
    }
  }

  class Worker {
    const taskType: string
    const kwargs: Kwargs
    var process: Option<Process>
    var running: bool
    var stoppable: Option<Resource>
    var outputBuffer: string
    var originalUrl: string
    var strategyQueue: seq<SP.Strategy>
    /** The signals emitted so far, oldest first. */
    var events: seq<Event>

    constructor (taskType: string, kwargs: Kwargs)
      ensures this.taskType == taskType && this.kwargs == kwargs
      ensures process == None && running && stoppable == None
      ensures outputBuffer == "" && originalUrl == "" && strategyQueue == [] && events == []
    {
      this.taskType := taskType;
      this.kwargs := kwargs;
      process := None;
      running := true;
      stoppable := None;
      outputBuffer := "";
      originalUrl := "";
      strategyQueue := [];
      events := [];
    }

    method RegisterStoppableResource(r: Resource)
      modifies this`stoppable
      ensures stoppable == Some(r)
    {
      stoppable := Some(r);
    }

    method UnregisterStoppableResource()
      modifies this`stoppable
      ensures stoppable == None
    {
      stoppable := None;
    }

    /** `stop()`: the running flag is always cleared. A live process is killed (its
        `finished` handler runs later); otherwise a registered resource is closed and
        unregistered. */
    method Stop()
      modifies this
      ensures !running
      ensures events == old(events) + [Log("后台：收到停止请求，正在执行...")] + StopLogs(old(process), old(stoppable))
      ensures process == old(process)
      ensures stoppable == (if old(process).Some? && old(process).value.live then old(stoppable) else None)
      ensures outputBuffer == old(outputBuffer) && originalUrl == old(originalUrl) && strategyQueue == old(strategyQueue)
    {
      events := events + [Log("后台：收到停止请求，正在执行...")];
      running := false;
      if process.Some? && process.value.live {
        events := events + [Log("正在终止 QProcess (PID: " + NatString(process.value.pid) + ")...")];
      } else if stoppable.Some? {
        if stoppable.value.isChrome {
          events := events + [Log("正在关闭浏览器驱动...")];
        }
        UnregisterStoppableResource();
      } else {
        events := events + [Log("没有活动的嗅探资源或下载子进程需要停止。")];
      }
    }

    /** `handle_output`, once for each piece of output the process delivers. */
    method ReadOutput(chunks: seq<string>)
      modifies this`outputBuffer
      ensures outputBuffer == old(outputBuffer) + Concat(chunks)
    {
      var i := 0;
      while i < |chunks|
        invariant i <= |chunks| && outputBuffer == old(outputBuffer) + Concat(chunks[..i])
      {
        assert chunks[..i + 1][..i] == chunks[..i];
        outputBuffer := outputBuffer + chunks[i];
        i := i + 1;
      }
      assert chunks[..i] == chunks;
    }

    /** `handle_finish`, after its last `handle_output`. */
    method HandleSniffFinish(exitCode: int, parse: string -> Json) returns (res: Record)
      modifies this`process
      ensures res == SniffFinishResult(running, exitCode, outputBuffer, parse)
      ensures process == None
    {
      if !running {
        res := ErrorRecord(Cancelled);
      } else if exitCode == 0 {
        var jsonLine := JsonLine(outputBuffer);
        match parse(jsonLine)
        case Object(d) =>
          res := d["engine" := "yt-dlp"];
        case Failed(m) =>
          res := ErrorRecord("解析yt-dlp输出失败: " + m);
      } else {
        res := ErrorRecord("yt-dlp 执行失败 (代码: " + IntString(exitCode) + ")");
      }
      process := None;
    }

    /** The yt-dlp process of a sniff, from its start to `handle_finish`. */
    method RunSniffProcess(exe: string, w: World) returns (res: Record)
      modifies this
      ensures running == !w.stopDuring(SP.YtDlp)
      ensures res == SniffFinishResult(running, w.ytDlp.exitCode, Concat(w.ytDlp.chunks), w.parse)
      ensures process == None && outputBuffer == Concat(w.ytDlp.chunks)
      ensures events == old(events) && strategyQueue == old(strategyQueue)
      ensures stoppable == old(stoppable) && originalUrl == old(originalUrl)
    {
      process := Some(Process(w.pid, true, exe, ["--dump-json", "--no-warnings", originalUrl]));
      outputBuffer := "";
      ReadOutput(w.ytDlp.chunks);
      running := !w.stopDuring(SP.YtDlp);
      res := HandleSniffFinish(w.ytDlp.exitCode, w.parse);
    }

    /** `_run_yt_dlp_sniff_qprocess` up to its `handle_finish`. */
    method YtDlpSniff(w: World) returns (res: Record)
      requires running
      modifies this
      ensures running == !w.stopDuring(SP.YtDlp)
      ensures res == YtDlpResult(w, running)
      ensures YtDlpFound(w) ==> process == None && outputBuffer == Concat(w.ytDlp.chunks)
      ensures !YtDlpFound(w) ==> process == old(process) && outputBuffer == old(outputBuffer)
      ensures events == old(events) && strategyQueue == old(strategyQueue)
      ensures stoppable == old(stoppable) && originalUrl == old(originalUrl)
    {
      var exe := BS.GetExecutablePath("yt-dlp.exe", w.env);
      if !w.env.fileExists(exe) {
        running := !w.stopDuring(SP.YtDlp);
        res := ErrorRecord("yt-dlp.exe 未找到");
      } else {
        res := RunSniffProcess(exe, w);
      }
    }

    /** One strategy's attempt in `_process_next_strategy`, up to `_handle_sniff_result`. */
    method Attempt(s: SP.Strategy, w: World) returns (res: Option<Record>)
      requires running
      modifies this
      ensures running == !w.stopDuring(s)
      ensures res == AttemptResult(s, w, running)
      ensures RunsYtDlp(s, w) ==> process == None && outputBuffer == Concat(w.ytDlp.chunks)
      ensures !RunsYtDlp(s, w) ==> process == old(process) && outputBuffer == old(outputBuffer)
      ensures events == old(events) && strategyQueue == old(strategyQueue)
      ensures stoppable == old(stoppable) && originalUrl == old(originalUrl)
    {
      if s == SP.YtDlp {
        var r := YtDlpSniff(w);
        res := Some(r);
      } else {
        var available := SP.AvailableStrategies();
        running := !w.stopDuring(s);
        if SP.Name(s) !in available || available[SP.Name(s)] == "" {
          res := None;
        } else {
          res := Some(Handled(BackendCall(available[SP.Name(s)], w)));
        }
      }
    }

    /** The fields a sniff changes. */
    function Snap(): Snapshot
      reads this
    {
      Snapshot(strategyQueue, running, process, outputBuffer, events)
    }

    /** One call of `_process_next_strategy` on a running worker with strategies left,
        through `_handle_sniff_result`; `done` says whether the sniff ended there. */
    method Step(w: World, domain: string, store: SP.ExperienceStore) returns (done: bool)
      requires running && strategyQueue != []
      modifies this, store
      ensures Snap() == StepState(old(Snap()), w, originalUrl, domain)
      ensures done == Ends(AttemptResult(old(strategyQueue)[0], w, running))
      ensures store.data == (if done then SP.RecordSuccess(old(store.data), domain, SP.Name(old(strategyQueue)[0])) else old(store.data))
      ensures stoppable == old(stoppable) && originalUrl == old(originalUrl)
    {
      var s := strategyQueue[0];
      ghost var e0 := events;
      strategyQueue := strategyQueue[1..];
      events := events + [Log(TryingLog(s))];
      var res := Attempt(s, w);
      done := HandleResult(s, res, domain, store);
      Associative(e0, [Log(TryingLog(s))], ResultEvents(s, res, originalUrl, domain));
    }

    /** What `_process_next_strategy` does after the attempt: the configuration error, or
        `_handle_sniff_result`, which records a success and ends the sniff. */
    method HandleResult(s: SP.Strategy, res: Option<Record>, domain: string, store: SP.ExperienceStore) returns (done: bool)
      modifies this`events, store
      ensures done == Ends(res)
      ensures events == old(events) + ResultEvents(s, res, originalUrl, domain)
      ensures store.data == (if done then SP.RecordSuccess(old(store.data), domain, SP.Name(s)) else old(store.data))
    {
      done := false;
      if res.None? {
        events := events + [Log(ConfigErrorLog(s))];
      } else if IsSuccess(res.value) {
        events := events + [Log(SuccessLog(s))];
        store.Update(domain, SP.Name(s));
        events := events + [Learned(domain, SP.Name(s)), SniffFinished(res.value, originalUrl)];
        done := true;
      } else {
        events := events + [Log(FailureLog(s, ErrorMessage(res.value)))];
      }
    }

    /** `_process_next_strategy`, and through `_handle_sniff_result` the calls it makes
        of itself until the sniff ends. */
    method ProcessNext(w: World, domain: string, store: SP.ExperienceStore)
      modifies this, store
      ensures Snap() == ChainState(old(Snap()), w, originalUrl, domain)
      ensures store.data == LearnedData(old(store.data), domain, Chain(old(strategyQueue), old(running), StepsOf(w), originalUrl, domain))
      ensures stoppable == old(stoppable) && originalUrl == old(originalUrl)
      decreases |strategyQueue|
    {
      if !running || strategyQueue == [] {
        ChainEnd(strategyQueue, running, StepsOf(w), originalUrl, domain, store.data);
        events := events + [SniffFinished(ErrorRecord(if running then Exhausted else Cancelled), originalUrl)];
      } else {
        ChainStep(Snap(), w, originalUrl, domain, store.data);
        var done := Step(w, domain, store);
        if !done {
          ProcessNext(w, domain, store);
        }
      }
    }

    /** `_run_intelligent_sniff`, with the experience data the store holds. */
    method RunIntelligentSniff(w: World, store: SP.ExperienceStore)
      modifies this, store
      ensures originalUrl == kwargs.url
      ensures Snap() == SniffState(old(Snap()), kwargs.url, old(store.data), w)
      ensures store.data == SniffLearned(kwargs.url, old(running), old(store.data), w)
      ensures stoppable == old(stoppable)
    {
      originalUrl := kwargs.url;
      events := events + [Log(StartLog(originalUrl))];
      strategyQueue := SP.SelectBest(w.urlInfo, store.data);
      if strategyQueue == [] {
        if running {
          events := events + [SniffFinished(ErrorRecord(NoStrategy), originalUrl)];
        }
        return;
      }
      ProcessNext(w, Domain(w), store);
    }

    /** `_run_yt_dlp_download_qprocess` up to the start of the process; its output and its
        end arrive later, through `OnYtDlpOutput` and `OnYtDlpFinished`. */
    method RunYtDlpDownload(env: BS.Environment, pid: nat)
      modifies this`process, this`events
      ensures var cmd := BS.BuildDownloadCommand(kwargs.url, kwargs.formats, kwargs.downloadPath, None, env);
        && (!running ==> events == old(events) + [DownloadFinished(false, CancelledBeforeStart)] && process == old(process))
        && (running ==> events == old(events) && process == Some(Process(pid, true, cmd[0], cmd[1..])))
    {
      if !running {
        events := events + [DownloadFinished(false, CancelledBeforeStart)];
        return;
      }
      var cmd := BS.BuildDownloadCommand(kwargs.url, kwargs.formats, kwargs.downloadPath, None, env);
      process := Some(Process(pid, true, cmd[0], cmd[1..]));
    }

    /** The body of the loop in `_on_yt_dlp_output` for one line. */
    method EmitLine(line: string)
      modifies this`events
      ensures events == old(events) + LineEvents(line)
    {
      var logs: seq<Event> := if Strip(line) != [] then [Log("[yt-dlp] " + Strip(line))] else [];
      var tail: seq<Event> := match Progress(line) case Some(n) => [DownloadProgress(n)] case None => [];
      Associative(events, logs, tail);
      events := events + logs + tail;
    }

    /** The loop of `_on_yt_dlp_output` over the lines of the output. */
    method EmitLines(lines: seq<string>)
      modifies this`events
      ensures events == old(events) + OutputEvents(lines)
    {
      var i := 0;
      while i < |lines|
        invariant i <= |lines| && events == old(events) + OutputEvents(lines[..i])
      {
        assert lines[..i + 1][..i] == lines[..i];
        Associative(old(events), OutputEvents(lines[..i]), LineEvents(lines[i]));
        EmitLine(lines[i]);
        i := i + 1;
      }
      assert lines[..i] == lines;
    }

    /** `_on_yt_dlp_output` with the text the process delivered. */
    method OnYtDlpOutput(output: string)
      modifies this`events
      ensures events == old(events) + if process.Some? then OutputEvents(SplitLines(output)) else []
    {
      if process.None? {
        assert old(events) + [] == old(events);
        return;
      }
      EmitLines(SplitLines(output));
    }

    /** `_on_yt_dlp_finished`: the last output, then the outcome; the process is gone. */
    method OnYtDlpFinished(exitCode: int, crashed: bool, pending: string)
      modifies this`events, this`process
      ensures events == old(events) + (if old(process).Some? then OutputEvents(SplitLines(pending)) else [])
                        + FinishEvents(running, exitCode, crashed)
      ensures process == None
    {
      OnYtDlpOutput(pending);
      if !running {
        events := events + [DownloadFinished(false, Cancelled)];
      } else if exitCode == 0 {
        events := events + [DownloadProgress(100), DownloadFinished(true, DownloadDone)];
      } else {
        events := events + [DownloadFinished(false, "下载失败 (代码: " + IntString(exitCode) + ", 状态: " + (if crashed then "崩溃" else "正常退出") + ")")];
      }
      process := None;
    }

    /** `_run_direct_download`; `download_direct_link` gets the progress callback. */
    method RunDirectDownload(dl: DownloadWorld)
      modifies this`events, this`running
      ensures !old(running) ==> events == old(events) + [DownloadFinished(false, CancelledBeforeStart)] && !running
      ensures old(running) ==> events == old(events) + DirectEvents(dl) && running == !dl.stopDuring
    {
      if !running {
        events := events + [DownloadFinished(false, CancelledBeforeStart)];
        return;
      }
      var ok, msg, progress, _ := BS.DownloadDirectLink(kwargs.directUrl, kwargs.downloadPath, dl.pathOf, dl.now, dl.reply, dl.pct, true);
      assert progress == DirectProgress(dl.reply, dl.pct);
      assert ok == dl.reply.Body? && msg == DirectMessage(dl.reply);
      var finish := if dl.stopDuring then DownloadFinished(false, Cancelled) else DownloadFinished(ok, msg);
      var emitted := ProgressEvents(progress) + [finish];
      assert emitted == DirectEvents(dl);
      running := !dl.stopDuring;
      events := events + emitted;
    }

    /** `_run_download`. */
    method RunDownload(dl: DownloadWorld)
      modifies this`events, this`running, this`process
      ensures Snap() == DownloadState(old(Snap()), kwargs, dl)
    {
      if kwargs.resourceType == "yt-dlp" {
        RunYtDlpDownload(dl.env, dl.pid);
      } else {
        RunDirectDownload(dl);
      }
    }

    /** `run`: nothing once stopped; otherwise the sniff or the download the task type names. */
    method Run(w: World, dl: DownloadWorld, store: SP.ExperienceStore)
      modifies this, store
      ensures !old(running) || (taskType != "sniff" && taskType != "download") ==>
        Snap() == old(Snap()) && store.data == old(store.data) && originalUrl == old(originalUrl)
      ensures old(running) && taskType == "sniff" ==>
        && originalUrl == kwargs.url
        && Snap() == SniffState(old(Snap()), kwargs.url, old(store.data), w)
        && store.data == SniffLearned(kwargs.url, true, old(store.data), w)
      ensures old(running) && taskType == "download" ==>
        Snap() == DownloadState(old(Snap()), kwargs, dl) && store.data == old(store.data) && originalUrl == old(originalUrl)
      ensures stoppable == old(stoppable)
    {
      if !running {
        return;
      }
      if taskType == "sniff" {
        RunIntelligentSniff(w, store);
      } else if taskType == "download" {
        RunDownload(dl);
      }
    }
  }
}
