# ReSniffer, modelled in Dafny

ReSniffer turns a URL into downloadable resources and downloads them. This project models
the decision-making and bookkeeping around its network, subprocess and UI calls. Every
call it cannot see becomes an input.

- **Text** (`text.dfy`): the Python string operations the code relies on: substring
  tests, ASCII `lower()`, `strip()`, `splitlines()`, `split("\n")[0]`, `join` and `str(n)`.
- **Paths** (`paths.dfy`): `os.path.join`, `basename`, `dirname` and `splitext` on
  POSIX paths.
- **StrategyProfiler** (`strategy_profiler.dfy`), modelling `Gui/strategy_profiler.py`:
  - the strategy table and `AVAILABLE_STRATEGIES`;
  - the experience store (a class whose `Update` bumps one counter and saves the whole store);
  - `select_best_strategy`, both as a specification function and as a method with the
    scoring loop. Scores are scaled by 10, so every score is an integer; the threshold 20
    becomes 200.
- **Fetch** (`fetch.dfy`), modelling `T.py`:
  - the proxy list filter and the good/bad proxy pool (class `ProxyPool`);
  - exponential backoff, with the jitter as a real parameter;
  - User-Agent-consistent headers, with the brand shuffle as a permutation parameter;
  - CAPTCHA detection;
  - the robots.txt cache (class `RobotsCache`);
  - `fetch_url_with_strategy`, as nested loops. It is proved against `Plan`, a function
    listing the attempts the engine pipeline makes for given replies.
- **BackendScraper** (`backend_scraper.dfy`), modelling `Gui/backend_scraper.py`:
  - the category table;
  - `get_executable_path`;
  - the loops of `extract_links_from_html` over the tags a parser listed;
  - the GitHub release URL regular expression, written out as a greedy matcher;
  - the asset loop of `sniff_engine_github_api`;
  - `build_download_command`;
  - the progress accounting of `download_direct_link`.
- **Worker** (`worker.dfy`), modelling `Gui/worker.py`:
  - the class `Worker`, with the fields the source updates;
  - the strategy chain, defined once as the function `Chain` and run by the methods
    `ProcessNext` and `Step`;
  - the yt-dlp output and finish handlers, `stop`, and the download paths.
  - Emitted signals are a log of `Event`s.
  - Backend calls, the yt-dlp process and a stop arriving during a strategy are all part
    of a `World` value.
- **AppWindow** (`app_window.dfy`), modelling `Gui/app_window.py`:
  - the class `Window`, covering `start_sniffing`, `on_sniff_finished`,
    `display_resources`, `prepare_downloads`, `process_next_in_queue`,
    `on_single_download_finished` and `stop_task`;
  - the task list as a sequence of rows;
  - the resource tree as the sequence of items in iterator (pre-)order;
  - the log pane and the message boxes as lists of texts.

Behaviours of the code worth knowing, all modelled as written:
- One identity is built before the pipeline (T.py:327). It is rebuilt only after a 401, 403
  or 407 (T.py:370-373), so every other attempt reuses it.
- The fetch loop over engines and attempts checks for no cancellation (T.py:337-376).
- A fetch that exhausts the pipeline returns None, not the last error (T.py:378-379).
- A missing `yt-dlp.exe` during a sniff is a soft failure: the chain moves on to the next
  strategy (Gui/worker.py:123-125).
- A sniff or download request while the window is busy is silently ignored, with no
  warning shown (Gui/app_window.py:165, 253).
- The `Worker` class calls each backend with the URL only, the corrected form of
  Gui/worker.py:97 (see "## Findings"); `Worker.BackendCallAsWritten` is the call as written.

Two quirks of the code are kept as they are:
- `direct_link_checker` maps to a backend that Gui/backend_scraper.py does not define.
  The `getattr` raises, and the strategy fails softly (Worker.BackendCall).
- The proxy filter tests for "#" on the raw line, so an indented comment is loaded as a
  proxy (Fetch.IndentedCommentKept).

## Model

| member | source | states |
|---|---|---|
| StrategyProfiler.NameInjective | Gui/strategy_profiler.py:12-18 | The five strategies have distinct names. |
| StrategyProfiler.AvailableFromSpec | Gui/strategy_profiler.py:19-23 | The comprehension keeps a name exactly when some metadata entry of that name has a backend. |
| StrategyProfiler.AvailableStrategiesExactly | Gui/strategy_profiler.py:12-23 | A strategy is available exactly when its backend is not None, and it maps to that backend; yt_dlp is absent. |
| StrategyProfiler.StripWww | Gui/strategy_profiler.py:52 | Removes exactly one leading "www." and nothing else. |
| StrategyProfiler.RecordSuccess | Gui/strategy_profiler.py:51-56 | The www-stripped (domain, strategy) count rises by one from its old value (0 if absent), every other count is unchanged, and the domain becomes a key. |
| StrategyProfiler.ExperienceStore.constructor | Gui/strategy_profiler.py:29-40 | A missing or unreadable file gives an empty store; otherwise the store is the file's contents. |
| StrategyProfiler.ExperienceStore.Update | Gui/strategy_profiler.py:43-58 | The store becomes RecordSuccess of the old store. The saved copy equals the new store when the file can be written; otherwise the file keeps its content. |
| StrategyProfiler.ExperienceBonus | Gui/strategy_profiler.py:110 | The bonus lies in [0, 500] (0 to 50 unscaled): 50 per success, capped at 10 successes. |
| StrategyProfiler.ScoreBounds | Gui/strategy_profiler.py:108-113 | A score is the base score times (11 - cost), plus a bonus of at most 500. |
| StrategyProfiler.ScoreEach | Gui/strategy_profiler.py:107-113 | One entry per strategy, in dict order, each carrying that strategy's score. |
| StrategyProfiler.ScoreAll | Gui/strategy_profiler.py:106-113 | The `final_scores` loop fills exactly the scores of ScoreEach over the dict order. |
| StrategyProfiler.SelectBest | Gui/strategy_profiler.py:61-121 | The method (rules, scoring loop, sort, threshold) returns the specified queue; an unparsable URL gives []. |
| StrategyProfiler.GithubReleasesRule | Gui/strategy_profiler.py:72-73 | A github.com domain with "/releases" in the path gets [github_api, browser, html_parser], whatever the experience data. |
| StrategyProfiler.KnownFileRule | Gui/strategy_profiler.py:74-88 | A path ending in one of the 11 extensions, in any letter case, gets [direct_link_checker, yt_dlp] unless the releases rule fired. |
| StrategyProfiler.VideoPageRule | Gui/strategy_profiler.py:89-92 | YouTube /watch or /shorts/ and bilibili /video/ pages get [yt_dlp] when no earlier rule fired. |
| StrategyProfiler.InsertMultiset | Gui/strategy_profiler.py:115-117 | An insertion step of the stable sort keeps every entry. |
| StrategyProfiler.InsertOrdered | Gui/strategy_profiler.py:115-117 | An insertion step keeps the list ordered: score non-increasing, ties in dict order. |
| StrategyProfiler.SortDescKeeps | Gui/strategy_profiler.py:115-117 | The sort yields an ordered permutation of its input. |
| StrategyProfiler.KeepAboveKeeps | Gui/strategy_profiler.py:121 | The threshold keeps exactly the entries scoring above 200, and keeps them ordered. |
| StrategyProfiler.SortedScores | Gui/strategy_profiler.py:115-117 | The scored list comes out of `sorted` ordered and with the same entries. |
| StrategyProfiler.ScoredQueue | Gui/strategy_profiler.py:95-121 | With no rule firing, the queue holds exactly the strategies scoring above 200, each once, highest first, ties in the order yt_dlp, browser, html_parser, direct_link_checker, github_api. |
| StrategyProfiler.ReturnedAboveThreshold | Gui/strategy_profiler.py:121 | Every returned strategy scores strictly above the threshold. |
| StrategyProfiler.RecordSuccessRaisesOnlyOwnScore | Gui/strategy_profiler.py:108-113 | One more success below the cap raises that strategy's score by exactly 50 and no other score; at the cap nothing changes. |
| StrategyProfiler.PlainPageQueue | Gui/strategy_profiler.py:95-121 | With no experience data, a plain page gets [yt_dlp, html_parser, direct_link_checker] (24, 24, 22.5); browser (5) and github_api (9) are dropped. |
| StrategyProfiler.ExampleComPage | Gui/strategy_profiler.py:61-121 | https://example.com/page with no experience data gets [yt_dlp, html_parser, direct_link_checker]. |
| Fetch.ProxyLines | T.py:101 | Never longer than the file, and no loaded proxy is empty. |
| Fetch.ProxyLinesMembers | T.py:101 | A proxy is loaded exactly when it is the stripped form of a kept line: non-blank, with a raw text not starting with "#". |
| Fetch.IndentedCommentKept | T.py:101 | A "#" comment indented by one blank is kept as a proxy, with its "#". |
| Fetch.AvailableProxies | T.py:111 | The available proxies are exactly the loaded ones not marked bad. |
| Fetch.ProxyUrlOf | T.py:120 | The URL `mark_proxy_bad` reads is the non-empty "http://" entry, else the non-empty "https://" entry, and None for a None dict. |
| Fetch.MarkedNeverPicked | T.py:115-121 | Marking a picked proxy's dict makes exactly that proxy bad, so it is no longer available. |
| Fetch.ProxyPool.constructor | T.py:80 | The pool starts with nothing loaded and nothing bad. |
| Fetch.ProxyPool.LoadFromFile | T.py:95-106 | A readable file replaces the loaded list with its filtered lines; otherwise the list is kept. The bad set is unchanged. |
| Fetch.ProxyPool.GetRandomProxyDict | T.py:108-116 | None when nothing is loaded or every proxy is bad; otherwise an available proxy, under both "http://" and "https://". |
| Fetch.ProxyPool.MarkProxyBad | T.py:118-122 | Only the bad set grows, by the dict's proxy URL; a None or empty dict changes nothing. |
| Fetch.ProxyPool.NewIdentity | T.py:211-218 | A new identity has headers consistent with its User-Agent for some brand shuffle, and a proxy drawn as `get_random_proxy_dict` draws it. |
| Fetch.Backoff | T.py:131-133 | The delay lies between min(60, 2·2^attempt) and 60. |
| Fetch.BackoffMonotone | T.py:131-133 | A later attempt never waits less, whatever the two jitters. |
| Fetch.FirstRetryDelay | T.py:376 | The only sleep the pipeline takes, after the first of two attempts, lasts between 2 and 3 seconds. |
| Fetch.PlatformPriority | T.py:194-199 | Platform priority is mac > linux without android > android > iOS > Windows, and mobile is "?1" exactly for Android and iOS. |
| Fetch.DigitRun | T.py:201 | The longest run of ASCII digits at the front of the string. |
| Fetch.ChromeVersion | T.py:201 | A found version is a non-empty run of digits preceded by "chrome/" in the text. |
| Fetch.ChromeVersionLeftmost | T.py:201 | A found version is the whole digit run after the leftmost "chrome/" that is followed by a digit. |
| Fetch.ChromeVersionNone | T.py:201-202 | The search fails exactly when no "chrome/" is followed by a digit. |
| Fetch.SecChUaListsEveryBrand | T.py:203-206 | Each of the three brand entries appears in Sec-CH-UA, whatever the shuffle. |
| Fetch.HeaderDict | T.py:206 | The default dict has exactly the 13 listed header names. |
| Fetch.ConsistentHeadersContents | T.py:206-209 | The keys are the defaults, plus Referer when a previous URL is given, plus the custom keys; custom values override; Referer holds the previous URL. |
| Fetch.HeadersAgreeWithUserAgent | T.py:194-206 | Unless overridden: User-Agent is the UA; mobile is "?1" exactly for Android/iOS; the platform header names the platform; Sec-Fetch-Site is "same-origin" exactly when a previous URL is given. |
| Fetch.HeadersCarryChromeVersion | T.py:201-206 | Sec-CH-UA carries the UA's Chrome version, or "120" when it has none. |
| Fetch.CaptchaIff | T.py:220-224 | A page is a CAPTCHA block exactly when some keyword occurs in the lower-cased text; letter case does not matter. |
| Fetch.CaptchaInContext | T.py:220-224 | A CAPTCHA page stays one with anything added around it. |
| Fetch.CacheLookup | T.py:135-154 | The lookup returns the stored parser, and its key maps to it afterwards; no other entry changes. |
| Fetch.CacheLookupShared | T.py:137-139 | A second lookup for the same scheme and host returns the first parser, whatever its own fetch would give, and changes nothing. |
| Fetch.RobotsCache.constructor | T.py:80 | The robots cache starts empty. |
| Fetch.RobotsCache.GetParser | T.py:135-154 | `get_robots_parser` is one CacheLookup keyed by "scheme://netloc". |
| Fetch.RobotsCache.IsUrlAllowed | T.py:156-159 | The verdict is the looked-up parser's answer for the UA and URL, and the cache is updated by that lookup. |
| Fetch.IndexOfName | T.py:329 | The first index of the name in the pipeline, or -1 where `index` raises ValueError. |
| Fetch.ActivePipeline | T.py:329-330 | A non-empty suffix of the pipeline that starts at the named engine, or the whole pipeline when no engine has that name. |
| Fetch.PlanSteps | T.py:337-376 | Every attempt is one of the engine at its stage, numbered below MAX_RETRIES_PER_ENGINE, ends as its reply dictates, and sleeps exactly when it is a retryable error that is not the engine's last try. |
| Fetch.PlanOnlyLastEnds | T.py:342-363 | Only the last attempt of a run can end the fetch with a response or a CAPTCHA. |
| Fetch.PlanTransitions | T.py:342-376 | After a Cloudflare error on requests/httpx, or an engine's last try, the next attempt is the first of the next engine; after any other error it is the next attempt of the same engine. |
| Fetch.PlanExhausts | T.py:337-379 | A run ending with neither a response nor a CAPTCHA went through the last engine. |
| Fetch.CaptchaOnlyWithoutStream | T.py:356-358 | An attempt aborts on a CAPTCHA exactly when the fetch is not streamed and the reply carries a keyword. |
| Fetch.PickAvoidsBad | T.py:111-116 | A picked proxy is never in the bad set it was picked against. |
| Fetch.Attempt | T.py:344-373 | The verdict classifies the reply. Only a 401/403/407 marks the identity's proxy bad, and then a new consistent identity is built. |
| Fetch.AttemptStep | T.py:342-376 | One attempt is the next step of the plan, and the pool and trail stay consistent with it. |
| Fetch.RunEngine | T.py:342-376 | An engine's attempts are the plan's steps for that engine, and the run stops exactly when one of them ends the fetch. |
| Fetch.RunPipeline | T.py:337-379 | The attempts made are exactly the plan for the active pipeline, and a response is the text of the last attempt's successful reply. |
| Fetch.FetchUrl | T.py:321-379 | The first identity is consistent. A robots.txt refusal makes no attempt; otherwise the attempts are the plan. Bad proxies grow only by the ones hard blocks marked, and the robots cache changes only by one lookup. |
| Fetch.FetchAs | T.py:327-379 | The same outcome, once the first identity is built. |
| BackendScraper.FindCategory | Gui/backend_scraper.py:80-84 | A found category lists the extension; None exactly when no category lists it. |
| BackendScraper.CategoriesDisjoint | Gui/backend_scraper.py:26-33 | No extension is listed under two categories. |
| BackendScraper.FindCategoryIff | Gui/backend_scraper.py:81-84 | The category found is exactly the one listing the extension. |
| BackendScraper.GetExecutablePath | Gui/backend_scraper.py:36-47 | Inside a bundle the path is under the bundle directory; otherwise it is the file beside argv[0] when that file exists, else the bare name. |
| BackendScraper.ExecutablePathEndsWithName | Gui/backend_scraper.py:36-47 | The path always ends with the file name. |
| BackendScraper.LinkForIff | Gui/backend_scraper.py:78-84 | A found URL gets a link exactly when the lower-cased extension of its path is a known one. |
| BackendScraper.LinkForMeaning | Gui/backend_scraper.py:78-83 | A link's ext is the lower-cased path extension and its category the one listing it; its filename is the path's basename, or "unknown". |
| BackendScraper.CollectFoundUrls | Gui/backend_scraper.py:61-74 | The two tag loops build exactly the specified set of joined URLs. |
| BackendScraper.FoundUrlsAreKept | Gui/backend_scraper.py:63-74 | Every found URL joins the base with a non-empty href or src that does not start with "javascript:", "#" or "data:". An anchor also needs data-skip-pjax or a known extension. |
| BackendScraper.LinksOf | Gui/backend_scraper.py:76-85 | Links with distinct URLs, each from the found set and accepted; every accepted URL appears. |
| BackendScraper.ExtractLinks | Gui/backend_scraper.py:58-85 | Links have distinct URLs, each is the link made for a found URL, and every found URL with a known extension has one. |
| BackendScraper.RunEnd | Gui/backend_scraper.py:114 | A `[^/]+`-style run ends at the first stop character. |
| BackendScraper.MatchWithSound | Gui/backend_scraper.py:114 | Whatever the matcher returns is a greedy match of the pattern. |
| BackendScraper.MatchWithComplete | Gui/backend_scraper.py:114 | Every greedy match is what the matcher returns. |
| BackendScraper.MatchAtIff | Gui/backend_scraper.py:114 | The matcher at a position finds exactly the greedy matches of `github\.com/owner/repo/releases/tag/tag`. |
| BackendScraper.Search | Gui/backend_scraper.py:114-115 | `re.search` finds the match at the first position that has one, and None only when no position does. |
| BackendScraper.CategoryLabel | Gui/backend_scraper.py:133-135 | The label is "其他" exactly when no category lists the extension. |
| BackendScraper.AssetLinksAppend | Gui/backend_scraper.py:129-136 | Assets are filtered one by one. |
| BackendScraper.AssetLinkMeaning | Gui/backend_scraper.py:130-136 | An asset is kept exactly when it has a download URL and a name; its category is the one listing its lower-cased extension, or "其他". |
| BackendScraper.MakeAssetLink | Gui/backend_scraper.py:130-136 | One pass of the asset loop gives the specified entry. |
| BackendScraper.CollectAssetLinks | Gui/backend_scraper.py:128-136 | The asset loop builds exactly the specified link list. |
| BackendScraper.ApiHeaders | Gui/backend_scraper.py:119-121 | Accept is the GitHub v3 type; Authorization appears exactly with a non-empty token. |
| BackendScraper.SniffGithubApi | Gui/backend_scraper.py:112-139 | A URL not matching the pattern gives the "无法解析URL" error. Otherwise the API URL names owner, repo and tag; a failed request gives the network error, and a reply gives the asset links with its title or "owner/repo - tag". |
| BackendScraper.DownloadCommandShape | Gui/backend_scraper.py:182-198 | The command starts [exe, "-f", formats], carries the download-stream progress template and ends with the URL. It has --ffmpeg-location exactly when ffmpeg exists, and --proxy just before the URL exactly when a proxy dict is given. |
| BackendScraper.RisesWithinExtend | Gui/backend_scraper.py:214-216 | Appending the next percentage keeps the sequence rising within its bound. |
| BackendScraper.ExactPercentRounds | Gui/backend_scraper.py:216 | The exact quotient meets the bounds asked of the double-precision percentage. |
| BackendScraper.PercentagesGrow | Gui/backend_scraper.py:209-216 | For any rounding within one below the exact percentage and non-decreasing, the percentages never go down and never exceed the one for the whole body, which is at most 100 when the body fits the announced length. |
| BackendScraper.PercentagesLast | Gui/backend_scraper.py:212-216 | The last value reported is the percentage of the whole body. |
| BackendScraper.StreamChunks | Gui/backend_scraper.py:210-216 | The chunk loop reports the percentage after each non-empty chunk when the length is positive and a callback is given, and nothing otherwise. |
| BackendScraper.DivMonotone | Gui/backend_scraper.py:216 | Truncating division by a positive total keeps the order. |
| BackendScraper.DownloadDirectLink | Gui/backend_scraper.py:200-221 | The file is the path's basename or download_<time>. A refused request or a bad length gives (False, error) with no progress. A complete body gives (True, "下载成功完成。"), the rounded percentages when the length is positive, then 100 when a callback is given. A body broken off by an exception gives (False, error) after the percentages of the chunks written, with no 100. |
| Worker.ErrorMessage | Gui/worker.py:117 | The message is the "error" value, or "未知错误" for an empty result or one without "error". |
| Worker.SniffFinishResult | Gui/worker.py:139-153 | Stopped gives the cancelled error. A non-zero exit is an error. Exit 0 gives the first line of the stripped output decoded, tagged engine "yt-dlp", or the parse error. |
| Worker.Chain | Gui/worker.py:71-119 | The chain never pops more strategies than the queue holds. |
| Worker.ChainAttempts | Gui/worker.py:71-93 | Strategies are popped front-first, in queue order, each at most once. Every popped strategy but the last failed without a stop, and a stopped worker pops nothing. |
| Worker.ChainFinishesOnce | Gui/worker.py:71-119 | Exactly one `sniff_finished` is emitted, as the last event, for the original URL. |
| Worker.ChainSuccess | Gui/worker.py:104-115 | A sniff reported as a success ends with the successful result of the last popped strategy. |
| Worker.ChainError | Gui/worker.py:72-80 | A sniff not ending in success ends with the "cancelled" or the "all strategies tried" error. |
| Worker.ChainLearnsOnce | Gui/worker.py:109-115 | The experience update happens at most once: only in a successful sniff, as the event just before `sniff_finished`. |
| Worker.ChainExhausted | Gui/worker.py:76-80 | With no success and no stop, every strategy is tried and the sniff ends with "all strategies tried". |
| Worker.ChainStep | Gui/worker.py:71-119 | The chain from a worker state is its first step, then the chain from the state that step leaves, unless the step ended the sniff. |
| Worker.BackendSuccessReported | Gui/worker.py:95-98 | With the corrected call, a backend's successful dict reaches `sniff_finished` unchanged, after one experience update. |
| Worker.AsWrittenLosesBackendResult | Gui/worker.py:96-102 | As written, the same successful backend becomes the "unexpected keyword argument 'context_worker'" error. |
| Worker.RunWhile | Gui/worker.py:192 | A run of the regex's character class ends at the first character outside it. |
| Worker.ProgressNeedsMarker | Gui/worker.py:192-196 | A line without "download-stream:" gives no progress. |
| Worker.ProgressOfTemplate | Gui/worker.py:192-200 | "download-stream:", blanks, then n.f% gives the truncated integer n. |
| Worker.LineProgress | Gui/worker.py:194-202 | A line's events are its log line, then its progress value when the line matches. |
| Worker.OutputProgress | Gui/worker.py:193-202 | Only matching lines emit progress, one value each, in line order; every other event is a log line. |
| Worker.FinishEvents | Gui/worker.py:204-217 | The last event is `download_finished`. It succeeds exactly when running with exit code 0, and a stopped worker gives (False, cancelled) whatever the exit code. |
| Worker.SniffEvents | Gui/worker.py:57-69 | A sniff logs its start first, then exactly one final `sniff_finished` unless it was stopped with nothing to try; an empty queue on a running worker ends with "no applicable strategy". |
| Worker.DirectDownloadEvents | Gui/worker.py:220-236 | A direct download ends with exactly one `download_finished`, successful only for a complete body without a stop; earlier events are the callback's progress values. |
| Worker.DirectProgressRises | Gui/backend_scraper.py:208-221 | Progress values never go down and stay within 0 to 100 when the body fits its length. A complete body ends them with 100; a broken one ends them with the percentage of the bytes written. A refused request or bad length reports none. |
| Worker.StreamRises | Gui/backend_scraper.py:210-216 | The chunk loop's values rise within 0 to 100 and the last is the percentage of the whole body. |
| Worker.Worker.constructor | Gui/worker.py:32-41 | The worker starts running, with no process, no resource, an empty buffer, an empty URL and an empty queue. |
| Worker.Worker.RegisterStoppableResource | Gui/worker.py:43-44 | The resource is registered. |
| Worker.Worker.UnregisterStoppableResource | Gui/worker.py:46-47 | No resource is registered afterwards. |
| Worker.Worker.Stop | Gui/worker.py:238-260 | The running flag is cleared. A live process is killed; otherwise a registered resource is closed and unregistered; otherwise "nothing to stop" is logged. |
| Worker.Worker.ReadOutput | Gui/worker.py:132-137 | The buffer grows by exactly the pieces read, in order. |
| Worker.Worker.HandleSniffFinish | Gui/worker.py:139-154 | The result is SniffFinishResult of the flag, exit code and buffer, and the process is gone. |
| Worker.Worker.RunSniffProcess | Gui/worker.py:127-155 | The process's output is accumulated and its finish result built; the flag reflects a stop during the run. |
| Worker.Worker.YtDlpSniff | Gui/worker.py:121-159 | A missing yt-dlp.exe gives the "未找到" error without a process; otherwise the process result. |
| Worker.Worker.Attempt | Gui/worker.py:82-102 | The attempt gives the specified result: the yt-dlp result, the backend's dict under the corrected call, the exception's error, or None for a strategy without a backend. |
| Worker.Worker.Step | Gui/worker.py:71-119 | One step pops the front strategy, leaves the specified state, and stores one success exactly when the sniff ends there. |
| Worker.Worker.HandleResult | Gui/worker.py:88-119 | The configuration error for a strategy without a backend, or `_handle_sniff_result`, which records a success (only) and ends the sniff. |
| Worker.Worker.ProcessNext | Gui/worker.py:71-119 | The worker ends in the state the chain leaves, and the store has learned exactly what the chain learned. |
| Worker.Worker.RunIntelligentSniff | Gui/worker.py:57-69 | The URL is recorded, the queue is selected, and the state and store end as the sniff specifies. |
| Worker.Worker.RunYtDlpDownload | Gui/worker.py:168-184 | Stopped gives "cancelled before start"; otherwise a process starts with the download command for the kwargs. |
| Worker.Worker.EmitLine | Gui/worker.py:194-202 | One line's events are appended. |
| Worker.Worker.EmitLines | Gui/worker.py:193-202 | The events of every line are appended, in order. |
| Worker.Worker.OnYtDlpOutput | Gui/worker.py:186-202 | Without a process nothing is emitted; otherwise the events of the output's lines. |
| Worker.Worker.OnYtDlpFinished | Gui/worker.py:204-218 | The pending output's events, then the outcome, and the process is gone. |
| Worker.Worker.RunDirectDownload | Gui/worker.py:220-236 | Stopped before the start gives "cancelled before start"; otherwise the direct download's events. |
| Worker.Worker.RunDownload | Gui/worker.py:161-166 | resource_type "yt-dlp" starts the yt-dlp download; anything else runs the direct download. |
| Worker.Worker.Run | Gui/worker.py:49-55 | Nothing happens once stopped or for an unknown task type; otherwise the sniff or the download runs. |
| AppWindow.FormatItems | Gui/app_window.py:222-237 | Every format item starts unchecked and carries data. |
| AppWindow.Categories | Gui/app_window.py:242-244 | Category roots are distinct, one for each category some link has ("其他" when missing). |
| AppWindow.ResourcesUnchecked | Gui/app_window.py:205-249 | A freshly displayed resource list has nothing checked. |
| AppWindow.YtDlpItemsList | Gui/app_window.py:216-237 | Every format of a yt-dlp result is listed exactly once, with its id and the video-only flag of its codecs. |
| AppWindow.VideoBeforeAudio | Gui/app_window.py:219-231 | The formats with a video codec are exactly the data before the audio root, in list order. |
| AppWindow.HtmlItemsList | Gui/app_window.py:240-249 | Every link of an html or GitHub result is listed exactly once, as a direct download of its URL. |
| AppWindow.BrowserLinksShown | Gui/app_window.py:212-214 | In the corrected display, a successful "browser" result lists each of its links. |
| AppWindow.BrowserLinksHiddenAsWritten | Gui/app_window.py:212-214 | As written, a successful "browser" result shows an empty list, although it carries links. |
| AppWindow.AutoMergeQueue | Gui/app_window.py:268-274 | With auto-merge on, each checked item is queued once, in tree order: a direct link as it is, a video-only format as id+bestaudio, any other format as its id. |
| AppWindow.ManualQueue | Gui/app_window.py:268-279 | With auto-merge off, the direct items come first, in order, then one entry joining all checked format ids with "+". |
| AppWindow.QueueEmpty | Gui/app_window.py:279-282 | The queue is empty exactly when no item is checked. |
| AppWindow.BuildQueue | Gui/app_window.py:260-279 | The tree loop builds exactly QueueFor over the checked items. |
| AppWindow.FindRow | Gui/app_window.py:183-184 | The first row with that URL, or None when no row has it. |
| AppWindow.UpsertRows | Gui/app_window.py:183-196 | An existing row is reused, otherwise one row is appended. Other rows are unchanged and URLs stay distinct. |
| AppWindow.Window.constructor | Gui/app_window.py:27-34 | The window starts idle, with no rows, data, queue or worker. |
| AppWindow.Window.StartSniffing | Gui/app_window.py:164-175 | Nothing happens while busy or for a blank URL. Otherwise the window is busy, logs the start, and starts a sniff worker for the stripped URL. |
| AppWindow.Window.SelectRow | Gui/app_window.py:205-214 | The resource list is redisplayed for the row's data only when the current row changes. |
| AppWindow.Window.OnSniffFinished | Gui/app_window.py:182-203 | The data is stored under the URL, the row is reused or added and made current, and the window is idle with no worker. |
| AppWindow.Window.SetChecked | Gui/app_window.py:264 | Only that item's check box changes. |
| AppWindow.Window.ProcessNextInQueue | Gui/app_window.py:288-302 | An empty queue logs and shows "all done" and clears busy. Otherwise the front entry is popped and a download worker started with its kwargs. |
| AppWindow.Window.PrepareDownloads | Gui/app_window.py:251-286 | Nothing happens while busy; without a current row, a warning. Otherwise the queue is built: empty gives a warning with busy unchanged, else busy, and the first entry starts. |
| AppWindow.Window.OnSingleDownloadFinished | Gui/app_window.py:304-308 | The result is logged, the worker dropped, and the next entry started, on success and on failure alike. |
| AppWindow.Window.StopTask | Gui/app_window.py:310-313 | With a worker: it is told to stop, the queue is emptied and busy cleared. Without one, nothing changes. |
| Text.ContainsIff | Gui/strategy_profiler.py:72 | Python's `t in s` holds exactly when t occurs at some index of s. |
| Text.Strip | T.py:101 | The result is never longer than the text and has no whitespace at either end. |
| Text.StripEmptyIff | Gui/app_window.py:166-167 | A stripped string is empty exactly when the text is all whitespace. |
| Text.SplitLines | Gui/worker.py:193 | No line contains a line boundary, and only the empty text has no lines. |
| Text.FirstLine | Gui/worker.py:146 | The prefix before the first newline. |
| Text.NatString | Gui/app_window.py:285 | The decimal digits of n, which read back as n. |
| Paths.Join | Gui/backend_scraper.py:39 | An absolute second part replaces the first; otherwise the result ends with the second part. |
| Paths.Basename | Gui/backend_scraper.py:83 | A suffix of the path with no "/" in it. |
| Paths.Dirname | Gui/backend_scraper.py:192 | A prefix of the path up to its last "/"; only slashes are dropped from that prefix, and none remain at its end unless it is all slashes. |
| Paths.SplitExt | Gui/backend_scraper.py:79 | The extension is empty, or a suffix of the path that starts with "." and holds no other "." and no "/". |

## Left out

- Networking, subprocesses, files, JSON decoding, BeautifulSoup parsing and the browser
  session are inputs: replies, parsed tag lists, process output pieces, exit codes, file
  contents. The `--dump-json` content is a record of text fields.
- Randomness is a parameter: User-Agent choice, proxy choice, brand shuffle, jitter and
  impersonation target. Clocks are a parameter too (`int(time.time())`).
- `urlparse` and `urljoin` are inputs (a `UrlInfo`, or functions), not a parser.
- Threads, signal delivery across threads, and the asynchronous kill of a process are not
  modelled. A stop that arrives during a strategy is a flag of the `World`; a stop during a
  direct download is a flag of the download. The log lines `stop` emits are not
  interleaved with a running step's events.
- Qt widgets, icons, the progress bar (`update_progress`), the context menu and
  `remove_task`, `browse_path`, settings persistence (`load_settings`, `save_settings`,
  `closeEvent`) and the control enabling of `set_controls_for_idle/busy` are not modelled.
  Clearing the URL field is not modelled either.
- The filesize, format-note and codec text columns of the resource tree are not modelled.
  A format whose `format_id` is missing has the id "", and a link's URL is a string.
- Cookies (`save_cookies`, `load_cookies`, `clear_domain_cookies`), robots.txt parsing
  (given as a function), `download_with_yt_dlp`, `download_video_from_response`,
  `process_response` and the `__main__` loop of T.py are not modelled.
- `sniff_engine_yt_dlp`, `sniff_engine_html_parser`, `sniff_engine_browser` and
  `create_requests_session` are network and browser code; their results reach the worker
  through the `World`.
- Gui/main.py and test.py are not part of this model.
- Falsy dict values other than "" (None, 0, empty lists) are written as "".
- Text.Lower: lower-cases ASCII letters only, so a User-Agent, path or page with non-ASCII
  capitals is compared as-is.
- Worker.ProgressOfTemplate: covers the ASCII digits yt-dlp prints, because `\d`
  also matches other Unicode digits and `int(float())` rounds long fractions; those are
  not modelled.
- Worker.Worker.RunDirectDownload: `download_direct_link` is modelled by its own
  signature, because the `stop_callback` argument in Gui/worker.py:227-232 has no
  parameter to receive it.
- Worker.Chain: the mutual recursion of `_process_next_strategy` and
  `_handle_sniff_result` is the function `Chain` and the recursive method `ProcessNext`.
  The store is updated once the chain is known.
- AppWindow.BuildQueue: requires every checked item to carry data. The source loops
  forever on a checked item without data (`continue` before `iterator += 1`,
  Gui/app_window.py:266), and the display never makes such an item; `Window.Valid` keeps it so.
- Fetch.FetchUrl: states header consistency for the first identity only. Fetch.Attempt
  states it for each identity built after a hard block; the loops carry only where each
  proxy came from.
- Fetch.Backoff: the jitter is any real in [0, 1]; floating-point rounding is not
  modelled. Scores are exact because they are scaled by 10.
- Paths: POSIX `os.path` semantics; Windows separators are not modelled.
- BackendScraper.DownloadDirectLink: `int((downloaded / total) * 100)` is computed in doubles,
  which the model does not define; the percentage is a parameter known only to be
  non-decreasing and within one below the exact quotient (29 of 100 bytes may give 28).
  That bound holds for content lengths far below 2^45 bytes.
- BackendScraper.BuildDownloadCommand: requires a given proxy dict to carry an "https://"
  key; without one the source puts None into the command. Its only caller passes no proxy.
- Worker.Worker.Attempt: the class, and so Step, ProcessNext, RunIntelligentSniff and Run,
  calls each backend with the corrected call `Worker.BackendCall`. As written
  (Gui/worker.py:97) every defined backend raises TypeError, which is
  `Worker.BackendCallAsWritten`; `Worker.AsWrittenLosesBackendResult` shows the effect.

## Findings

| source | as written | input that shows it | evidently intended | confidence | as-written member | corrected member |
|---|---|---|---|---|---|---|
| Gui/worker.py:97 | every backend is called with `context_worker=self`, which none of the `sniff_engine_*` functions accepts | a github.com releases URL: `github_api` raises TypeError, the chain logs the error and moves on, so a backend's success never reaches `sniff_finished` | call the backend with the URL only, so its dict is handled | not executed | Worker.AsWrittenLosesBackendResult | Worker.BackendSuccessReported |
| Gui/app_window.py:213-214 | only "html" and "github_api" results list their links | a successful browser result with engine "browser" (Gui/backend_scraper.py:175) and one link: the resource list is empty | show "browser" results like "html" ones | not executed | AppWindow.BrowserLinksHiddenAsWritten | AppWindow.BrowserLinksShown |
