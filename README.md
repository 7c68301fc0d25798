# TimeTracker core, modelled in Dafny

TimeTracker is a Windows activity logger. Once a second it reads the title of
the foreground window. When the title changes it closes the interval of the
previous window into an activity record (application, category, detail, start,
end, duration). On interrupt it appends the gathered records to a CSV log. A
small Flask relay holds the URL of the current browser tab, posted by a browser
extension, and hands it back to the tracker.

This project models:

- `url_relay.dfy` (`UrlRelay`): the relay's single slot `current_url` as the
  class `Relay`, with `SetUrl` (overwrite with the body's `url` field, or `None`
  when it is missing) and `GetUrl` (the slot, or `"No URL available"` when the
  slot is `None` or empty; always status 200).
- `classifier.dfy` (`Classifier`): `extract_website_or_tab` over Python's
  `in` and `rsplit(" - ", 1)`; `categorize_window` as written; the three-way
  outcome of `get_active_url`.
- `log_store.dfy` (`LogStore`): `log_data` as the class `LogFile`, whose
  optional table is created with the six-column header when absent and then
  extended with the new rows.
- `tracker.dfy` (`Tracker`): `track_time` as the class `Tracker` with `Step`
  (one poll), the pure specification `Next`/`Run` that `Step` is proved
  against, the polling loop `RunTracker`, and `TrackTime` (loop, then flush).
- `records.dfy` and `wrappers.dfy`: the record type and `Option`.

Design points:

- `categorize_window` tests `"Edge" or "Brave" in window_title`. In Python this
  is `"Edge" or ("Brave" in window_title)`, and the non-empty literal is always
  truthy. So every window is classified as Browser and the `"Application", "N/A"`
  branch is dead. The model keeps the guard as written and proves both facts.
- `if active_window:` is Python truthiness, so a tracked title that is `None`
  or `""` is left without a record. An empty title is still tracked, so the
  next change of title emits nothing for it.
- The window that is open when tracking stops is never recorded.
- Nothing in the source calls `extract_website_or_tab` (time_tracker.py:31-37);
  the model keeps it, with its properties, as an unused helper, and the detail
  of a record is the value `get_active_url` returns.
- With no URL set, the relay answers `"No URL available"`, and the host part of
  that text (as `urlparse` reads it) is empty; the detail is then that empty
  host part, not `"URL not available"`.
- Time is an integer clock reading passed in with each observation. The
  detail that `get_active_url` returns when an interval closes is passed in the
  same way.

## Model

| member | source | states |
|---|---|---|
| UrlRelay.Relay.constructor | flask_server.py:7 | the slot starts as `None` |
| UrlRelay.UrlField | flask_server.py:12 | the stored value is the body's `url` field when the key is present, `None` otherwise |
| UrlRelay.Served | flask_server.py:17 | the answer is never empty; it is the slot when the slot is truthy, the sentinel `"No URL available"` when it is `None` or empty |
| UrlRelay.Relay.SetUrl | flask_server.py:9-13 | the slot is overwritten unconditionally with the body's `url` field (or `None`); the reply is `("URL Updated", 200)` |
| UrlRelay.Relay.GetUrl | flask_server.py:15-17 | returns the slot when truthy, otherwise the sentinel; the text is never empty; the status is always 200 |
| UrlRelay.GetBeforeSet | flask_server.py:7-17 | before any `set_url`, `get_url` answers with the sentinel |
| UrlRelay.Replay | flask_server.py:9-17 | after a sequence of `set_url` calls the answer depends only on the last body: its `url` when non-empty, else the sentinel; with no calls, the sentinel |
| Classifier.LastOccurrenceFrom | time_tracker.py:34 | the result is an occurrence of the separator at or below the bound, with no occurrence between it and the bound; `None` only when there is no occurrence at or below the bound |
| Classifier.LastOccurrence | time_tracker.py:34 | `None` exactly when the separator does not occur; otherwise the highest index where it occurs |
| Classifier.RSplitOnce | time_tracker.py:34 | one part (the whole title) exactly when the separator is absent; otherwise two parts split at the last occurrence of the separator, which rebuild the title around it, the second free of the separator |
| Classifier.ExtractWebsiteOrTab | time_tracker.py:31-37 | a title without `" - "` gives `"Unknown Tab"` |
| Classifier.ExtractSplitsAtLastSeparator | time_tracker.py:33-37 | with `" - "` present, the text before its last occurrence is returned exactly when the browser name is in the text after it; otherwise `"Unknown Tab"` |
| Classifier.CategorizeWindow | time_tracker.py:39-44 | every title gets category Browser with the fetched detail; the `("Application", "N/A")` result never occurs |
| Classifier.ActiveUrlDetail | time_tracker.py:18-29 | the host part of the relayed text on status 200, `"URL not available"` on other statuses, `"Error fetching URL"` when the request fails |
| Classifier.FetchDetail | time_tracker.py:20-25 | against this relay, which always answers 200, the non-200 branch of `get_active_url` is never taken: the detail is the host part of the relay's answer (the stored URL, or the sentinel text when none is set) |
| LogStore.Appended | time_tracker.py:46-53 | on an absent file the table is the new rows under the six-column header; on an existing table the header is kept, old rows stay first and unchanged, new rows follow in order |
| LogStore.AppendedTwice | time_tracker.py:46-53 | flushing N rows then M rows equals flushing both batches at once; from an absent file the table holds N + M rows |
| LogStore.LogFile.LogData | time_tracker.py:46-53 | the file afterwards holds the appended table: header plus new rows if it was absent, old rows plus new rows otherwise |
| Tracker.Close | time_tracker.py:97-106 | the record carries the closed window's title, its start, the closing time, category Browser, the fetched detail, and duration = end − start |
| Tracker.Next | time_tracker.py:93-109 | one poll: same title leaves the state unchanged; a new title is tracked from this poll's time; earlier records stay, and exactly one record, for the outgoing title, is added iff that title is truthy |
| Tracker.Run | time_tracker.py:92-111 | polling a sequence: with no polls nothing changes; otherwise the tracked title is the last one polled; the starting records stay a prefix of the records |
| Tracker.Tracker.constructor | time_tracker.py:87-89 | no tracked window and no records |
| Tracker.Tracker.Step | time_tracker.py:93-109 | same title: nothing changes; new title: it is tracked from the current time, and exactly one record (previous title, its start, now, duration now − start, Browser) is appended iff the previous title is truthy |
| Tracker.RunFromInitial | time_tracker.py:86-116 | after a run, the tracked title is the last observed one and the record count equals the number of title changes whose outgoing title is non-empty |
| Tracker.RunKeepsLogsWellFormed | time_tracker.py:95-106 | every emitted record has duration = end − start, a non-empty application and category Browser |
| Tracker.RunAppendOnly | time_tracker.py:99 | records are only appended: the records after any prefix of the observations are a prefix of the final records |
| Tracker.RunTimesOrdered | time_tracker.py:95-109 | with a non-decreasing clock, each record starts no later than it ends and ends no later than the start of the open interval |
| Tracker.DurationsNonNegative | time_tracker.py:95-97 | with a non-decreasing clock every duration equals end − start and is non-negative |
| Tracker.OpenIntervalNotLogged | time_tracker.py:92-116 | further polls with the same title add no record, so the open interval is never logged unless a later change closes it |
| Tracker.ExampleRun | time_tracker.py:86-116 | Editor, Editor, `Browser - Tab`, Editor at seconds 0 to 3 give exactly two records: Editor 0–2 (2 s) and `Browser - Tab` 2–3 (1 s) |
| Tracker.RunTracker | time_tracker.py:91-111 | the polling loop returns the records of the run, as many as the closing transitions, all well formed |
| Tracker.TrackTime | time_tracker.py:86-116 | on interrupt the run's records are appended to the log file |

## Left out

- `get_active_window_title` (win32 foreground-window query): titles are an input sequence of observations.
- `urlparse(...).netloc` and the HTTP request in `get_active_url`: the host extraction is a function parameter and the reply is an abstract value (no reply, or a status and a body).
- `datetime.now()`, `time.sleep(1)` and `strftime`: each observation carries one integer clock reading. The source reads the clock twice per change (end of the old interval, start of the new one); the model uses the same reading for both. Start and End stay integers rather than formatted text.
- RunTimesOrdered, DurationsNonNegative: they assume a non-decreasing clock, which the source does not guarantee; `datetime.now()` is naive local time and can step backwards (a daylight-saving change, a clock reset), and the source then logs negative durations.
- Durations are integer seconds, not the float of `total_seconds()`.
- The CSV read and write of `log_data` (pandas): the file is an optional table value; column types and CSV quoting are not modelled.
- LogStore.Appended: does not model two effects of the re-read and concatenation in `log_data`. First, `pd.read_csv` turns cells such as `NA`, `N/A`, `None` or `null` into missing values, which the next write stores as empty cells, so an old row holding such text is altered. Second, `pd.concat` aligns columns by name, so an existing file with a different header ends up with the union of both headers rather than its own header kept. A file written only by `log_data` meets neither case except through such cell texts.
- `plot_browser_based` and `plot_category_based`: chart rendering only.
- The interactive command loop (`track`, `plot_browser`, `plot_category`, `exit`): dispatch over console input.
- Flask app wiring, `run_server` and the daemon server thread: network and concurrency plumbing; the relay is a plain object.
- `set_url` bodies are maps from field names to strings; a `url` field holding a non-string JSON value, or a body that is not JSON (which makes the handler fail), is not modelled.
- `content.js`, the browser extension that posts the tab URL: I/O glue.
- `print` output of the tracker.
