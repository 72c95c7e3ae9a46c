# Video link classifier and video store — a Dafny model

This project models the core of a desktop video-downloader tool. The core has two parts.

- **Link classification.** `LinkDetector` normalises a URL. It then tries five platforms in a fixed order: YouTube, Facebook, Instagram, TikTok, Douyin. Each platform has an ordered list of regular-expression rules, and the first rule that applies decides the platform, the link type, the content id and a description. Three smaller classifiers sit beside it:
  - `PlatformDetector` is a keyword matcher over a platform table.
  - `check_youtube_link` uses anchored YouTube patterns.
  - `takeVideoIDFromUrl` extracts a YouTube id.
- **Persistence.**
  - `Database` is a process-wide shared connection. Its query executor retries up to ten times while SQLite reports the database as locked.
  - `VideoDatabaseManager` holds the `videos` table statements.
  - `ConfigManager` loads and updates the filter settings.

Modules, one per file:

| file | module | models |
|---|---|---|
| text.dfy | `Text` | `Option`/`Result`, substring tests, ASCII `str.lower`, Python whitespace |
| patterns.dfy | `Patterns` | the fragment of `re.search` the link rules use (literals, greedy class runs, exact-length runs, one literal alternation), leftmost match |
| link_rules.dfy | `LinkRules` | the five rule tables, in the order the `_check_*` methods try them |
| link_detector.dfy | `LinkDetector` | normalisation, per-platform checks, `detect_link_type` and the derived queries |
| link_properties.dfy | `LinkProperties` | properties of the classifier: shadowed rules, profile exclusions, id shapes |
| platform_detector.dfy | `PlatformDetector` | keyword detection and display text, over a platform table given as a parameter |
| yt_loader.dfy | `YtLoader` | `check_youtube_link` (anchored `re.match`) and `takeVideoIDFromUrl` |
| database.dfy | `Database` | the retrying executor, read/write wrappers, `insert_db`, the singleton and its connection |
| video_repository.dfy | `VideoRepository` | the `videos` table as a sequence of rows plus the AUTOINCREMENT counter, and every statement of the manager |
| config_manager.dfy | `ConfigManager` | default filter, merge of a loaded file, update, getters |

Things outside the model are parameters:
- The database's answers are a sequence of per-attempt outcomes.
- The platform table (`PLATFORMS`) and the filter defaults (`FilterDefaults`) are not defined in the constants file, so they are inputs.
- What the config file yielded is an input too.

Where the documentation and the code disagree, the model follows the code:
- `_normalize_url` removes every trailing `/` (`rstrip('/')`), not just one. The scheme's `:` always survives, so the result is never empty.
- A URL starting `///` becomes `https:`.
- `insert_video` is a plain `INSERT`. The table has no uniqueness constraint on `video_id`, so inserting the same video twice gives two rows (`VideoRepository.InsertTwiceDuplicates`). It is not an insert-or-update.
- The Facebook check tries `web_share` before `web_profile`, which is not the order in which the patterns are declared. The rule table follows the order of the checks.

## Model

| member | source | states |
|---|---|---|
| Patterns.Search | src/link_detector.py:22-73 | `re.search` as used by the rules: it finds something exactly when the pattern matches at some position, and the captures come from the leftmost such position and fit the pattern's groups |
| Patterns.SearchSucceeds | src/link_detector.py:22-73 | a match at any position means the search finds something |
| Patterns.SearchFindsFirst | src/link_detector.py:22-73 | a match with no match before it is the one the search reports |
| Patterns.LeadingLiteralAbsent | src/link_detector.py:22-73 | a pattern whose leading literal does not occur is not found |
| Patterns.CapturesNonEmpty | src/link_detector.py:22-73 | every group of a rule is a `+` or `{n}` run, so no captured group is empty |
| LinkRules.YouTubeTableWellFormed | src/link_detector.py:23-32 | every YouTube rule is deterministic and its id group exists |
| LinkRules.FacebookTableWellFormed | src/link_detector.py:35-46 | every Facebook rule is deterministic and its id and description groups exist |
| LinkRules.InstagramTableWellFormed | src/link_detector.py:49-55 | likewise for Instagram |
| LinkRules.TikTokTableWellFormed | src/link_detector.py:58-66 | likewise for TikTok |
| LinkRules.DouyinTableWellFormed | src/link_detector.py:69-73 | likewise for Douyin |
| LinkRules.YouTubeLinkTypes | src/link_detector.py:125-168 | the YouTube check reports only video, shorts, live, music, playlist or channel |
| LinkRules.FacebookLinkTypes | src/link_detector.py:170-226 | the Facebook check reports only video, reel, shortlink, watch page, share or profile |
| LinkRules.InstagramLinkTypes | src/link_detector.py:228-256 | the Instagram check reports only post, reel, IGTV, profile or stories |
| LinkRules.TikTokLinkTypes | src/link_detector.py:258-311 | the TikTok check reports only video, shortlink, profile, playlist or live |
| LinkRules.DouyinLinkTypes | src/link_detector.py:313-331 | the Douyin check reports only video, profile or shortlink |
| LinkRules.YouTubeMusicRuleOnly | src/link_detector.py:148-151 | the music rule is the only YouTube rule reporting music |
| LinkRules.FacebookProfileRuleOnly | src/link_detector.py:218-224 | the web-profile rule is the only Facebook rule reporting a profile |
| LinkRules.TikTokPlaylistRuleOnly | src/link_detector.py:286-304 | the playlist rule is the only TikTok rule reporting a playlist |
| LinkDetector.CreateResult | src/link_detector.py:333-353 | a result is supported exactly when it names a platform, and it keeps the given type, id and description |
| LinkDetector.StripTrailingSlashes | src/link_detector.py:104-105 | `rstrip('/')`: the result is a prefix of the input, everything removed is `/`, and the result does not end in `/` |
| LinkDetector.WithScheme | src/link_detector.py:101-102 | a URL with an http(s) scheme is kept, and any other URL gets `https://` in front |
| LinkDetector.Normalize | src/link_detector.py:99-107 | the result starts with `http`, does not end in `/`, and is the schemed URL with only trailing `/` removed |
| LinkDetector.NormalizeIdempotent | src/link_detector.py:99-107 | normalising a normalised URL that kept its scheme changes nothing |
| LinkDetector.ApplyRule | src/link_detector.py:128-131 | a rule produces a result exactly when its pattern is found and none of its exclusions occurs; the result has the rule's platform and type, and its id is the rule's group of the leftmost match |
| LinkDetector.AppliedIdNonEmpty | src/link_detector.py:128-131 | the content id reported by an applying rule is never empty |
| LinkDetector.Winner | src/link_detector.py:125-168 | the first rule, in order, that applies; none when no rule applies |
| LinkDetector.CheckRules | src/link_detector.py:125-168 | the first applying rule produces the platform's result; otherwise the result is unsupported with the platform's "not valid" text |
| LinkDetector.CheckYouTube | src/link_detector.py:125-168 | a YouTube result with a non-empty id, or "Không phải link YouTube hợp lệ" |
| LinkDetector.CheckFacebook | src/link_detector.py:170-226 | a Facebook result with a non-empty id, or the Facebook "not valid" text |
| LinkDetector.CheckInstagram | src/link_detector.py:228-256 | an Instagram result with a non-empty id, or the Instagram "not valid" text |
| LinkDetector.CheckTikTok | src/link_detector.py:258-311 | a TikTok result with a non-empty id, or the TikTok "not valid" text |
| LinkDetector.CheckDouyin | src/link_detector.py:313-331 | a Douyin result with a non-empty id, or the Douyin "not valid" text |
| LinkDetector.CheckPlatform | src/link_detector.py:109-123 | dispatching to a platform's check gives a result for that platform or its "not valid" text |
| LinkDetector.FirstSupported | src/link_detector.py:92-97 | the first supported result of the checks, in order, or "Platform không được hỗ trợ" when none is supported |
| LinkDetector.DetectNormalized | src/link_detector.py:92-97 | the first platform, in the fixed order, whose check succeeds decides the result; no earlier platform succeeds; if none succeeds the result is unsupported |
| LinkDetector.DetectLinkType | src/link_detector.py:75-97 | a blank URL gives "URL trống"; otherwise the normalised URL's first successful platform check; a supported result has a type and a non-empty id, and an unsupported one has neither |
| LinkDetector.ExtractVideoId | src/link_detector.py:405-408 | an id exactly for supported links, and never an empty one |
| LinkDetector.IsPlaylistLink | src/link_detector.py:410-413 | true exactly when the detected type is playlist; such a link has an id |
| LinkDetector.IsChannelLink | src/link_detector.py:415-418 | true exactly when the detected type is channel or profile |
| LinkDetector.IsLiveLink | src/link_detector.py:420-423 | true exactly when the detected type is live |
| LinkProperties.WinningRule | src/link_detector.py:125-331 | a supported platform result is the output of its first applying rule: same type and id group |
| LinkProperties.ReportedTypeOfPlatform | src/link_detector.py:109-331 | a platform check only reports link types that its own rules report |
| LinkProperties.YouTubeSubdomainsShadowed | src/link_detector.py:128-166 | any URL the music or mobile pattern finds is already caught by the standard-video rule, as a plain "Video YouTube" |
| LinkProperties.NeverMusic | src/link_detector.py:75-97 | no URL at all is classified as a YouTube Music link |
| LinkProperties.FacebookSubdomainsShadowed | src/link_detector.py:183-206 | any URL the mobile or web-mobile pattern finds is caught no later than the page-video rule, as a video |
| LinkProperties.FacebookPageUrlMatch | src/link_detector.py:38 | the page video pattern finds `https://facebook.com/<name>/videos/<id>` and captures the name and the id |
| LinkProperties.FacebookPageUrlWinner | src/link_detector.py:174-186 | on such a link without a '?', both watch rules fail and the page video rule is the first that applies |
| LinkProperties.FacebookPageUrlIsVideo | src/link_detector.py:183-186 | such a link is a Facebook video with the id `<id>`, described as "Video Facebook từ <name>" |
| LinkProperties.FacebookPageLinkIsVideo | src/link_detector.py:183-186 | `https://facebook.com/alice/videos/555` is the Facebook video "555", described as "Video Facebook từ alice" |
| LinkProperties.NoYNotYouTube | src/link_detector.py:23-32 | every YouTube pattern's leading literal holds a `y`, so the YouTube check finds nothing in a URL without one |
| LinkProperties.FacebookPageUrlNormal | src/link_detector.py:75-107 | a page video link is not blank, and normalising it leaves it unchanged |
| LinkProperties.FacebookPageUrlDetected | src/link_detector.py:75-97 | `detect_link_type` on `https://facebook.com/<name>/videos/<id>`, with no `y` or `?` in the name, gives the Facebook video `<id>`, described with the name |
| LinkProperties.FacebookPageLinkDetected | src/link_detector.py:75-97 | `detect_link_type("https://facebook.com/alice/videos/555")` is the Facebook video "555", described as "Video Facebook từ alice" |
| LinkProperties.FacebookProfileExcluded | src/link_detector.py:218-224 | a Facebook profile result never comes from a URL containing `/watch/`, `/videos/`, `/reel/` or `/share/` |
| LinkProperties.FacebookProfileAccepted | src/link_detector.py:218-224 | when no earlier rule applies and the profile pattern is found, the URL is a profile exactly when it contains none of those markers |
| LinkProperties.InstagramProfileExcluded | src/link_detector.py:246-249 | an Instagram profile result never comes from a URL containing `/p/`, `/reel/`, `/tv/` or `/stories/` |
| LinkProperties.InstagramProfileAccepted | src/link_detector.py:246-249 | when no earlier rule applies and the profile pattern is found, the URL is a profile exactly when it contains none of those markers |
| LinkProperties.TikTokProfileExcluded | src/link_detector.py:281-284 | a TikTok profile result never comes from a URL containing `/video/`, `/playlist/` or `/live` |
| LinkProperties.TikTokProfileAccepted | src/link_detector.py:281-284 | when no earlier rule applies and the profile pattern is found, the URL is a profile exactly when it contains none of those markers |
| LinkProperties.YouTubeVideoIdShape | src/link_detector.py:24-31 | a YouTube video id is exactly eleven characters from `[a-zA-Z0-9_-]` |
| LinkProperties.FacebookVideoIdNumeric | src/link_detector.py:36-42 | a Facebook video id is all digits: every Facebook video rule takes its id from its `\d+` group, not from the page-name group |
| LinkProperties.TikTokVideoIdNumeric | src/link_detector.py:59-60 | a TikTok video id is all digits: both TikTok video rules take their id from the `\d+` group, not from the user-name group |
| LinkProperties.DouyinVideoIdNumeric | src/link_detector.py:70 | a Douyin video id is all digits |
| LinkProperties.TikTokPlaylistId | src/link_detector.py:286-304 | a TikTok playlist result's id is the raw playlist segment, which is also the one its description is built from |
| PlatformDetector.AnyKeyword | src/platform_detector.py:31-32 | the inner keyword loop finds a keyword exactly when one of the remaining keywords occurs in the text |
| PlatformDetector.DetectPlatform | src/platform_detector.py:15-40 | None for a blank URL; otherwise the first entry in table order with a keyword in the lower-cased URL, and None only when no entry has one |
| PlatformDetector.IsPlatformSupported | src/platform_detector.py:69-79 | supported exactly when the URL is not blank and some entry's keyword occurs in it, lower-cased |
| PlatformDetector.DisplayText | src/platform_detector.py:42-63 | the error text when nothing is detected; otherwise emoji, space and name, with " đang phát triển" for Douyin |
| PlatformDetector.SupportedPlatforms | src/platform_detector.py:81-96 | one summary per table entry, in table order, with its key, name, emoji and keywords |
| PlatformDetector.SupportedKeysUnique | src/platform_detector.py:81-96 | listed keys are distinct |
| PlatformDetector.DetectedIsListed | src/platform_detector.py:15-40 | whatever is detected is listed with the same key, name and emoji |
| PlatformDetector.DetectIgnoresCase | src/platform_detector.py:28 | lower-casing the URL first changes nothing |
| PlatformDetector.CapitalKeywordNeverMatches | src/platform_detector.py:28-32 | only the URL is lower-cased, so a keyword holding an ASCII capital never matches |
| PlatformDetector.DisplayErrorIffUnsupported | src/platform_detector.py:52-55 | with non-empty emojis that do not start with the error mark, the display shows the error text exactly when the URL is unsupported |
| PlatformDetector.FixtureFirstEntryWins | src/main_window.py:241-267 | with the main window's table, a YouTube URL mentioning `fb.com` is reported as Facebook: table order decides |
| PlatformDetector.FixtureFirstEntryDisplay | src/main_window.py:241-267 | and it is displayed as "📘 Facebook" |
| YtLoader.CheckYouTubeLink | src/yt_loader.py:68-81 | playlist exactly when the playlist pattern matches at the start; channel when only the channel pattern does; video when only the video pattern does; error otherwise |
| YtLoader.TakeVideoIdFromUrl | src/yt_loader.py:84-90 | the id after `watch?v=` when there is one; when there is none, the id after `shorts/` if there is one; else None; an id is a non-empty run of `[a-zA-Z0-9_-]` |
| YtLoader.NoHostIsError | src/yt_loader.py:68-81 | a link with no `y` wherever the optional scheme/`www.` prefix can end is an error |
| YtLoader.MobileLinkIsError | src/yt_loader.py:68-81 | matching is anchored: every `https://m.` link is an error |
| YtLoader.NoMarkNoId | src/yt_loader.py:84-90 | without `watch?v=` and `shorts/` there is no id |
| YtLoader.WatchUrlRoundTrip | src/yt_loader.py:68-90 | `https://www.youtube.com/watch?v=<id>` is a video link and its id is taken back unchanged |
| YtLoader.WatchWithListIsPlaylist | src/yt_loader.py:72-75 | a watch link that also carries `&list=` is a playlist, because the playlist pattern is tried first |
| YtLoader.ShortLinkVideoWithoutId | src/yt_loader.py:68-90 | `https://youtu.be/<id>` is classified as a video, yet no id is taken from it |
| Database.Fetched | src/DBF.py:54-66 | `fetch` returns all rows, `fetchone` the first row or None, and otherwise nothing |
| Database.RetryFromSpec | src/DBF.py:51-76 | from attempt `n` after `n` locked attempts: all ten locked gives "max retries exceeded", else the first unlocked attempt settles the call |
| Database.ExecuteQuerySpec | src/DBF.py:36-76 | ten locked attempts raise "Database is locked and max retries exceeded." after ten waits; otherwise the first attempt that is not locked returns its rows, re-raises its operational error, or propagates its other error |
| Database.ExecuteQueryBounds | src/DBF.py:36-76 | between one and ten attempts, one wait per locked attempt, and a commit exactly when commit was asked for and the call returned |
| Database.RunQuery | src/DBF.py:51-76 | the `for … else` loop computes the same execution as the recursive definition, within ten attempts |
| Database.ExecuteRead | src/DBF.py:78-88 | a read never commits |
| Database.ExecuteWrite | src/DBF.py:90-98 | a write returns nothing and commits exactly when it succeeds |
| Database.InsertDb | src/DBF.py:109-117 | a failed write fails the insert; after a successful write, a failed `last_insert_rowid()` select fails the insert with the select's error, a non-empty row gives its first field, and no row or an empty row gives None; a success means the write committed |
| Database.Connect | src/DBF.py:23-28 | connecting opens the connection and keeps path and timeout; an open connection is left as it is |
| Database.Close | src/DBF.py:30-34 | closing closes the connection; a closed one is left as it is |
| Database.CloseShared | src/DBF.py:30-34 | closing the shared instance closes the stored `_instance` itself; with no instance, nothing changes |
| Database.CloseThenGetInstanceStaysClosed | src/DBF.py:16-34 | after the shared instance is closed, every later `get_instance` returns that same closed instance: an existing instance is never reconnected |
| Database.GetInstance | src/DBF.py:16-21 | the first call creates and connects the instance; later calls return the stored instance unchanged |
| Database.GetInstanceIsSingleton | src/DBF.py:16-21 | a second call returns the first call's instance, whatever its arguments |
| Database.ConnectCloseIdempotent | src/DBF.py:23-34 | connect and close are idempotent on one instance, and closing then connecting that instance gives it back connected (no path of the program makes that second `connect` call on the shared instance) |
| VideoRepository.Insert | src/database_manager.py:45-69 | appends one row with progress 0 and a fresh id above every existing id, and keeps the table valid |
| VideoRepository.InsertWithDefaults | src/database_manager.py:45-46 | without a video id or file path, the row is pending |
| VideoRepository.InsertThenGet | src/database_manager.py:45-79 | the inserted row is found under the returned id |
| VideoRepository.InsertTwiceDuplicates | src/database_manager.py:63-69 | inserting the same video twice gives two rows with different ids and the same video id |
| VideoRepository.CountAfterInsert | src/database_manager.py:138-141 | an insert raises the count by one |
| VideoRepository.GetAll | src/database_manager.py:71-74 | every row, by ascending id |
| VideoRepository.GetById | src/database_manager.py:76-79 | a row exactly when one has that id, and then it is that row |
| VideoRepository.Search | src/database_manager.py:81-96 | the rows whose title, link or video id contains the keyword, ignoring ASCII case, by ascending id |
| VideoRepository.SearchEmptyKeyword | src/database_manager.py:91-96 | the empty keyword finds every row |
| VideoRepository.UpdateStatus | src/database_manager.py:98-116 | the row with that id gets the status, and the progress only when one is given; every other row and field is unchanged |
| VideoRepository.UpdateStatusThenGet | src/database_manager.py:98-116 | after an update the row reads back with the new status, and every other id reads back as before |
| VideoRepository.UpdateFilePath | src/database_manager.py:118-123 | the row with that id gets the file path; every other row is unchanged |
| VideoRepository.UpdateMissingIdNoop | src/database_manager.py:98-123 | updating an id that is not in the table changes nothing |
| VideoRepository.DeleteRow | src/database_manager.py:125-127 | exactly the rows with other ids remain, and the counter is kept |
| VideoRepository.CountAfterDelete | src/database_manager.py:125-141 | deleting by id lowers the count by one when the id was present, and otherwise leaves it |
| VideoRepository.DeleteAll | src/database_manager.py:129-131 | no rows remain and the counter is kept |
| VideoRepository.FirstInsertGetsOne | src/database_manager.py:27-69 | the empty table is valid and empty, and the first insert gets id 1 |
| VideoRepository.IdsNotReused | src/database_manager.py:27-43 | after deleting everything, AUTOINCREMENT still hands out an id above every id the table ever held |
| VideoRepository.ByStatus | src/database_manager.py:133-136 | the rows whose stored status text equals the argument, by ascending id |
| VideoRepository.ByStatusUnknownText | src/database_manager.py:133-136 | a text that is no status's text selects nothing |
| VideoRepository.UpdateStatusThenByStatus | src/database_manager.py:98-136 | after a status update, the row is listed under its new status |
| VideoRepository.Count | src/database_manager.py:138-141 | the number of rows; zero exactly when no id is present |
| VideoRepository.EntryOf | src/database_manager.py:148 | the table entry with that key, and none exactly when no entry has it |
| VideoRepository.ByPlatform | src/database_manager.py:143-164 | nothing for an unknown key; otherwise the rows whose link contains one of the platform's keywords, by ascending id |
| VideoRepository.DetectedVideoListed | src/database_manager.py:143-164 | with lower-case keywords and distinct keys, a video whose link the keyword detector assigns to a platform is listed under that platform |
| VideoRepository.BindError | src/DBF.py:47 | after `params or ()`, binding succeeds exactly when the number of supplied values equals the number of placeholders: a tuple's length, or a bare string's character count; any other bare value is an unsupported parameter type, and a wrong count is the bindings error |
| VideoRepository.WithParams | src/DBF.py:47-53 | when binding fails, every attempt fails with the binding error, which is not an operational error |
| VideoRepository.DeleteVideoAsWrittenRaises | src/database_manager.py:125-127 | as written, deleting a video raises on the first attempt, whatever the database would answer, and commits nothing |
| VideoRepository.DeleteVideoRemovesRow | src/database_manager.py:125-127 | with the id in a tuple, the delete succeeds exactly when the write does, and then removes that row and only that row |
| ConfigManager.DefaultConfig | src/config_manager.py:20-29 | exactly the four filter keys, each holding its default |
| ConfigManager.Merge | src/config_manager.py:47-58 | exactly the four keys; a key takes the loaded value when the loaded "filter" has it, and the default otherwise; unknown keys are dropped |
| ConfigManager.Load | src/config_manager.py:31-45 | a missing file, a JSON decode error or a read error gives the defaults; a decoded object is merged over the defaults |
| ConfigManager.UpdateFilter | src/config_manager.py:72-84 | each given argument is stored under its key; every other key keeps its value, and no key outside the four appears |
| ConfigManager.Get | src/config_manager.py:88-102 | the stored value, or the default when the key is missing |
| ConfigManager.MergeThenGet | src/config_manager.py:47-102 | after loading, a getter sees the loaded value when the file had one, else the default |
| ConfigManager.UnusableFileGivesDefaults | src/config_manager.py:42-45 | a missing file, a JSON decode error, a read error, or an object without "filter" leaves every getter at its default |
| ConfigManager.UpdateThenGet | src/config_manager.py:72-102 | after an update a getter sees the given argument, or the value it saw before |
| ConfigManager.UpdateNothingIsIdentity | src/config_manager.py:72-84 | an update without arguments changes nothing |
| ConfigManager.UpdateKeepsKeys | src/config_manager.py:72-84 | an update keeps exactly the four keys |
| ConfigManager.SaveThenLoad | src/config_manager.py:31-66 | saving a configuration with the four keys and loading it back gives the same configuration |

## Left out

- `\d` is modelled as the ASCII digits. Python's `\d` on `str` patterns also accepts other Unicode decimal digits.
- `str.lower` is modelled on ASCII letters only. Non-ASCII case mapping is not modelled.
- The optional `(?:https?://)?(?:www\.)?` prefix of the link rules is not part of the rule patterns. `re.search` is unanchored, and no rule's core starts with a suffix of `https://www.`, so the prefix changes neither whether a rule matches nor what it captures.
- LinkDetector.Describe: the TikTok playlist description is kept as the (user, playlist segment) pair it is built from. The percent-decoding (`unquote`) and the `rsplit('-', 1)` that produce the displayed name are not modelled.
- LinkDetector.CreateResult: `platform_info` (name and emoji looked up in `PLATFORMS`) is not modelled, because `PLATFORMS` is not defined in the source files of this model.
- `_check_platform`'s "Platform không xác định" branch is unreachable for the five platform keys that `detect_link_type` passes, so it is not modelled.
- `get_supported_link_types` is a constant listing of display strings, and `validate_url` delegates to `urlparse`. Neither is modelled.
- The style sheets returned alongside the display text, and `get_default_display`, are UI constants and are not modelled.
- The `run()` thread of the YouTube loader, the YouTube API calls and `getAndCheckApiCookie` (file reads of API keys and cookies) are I/O and are not modelled.
- The database itself is not modelled: each attempt's outcome (rows, operational error, other error) is an input. The one-second waits are counted, not performed. Logging is not modelled.
- The `PRAGMA journal_mode=WAL` set-up, failures to connect, and the `async` scheduling are not modelled.
- `created_at` and `updated_at` timestamps are not modelled.
- VideoRepository.Like: `%` and `_` inside a search keyword are SQL `LIKE` wildcards. The model treats the keyword as a literal substring.
- VideoRepository.Insert: column types are taken as given (ints for views and likes, text for the rest). SQLite's type affinity conversions are not modelled.
- `update_db`, `fetch_one` and `fetch_all` are the executor with `commit=True`, `fetchone=True` or `fetch=True`. They appear only through `ExecuteWrite`, `ExecuteRead` and the repository statements.
- ConfigManager: loaded filter values are taken to be integers. A non-object "filter" entry (which would raise outside the caught exceptions) and non-integer values are not modelled. File reads and writes (`os.path.exists`, `open`, `json.load`, `json.dump`) and the error prints are not modelled, and a failing `save_config` only prints, so it changes no state.
- Database.Close: `Close` acts on one instance value. The sharing of the one `_instance` object is modelled through the registry: `CloseShared` closes the stored instance, and `get_instance` then keeps returning it closed. What a query does on the closed instance (`self.connection` is None, so `execute` raises `AttributeError`) is not modelled. The executor is stated for an open connection.
- VideoRepository.UpdateStatus: stored statuses are limited to the six `DownloadStatus` texts. The `status` column and `update_video_status` accept any string, but every call in the program passes one of those constants. `ByStatusUnknownText` relies on this restriction.
- ConfigManager.Load: only the two exceptions `_load_config` catches (`json.JSONDecodeError` and `IOError`) fall back to the defaults. Inputs that raise out of the constructor instead are not modelled. These are a file that is not valid UTF-8 (`UnicodeDecodeError` is neither caught exception), and a top level that is not a JSON object, such as a number, `null`, or a string or list containing "filter".
- ConfigManager.UpdateFilter: `save_config` after the update is not modelled (file I/O).

## Findings

| source | as written | input that shows it | evidently intended | confidence | as-written member | corrected member |
|---|---|---|---|---|---|---|
| src/database_manager.py:127 | `delete_video` passes `record_id` itself as the statement parameters, not a one-element tuple. The executor's `params or ()` keeps a non-zero int as it is, and SQLite refuses it as a parameter sequence ("parameters are of unsupported type"). A zero id becomes `()`, and binding fails with "Incorrect number of bindings supplied". Neither is an operational error, so the first attempt raises and nothing is deleted. | `delete_video(1)` on any table, including one that holds row 1 | pass `(record_id,)` so the row with that id is deleted | high (not executed) | VideoRepository.DeleteVideoAsWrittenRaises | VideoRepository.DeleteVideoRemovesRow |
