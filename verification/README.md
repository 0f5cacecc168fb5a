# yt_api: the download coordination layer, modelled and proved in Dafny

`yt_api.py` is a small HTTP service that fetches YouTube audio or video with
the external `yt-dlp` tool. It stores the files in one download directory and
remembers in a `url_cache` map which file serves which `<video id>_<type>`.
This project models the logic behind its two download endpoints,
`POST /download` (`download_media`) and `POST /get` (`get_media`), and the
`DELETE /cache` endpoint (`clear_cache`). It consists of:

- `sanitizer.dfy`, module `Sanitizer`. This is `sanitize_title`, a pure string
  transform. Python's Unicode `\w` is a parameter `isWordChar`. The clock read by
  `int(time.time())` is a parameter `clock`.
- `video_id.dfy`, module `VideoId`. These are `extract_video_id` (the four
  regular expressions as literal alternatives plus a leftmost search) and the
  fallbacks of `get_video_info`. The two `yt-dlp` queries are `Option` inputs.
  MD5 is an uninterpreted function that returns 32 lower-case hex digits.
- `listing.dfy`, module `Listing`. The download directory is a listing of file
  names, lock markers included. This module has the three changes the program
  makes to it: create, unlink and rename.
- `lookup.dfy`, module `Lookup`. This is `find_existing_file` as a function: the
  live cache entry first, then the extensions in preference order. For each
  extension it tries `*__<id>.<ext>` before `<id>*.<ext>`, and the first
  match in listing order wins. The model keeps glob's rule that `*` never
  matches a leading `.`.
- `locks.dfy`, module `Locks`. These are `create_lock` and `remove_lock` on the
  marker `.<key>.lock`.
- `orchestrator.dfy`, module `Orchestrator`. This is the request flow of
  `download_media`/`get_media`, written as a function from the state before a
  request (listing and cache) to the response and the state after it:
  - a hit on an existing file;
  - otherwise the 180-poll wait when another request holds the lock;
  - otherwise the download under the lock, the safe rename, the cache update
    and the release of the lock in `finally`.

  Everything learned from outside comes in as an `Env`: the answers of
  `yt-dlp`, the clock, the listing another process leaves at each poll, and
  whether `os.rename` fails.
- `server.dfy`, module `Api`. The process is a `Server` class whose fields are
  the listing and `url_cache`. Its methods are `find_existing_file` (a loop over
  the extensions), `create_lock`, `remove_lock`, the polling loop, the locked
  download, both endpoints and `clear_cache`. Each method is proved equal to the
  matching function above, so every lemma about those functions holds of the
  methods. The object invariant `Valid` says that no cache value is a lock
  marker, and every endpoint keeps it.
- `wrappers.dfy`, module `Wrappers`. This is the `Option` type.

Two consequences of the code are worth stating:

- The lookup interleaves the two patterns per extension (yt_api.py:149-160):
  `*__<id>.mp3`, then `<id>*.mp3`, then `*__<id>.m4a`, and so on. `Lookup.Scan`
  does the same.
- A download renamed to `<title>.<ext>` matches neither lookup pattern of its
  video unless the title starts with the video id. A sanitised title has no
  `__`, so the name never ends in `__<id>.<ext>`. When the title query fails the
  title is `video_<id>` (yt_api.py:126), which contains the id but does not
  start with it. So once the cache entry is gone (`DELETE /cache`, or a lost
  `.cache.json`), `find_existing_file` no longer finds the file, and the video
  is downloaded again. `Orchestrator.CleanNameUnmatched` and
  `Orchestrator.ClearedCacheForgetsCleanName` state this.

## Model

| member | source | states |
|---|---|---|
| Sanitizer.ReplaceUnsafeRuns | yt_api.py:64 | every character left is in `[\w\-\._]` and is `_` or came from the input; `RunsKeepSolid` and `RunsAreCollapsedUnsafeChars` state what survives and where each `_` goes |
| Sanitizer.RunsKeepSolid | yt_api.py:64 | the input's kept characters other than `_` all survive the run substitution, in their order |
| Sanitizer.MapUnsafe | yt_api.py:64 | no ensures; the reference substitution that turns each unsafe character into its own `_`, used by `RunsAreCollapsedUnsafeChars` |
| Sanitizer.RunsThenSqueeze | yt_api.py:64-66 | after the collapse, one `_` per unsafe run equals one `_` per unsafe character, after any prefix that ends in `_` when a run is open |
| Sanitizer.RunsAreCollapsedUnsafeChars | yt_api.py:64-66 | collapsing the run substitution equals collapsing the per-character substitution, so each unsafe run leaves exactly one `_` in its place |
| Sanitizer.SpacesBecomeUnderscores | yt_api.py:64-66 | safe words joined by one unsafe space come out joined by one `_`, as in `"a b"` to `"a_b"` |
| Sanitizer.ReplaceSlashes | yt_api.py:59 | no ensures; `SanitizeShape` states that no unicode slash survives |
| Sanitizer.ReplaceReserved | yt_api.py:62 | no ensures; `SanitizeShape` states that no reserved character survives |
| Sanitizer.SqueezeUnderscores | yt_api.py:66 | the result has no `__` and keeps the first character, and only `_` are dropped: the other characters all survive, in their order |
| Sanitizer.SqueezePair | yt_api.py:66 | the collapse treats `__` as `_` wherever it occurs, so with `SqueezeFixesSingleUnderscores` it is the in-place rewrite of `__` to `_` until none is left |
| Sanitizer.StripLeading | yt_api.py:67 | the result is the suffix left after the leading `_ . -`; everything dropped is a separator and the result does not start with one |
| Sanitizer.StripTrailing | yt_api.py:67 | the result is the prefix left before the trailing `_ . -`; everything dropped is a separator and the result does not end with one |
| Sanitizer.Strip | yt_api.py:67 | no ensures; `StripLeading` and `StripTrailing` fix both halves, and `StripShapes` states the clean ends |
| Sanitizer.DigitChar | yt_api.py:69 | a digit below 10 becomes the character `0`-`9` that denotes it |
| Sanitizer.Decimal | yt_api.py:69 | `str(n)` is non-empty, all decimal digits, and has no leading zero |
| Sanitizer.DecimalRoundTrip | yt_api.py:69 | the digits of `str(n)` denote n, so `file_<timestamp>` carries the timestamp |
| Sanitizer.FallbackName | yt_api.py:68-69 | no ensures; `FallbackShaped` and `DecimalRoundTrip` state that it is a shaped `file_` followed by the clock's digits |
| Sanitizer.PyHead | yt_api.py:71 | `s[:n]` is a prefix of `s`, of length `min(n, len(s))` when `n >= 0` |
| Sanitizer.Cleaned | yt_api.py:59-67 | no ensures; `CleanedShaped` and `CleanedKept` state its contract |
| Sanitizer.Truncate | yt_api.py:70-71 | no ensures; `TruncateShaped` states its contract |
| Sanitizer.SanitizeTitle | yt_api.py:48-72 | no ensures; `SanitizeShape`, `SanitizeKeepsOnlySafeClass`, `SanitizeFixesShaped` and `SanitizeIdempotent` state its contract |
| Sanitizer.PrefixKeepsShape | yt_api.py:71 | a prefix of a string without unsafe characters or `__` has neither |
| Sanitizer.SuffixKeepsShape | yt_api.py:67 | a suffix of a string without unsafe characters or `__` has neither |
| Sanitizer.StripShapes | yt_api.py:67 | stripping a string free of unsafe characters and `__` leaves one that also has clean ends |
| Sanitizer.FallbackShaped | yt_api.py:68-69 | `file_<digits>` is non-empty and shaped, and made only of ASCII letters, digits and `_` |
| Sanitizer.CleanedShaped | yt_api.py:59-67 | after replacement, run squeezing and stripping, the title has no unsafe character, no `__` and no separator at either end |
| Sanitizer.CleanedKept | yt_api.py:59-67 | after those steps every character is in `[\w\-\._]` |
| Sanitizer.TruncateShaped | yt_api.py:70-71 | truncation keeps a non-empty shaped string shaped and within `max_len`, and it is empty only for `max_len == 0` |
| Sanitizer.SanitizeShape | yt_api.py:48-72 | the output never holds a reserved character (`<>:"/\?*`, the pipe), newline, CR, tab or a unicode slash, never holds `__`, never starts or ends with `_ . -`, has at most `max_len` characters, and is empty exactly when `max_len == 0` |
| Sanitizer.SanitizeKeepsOnlySafeClass | yt_api.py:59-71 | every output character is a word character, `.`, `-` or `_` |
| Sanitizer.UnsafeRunsFixKeptStrings | yt_api.py:64 | a string made only of kept characters passes the run substitution unchanged |
| Sanitizer.SqueezeFixesSingleUnderscores | yt_api.py:66 | a string without `__` passes the collapse unchanged |
| Sanitizer.SanitizeFixesShaped | yt_api.py:56-72 | a shaped, non-empty, kept string within `max_len` is its own sanitisation |
| Sanitizer.SanitizeIdempotent | yt_api.py:56-72 | for a fixed clock, `sanitize_title(sanitize_title(t)) == sanitize_title(t)` |
| VideoId.GroupAt | yt_api.py:93-95 | group 1 at a position exists iff some alternative matches there, and it is 11 id characters |
| VideoId.SearchFrom | yt_api.py:93 | `re.search` answers the leftmost matching position, with no match before it, and None only when no position matches |
| VideoId.Search | yt_api.py:93-95 | no ensures; `SearchFrom` and `GroupAt` state that it is the group at the leftmost match |
| VideoId.FirstPatternMatch | yt_api.py:92-95 | a match of the pattern loop is 11 characters of `[0-9A-Za-z_-]` |
| VideoId.ExtractVideoId | yt_api.py:81-98 | the id always has 11 characters, all from `[0-9A-Za-z_-]` |
| VideoId.GroupOfFirstPattern | yt_api.py:86 | pattern 1 matches at a position iff `v=` or `/` followed by 11 id characters is there, and its group is the 11 characters after `v=` (preferred) or `/` |
| VideoId.SlashAlternativeImpliesFirstPattern | yt_api.py:86-89 | wherever a literal ending in `/` is followed by 11 id characters, pattern 1 matches too |
| VideoId.SlashPatternImpliesFirstPattern | yt_api.py:86-89 | a pattern whose literal ends in `/` matches only urls that pattern 1 matches |
| VideoId.OnlyFirstPatternDecides | yt_api.py:85-98 | patterns 2-4 never decide: the id is pattern 1's group, else the digest prefix |
| VideoId.ExtractFindsLeftmostMatch | yt_api.py:86-95 | with `v=` or `/` plus 11 id characters at `i` and no such match before, the id is those 11 characters |
| VideoId.ExtractFallsBackToDigest | yt_api.py:97-98 | with no such match anywhere, the id is the first 11 hex digits of the url's MD5 |
| VideoId.ShortLinkHostHasNoMatch | yt_api.py:86 | `https://youtu.be/` holds no match of pattern 1 before the id |
| VideoId.ShortLinkGivesId | yt_api.py:86-95 | `https://youtu.be/<id>` gives `<id>` for every 11-character id |
| VideoId.ShortLinkExample | yt_api.py:86-95 | `https://youtu.be/dQw4w9WgXcQ` gives `dQw4w9WgXcQ` |
| VideoId.GetVideoInfo | yt_api.py:101-128 | the id is the tool's answer, else the extracted 11-character id; the title is the tool's answer, else `video_<id>` |
| Listing.AddFile | yt_api.py:169 | creating a name adds exactly that name and keeps the listing before it |
| Listing.AddAll | yt_api.py:288 | the files `yt-dlp` writes are added, and nothing is lost or reordered |
| Listing.Without | yt_api.py:181-183 | unlinking removes exactly that name, keeps the others, and changes nothing when the name is absent |
| Listing.Renamed | yt_api.py:304 | renaming keeps the listing's length, removes `from` and adds `to` only when `from` was present |
| Listing.WithoutUndoesAdd | yt_api.py:169-183 | unlinking a name that was just created restores the listing |
| Listing.DistinctCons | yt_api.py:301-305 | a listing with a head has no doubled name iff its head is not in its tail and its tail has none |
| Listing.AddAllKeepsDistinct | yt_api.py:288 | creating names never doubles a name |
| Listing.AddFileKeepsDistinct | yt_api.py:169 | creating a name never doubles a name |
| Listing.WithoutKeepsDistinct | yt_api.py:183 | unlinking never doubles a name |
| Listing.RenamedKeepsDistinct | yt_api.py:302-304 | renaming onto an absent name never doubles a name |
| Lookup.Kind.Extensions | yt_api.py:136-139 | each kind has five distinct extensions of three or four letters, in preference order; `DefaultExtension` is the first |
| Lookup.Kind.DefaultExtension | yt_api.py:257-265 | the clean name's extension is the kind's first extension (`mp3` or `mp4`) |
| Lookup.Glob | yt_api.py:152 | `glob` answers exactly the listed names the pattern matches, with hidden names excluded unless the pattern starts with `.` |
| Lookup.Scan | yt_api.py:149-162 | the scan answers None iff no pattern of any extension matches a listed name, and otherwise a listed name that matches one |
| Lookup.Hidden | yt_api.py:152 | no ensures; glob's rule that `*` never matches a leading `.`, which `Matches` applies and `MarkerMatchesNoPattern` uses |
| Lookup.SuffixPattern | yt_api.py:151 | no ensures; the pattern `*__<id>.<ext>`, which `OutputNameMatches` shows the download's name matches and `CleanNameUnmatched` shows the clean name misses |
| Lookup.PrefixPattern | yt_api.py:157 | no ensures; the pattern `<id>*.<ext>`, which `CleanNameUnmatched` shows a clean name misses unless the title starts with the id |
| Lookup.Matches | yt_api.py:151-158 | no ensures; `MarkerMatchesNoPattern`, `OutputNameMatches` and `CleanNameUnmatched` state what it accepts |
| Lookup.PickFor | yt_api.py:150-160 | no ensures; `ScanFollowsPreferenceOrder` states that `*__<id>.<ext>` beats `<id>*.<ext>` |
| Lookup.CacheKey | yt_api.py:142 | no ensures; the key `<id>_<type>` that `HitIsCachedAnswer` and `ServeRecordsWhatItServes` speak of |
| Lookup.Existing | yt_api.py:131-162 | no ensures; `ExistingIsPresent`, `ScanFollowsPreferenceOrder`, `HitIsCachedAnswer` and `ExistingNeverMarker` state its contract |
| Lookup.Found | yt_api.py:225 | no ensures; the truth value of the answer, characterised by `ExistingIsPresent` |
| Lookup.GlobHeadIsFirst | yt_api.py:153-160 | `matches[0]` is the first name in listing order that matches |
| Lookup.ScanFollowsPreferenceOrder | yt_api.py:149-160 | the first extension with a match decides, and within it `*__<id>.<ext>` beats `<id>*.<ext>` |
| Lookup.ExistingIsPresent | yt_api.py:141-162 | the answer is a present file, and it is truthy iff the live cache entry is non-empty or, without a live entry, some pattern matches |
| Lookup.FoundOnlyAmongNewFiles | yt_api.py:292 | when nothing was found before files were added, whatever is found afterwards is one of the new files |
| Lookup.GlobIgnoresUnmatched | yt_api.py:152 | a name the pattern does not match makes no difference to `glob` |
| Lookup.ScanIgnoresUnmatched | yt_api.py:149-162 | a name no pattern matches makes no difference to the scan |
| Locks.LockMarker | yt_api.py:167 | no ensures; `MarkerShape` states that every marker is hidden and ends in `.lock` |
| Locks.Acquire | yt_api.py:165-176 | `create_lock` fails iff the marker exists; on success the marker is present, and unlinking it gives back the old listing |
| Locks.Release | yt_api.py:179-184 | `remove_lock` leaves the marker absent, changes no other file, and is a no-op when the marker is gone |
| Locks.MarkerShape | yt_api.py:167 | every marker is a hidden name ending in `.lock` |
| Locks.MarkerMatchesNoPattern | yt_api.py:151-157 | no lock marker matches either lookup pattern of any extension |
| Locks.ScanNeverMarker | yt_api.py:149-162 | the disk scan never answers a lock marker |
| Locks.ExistingNeverMarker | yt_api.py:141-162 | with no marker among the cache values, the lookup never answers a marker |
| Locks.AcquireIsExclusive | yt_api.py:165-184 | a second `create_lock` on the same key fails, the release restores the listing, and the lock can then be taken again |
| Orchestrator.TrimStart | yt_api.py:206 | `strip()` removes exactly the leading Python whitespace |
| Orchestrator.TrimEnd | yt_api.py:324 | `strip()` removes exactly the trailing Python whitespace |
| Orchestrator.AsciiLower | yt_api.py:208 | lowering keeps the length, turns each upper-case ASCII letter into its lower-case letter and changes no other character |
| Orchestrator.KindOfIgnoresCase | yt_api.py:207-211 | names that lower to the same string get the same kind, lowering first changes nothing, and the `file_type` settled on normalises to itself |
| Orchestrator.KindOfVideoInAnyCase | yt_api.py:207-211 | `video` in any mix of cases (`VIDEO`, `Video`, ...) selects video |
| Orchestrator.Trim | yt_api.py:206 | no ensures; `TrimStart` and `TrimEnd` fix both halves of `strip()` |
| Orchestrator.KindOf | yt_api.py:207-211 | no ensures; `KindOfIgnoresCase` and `KindOfVideoInAnyCase` state its contract |
| Orchestrator.Identify | yt_api.py:206-217 | no ensures; `GetVideoInfo`'s contract applies to the stripped url |
| Orchestrator.CleanName | yt_api.py:298 | no ensures; `CleanNameIsNoMarker` and `CleanNameUnmatched` state its contract |
| Orchestrator.OutputName | yt_api.py:271 | no ensures; `OutputNameMatches` states that pattern 1 matches it |
| Orchestrator.WaitFrom | yt_api.py:238-247 | the wait makes at most 180 polls |
| Orchestrator.WaitTimesOut | yt_api.py:238-247 | a failed wait made all 180 polls, answers the timeout error and leaves the cache alone |
| Orchestrator.WaitStopsAtFirstFind | yt_api.py:238-244 | the wait stops at the first poll that finds the file |
| Orchestrator.WaitServesWhatItSaw | yt_api.py:239-243 | a successful wait answers, as cached, what its last poll found in the listing it saw, and caches it under the key |
| Orchestrator.Probe | yt_api.py:240 | no ensures; what each poll's `find_existing_file` answers, used by `AwaitTimesOutOnlyUnfound` |
| Orchestrator.Wait | yt_api.py:238-247 | no ensures; `WaitTimesOut`, `WaitStopsAtFirstFind` and `WaitServesWhatItSaw` state its contract |
| Orchestrator.FailureMessage | yt_api.py:323-332 | no ensures; `FetchRecordsWhatItServes` states that every failure is a 500 with the cache unchanged |
| Orchestrator.Fetch | yt_api.py:250-332 | no ensures; `FetchRecordsWhatItServes`, `DownloadFindsItsOutput`, `DownloadKeepsEveryFile` and `DownloadNeverOverwrites` state its contract |
| Orchestrator.AwaitOther | yt_api.py:235-247 | no ensures; `AwaitRecordsWhatItServes`, `AwaitOnlyLooks` and `AwaitTimesOutOnlyUnfound` state its contract |
| Orchestrator.DownloadLocked | yt_api.py:249-335 | no ensures; `DownloadRecordsWhatItServes`, `DownloadKeepsEveryFile` and `DownloadNeverOverwrites` state its contract |
| Orchestrator.Serve | yt_api.py:219-335 | no ensures; `ServeRecordsWhatItServes`, `ServeKeepsLockDiscipline` and `HitIsCachedAnswer` state its contract |
| Orchestrator.Handle | yt_api.py:206-335 | no ensures; `RepeatedRequestIsHit` and the lemmas about `Serve` state its contract |
| Orchestrator.ClearCache | yt_api.py:491-497 | `clear_cache` empties the map and leaves the files alone |
| Orchestrator.CleanNameIsNoMarker | yt_api.py:298 | a clean name is never a lock marker |
| Orchestrator.FetchRecordsWhatItServes | yt_api.py:250-332 | a successful download answers a present, non-empty, not-cached name and caches it under the key; every failure is a 500 error and leaves the cache alone |
| Orchestrator.AwaitRecordsWhatItServes | yt_api.py:235-247 | the wait path answers a present, non-empty name, never a marker, and caches it; a failure leaves the cache alone |
| Orchestrator.DownloadRecordsWhatItServes | yt_api.py:249-335 | after the lock is released, the served name is still present and is cached under the key |
| Orchestrator.ServeRecordsWhatItServes | yt_api.py:224-335 | on every success, `cache[id_type]` becomes the answered name, which is present and non-empty, and no marker enters the cache |
| Orchestrator.AwaitOnlyLooks | yt_api.py:234-247 | the waiting path creates and removes no lock (its listing is one seen at a poll), answers as cached, and fails only with the timeout error |
| Orchestrator.AwaitTimesOutOnlyUnfound | yt_api.py:238-247 | the timeout error comes only when none of the 180 polls found the file |
| Orchestrator.ServeKeepsLockDiscipline | yt_api.py:231-335 | the lock is released on every exit path; a request that finds the lock taken only waits; `cached` is False exactly on a fresh download |
| Orchestrator.DownloadKeepsEveryFile | yt_api.py:297-305 | a download never removes a file that was there before the request |
| Orchestrator.DownloadNeverOverwrites | yt_api.py:301-305 | the rename targets only an absent name, so no name is ever doubled |
| Orchestrator.RepeatedRequestIsHit | yt_api.py:224-231 | a request repeated after a success is a cached hit on the same file and changes nothing |
| Orchestrator.HitIsCachedAnswer | yt_api.py:224-231 | a request whose file is cached under its key and present is answered from the cache as cached, and changes nothing |
| Orchestrator.OutputNameMatches | yt_api.py:271 | the output template's name matches pattern 1 when the title is not hidden |
| Orchestrator.DownloadFindsItsOutput | yt_api.py:288-294 | when `yt-dlp` writes the name its template gives, the lookup after the download finds a file |
| Orchestrator.ExtensionsEndApart | yt_api.py:136-139 | every other extension of a kind ends in a different character from the default one |
| Orchestrator.CleanNameUnmatched | yt_api.py:149-160 | a clean name matches no lookup pattern of its video unless the title starts with the id |
| Orchestrator.ClearedCacheForgetsCleanName | yt_api.py:491-497 | after `clear_cache`, the lookup answers as if the renamed clean file were not there |
| Api.AsFileReply | yt_api.py:338-471 | `get_media` answers the file where `download_media` answers its link, with the same errors |
| Api.Server.constructor | yt_api.py:20-29 | the cache starts as the loaded `.cache.json`, or empty when it is missing or does not parse; a marker-free loaded cache gives `Valid` |
| Api.Server.FindExistingFile | yt_api.py:131-162 | the loop returns exactly what `Lookup.Existing` specifies |
| Api.Server.CreateLock | yt_api.py:165-176 | creates the marker iff absent and returns its name, else None with nothing changed |
| Api.Server.RemoveLock | yt_api.py:179-184 | the listing becomes `Locks.Release` of the old one; the cache is untouched |
| Api.Server.PollOnce | yt_api.py:238-243 | one poll reads the new listing, looks again, caches a find, and is one step of `WaitFrom` |
| Api.Server.AwaitConcurrentDownload | yt_api.py:235-247 | the loop's response and new state are those of `WaitFrom` from poll 0 |
| Api.Server.DownloadUnderLock | yt_api.py:250-332 | the response and new state are those of `Orchestrator.Fetch` |
| Api.Server.ServeIdentified | yt_api.py:219-335 | the response and new state are those of `Orchestrator.Serve`: hit, wait or download under the lock, with the lock released |
| Api.Server.Respond | yt_api.py:206-335 | the response and new state are those of `Orchestrator.Handle`, and the invariant is kept |
| Api.Server.DownloadMedia | yt_api.py:202-335 | `POST /download` is `Orchestrator.Handle` and keeps the invariant |
| Api.Server.GetMedia | yt_api.py:338-471 | `POST /get` is `Orchestrator.Handle` with the file as the answer, and keeps the invariant |
| Api.Server.ClearCache | yt_api.py:491-497 | the new state is `Orchestrator.ClearCache` of the old one, and the invariant holds |

## Left out

- HTTP plumbing: FastAPI routes, `JSONResponse`, `FileResponse`, `StaticFiles`, `urllib.parse.quote` of the link, and the `/dl`, `/cache` (GET), `/health` and `/version` handlers. A response is its `file`/`cached` fields or its status and message.
- `yt-dlp` itself and `run_cmd_stdout`: an external process. Each query is an `Option` answer, and the download is a `ToolRun` outcome that lists the names it wrote. The argument lists are not modelled.
- `hashlib.md5`: a foreign call, kept as an uninterpreted function that returns 32 lower-case hex digits.
- `time.time()` and `time.sleep(1)`: the clock is the parameter `clock`. Each sleep is one poll, after which the directory reads `world(k)`.
- `save_cache`, and the JSON encoding of the start-up load: file I/O with swallowed errors. Persistence is a no-op on the in-memory map, and the loaded map is a constructor argument.
- `os.chmod` and `print`: side effects the model has no use for.
- Real concurrency between processes. The atomicity of `O_CREAT | O_EXCL` is taken as given: the marker is created exactly when it is absent. Another process's progress during the wait is the parameter `world`. Threads of the same process that change `url_cache` during the wait are not modelled.
- Locks.Acquire: `create_lock` also returns None on any other OS error (yt_api.py:175-176). The model fails only when the marker exists.
- Partial files that a failed `yt-dlp` run leaves behind: a failed run changes nothing in the listing.
- A rename keeps the file's place in the listing. The real directory order after `os.rename` is up to the filesystem.
- Listing.AddFile and Listing.AddAll: a created name goes at the end of the listing, in the order the tool wrote it. On disk the order of new entries is up to the filesystem. That order decides `matches[0]` (yt_api.py:154, 160) when the tool writes several matching names, so the model fixes one of the answers the program may give.
- The 400 "Failed to get video info" path (yt_api.py:214-217, 348-351) cannot happen in the model, because `get_video_info` catches the tool's errors and model strings hold no lone surrogate that `url.encode()` could reject.
- The `isinstance(title, str)` coercion of `sanitize_title` (yt_api.py:56-57): every caller passes a string.
- Python's `\w` is the parameter `isWordChar`. The lemmas that need it assume only that ASCII letters, digits and `_` are in it.
- `str.lower()` is modelled on ASCII letters only. That decides `== "video"` exactly, because no other character lowers to a letter of "video" alone.
- Glob metacharacters (`*`, `?`, `[`) inside a video id, and path-like names (`""`, `.`, `..`, names holding `/`): the model treats ids and names as plain strings.
- Sanitizer.SanitizeShape: for a negative `max_len` only the shape is stated. Python's `s[:max_len]` then counts from the end, and the result may be empty.
- Sanitizer.SanitizeIdempotent: holds only for `max_len >= 0`. With a negative `max_len` each call shortens the title again, so the property does not hold there.
- Orchestrator.DownloadFindsItsOutput: needs no empty name in the listing, since `glob` never lists one.
