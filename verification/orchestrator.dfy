/**
 * The request flow shared by `download_media` (yt_api.py:202-335) and
 * `get_media` (yt_api.py:338-471), as a function from the state before a
 * request to the response and the state after it. The state is the download
 * directory listing and the in-memory `url_cache`. Everything the program
 * learns from outside (the answers of `yt-dlp`, the clock, what another
 * process leaves in the directory while this one waits) comes in as an `Env`.
 */
module Orchestrator {
  import opened Wrappers
  import Sanitizer
  import VideoId
  import opened Listing
  import opened Lookup
  import opened Locks

  /** `for _ in range(180)` of yt_api.py:238. */
  const MaxPolls: nat := 180

  /** The status of every error response past the video-info step. */
  const ServerError: nat := 500

  const WaitTimeoutMessage: string := "Timeout waiting for concurrent download"
  const NotFoundMessage: string := "Download completed but file not found"
  const DownloadTimeoutMessage: string := "Download timeout - video may be too long or connection too slow"
  const UnexpectedPrefix: string := "Unexpected error: "

  /** A `DownloadRequest`: the url and the `type` field ("" when absent or None). */
  datatype Request = Request(url: string, kindName: string)

  /** How the `yt-dlp` download of yt_api.py:288 ended. */
  datatype ToolRun =
    | Completed(written: seq<string>)          // the names it created in the directory
    | ProcessError(stderr: string, text: string) // `CalledProcessError`: its stderr ("" if none) and `str(e)`
    | TimedOut                                  // `TimeoutExpired` after 300 seconds
    | Crashed(text: string)                     // any other exception, as `str(e)`

  /**
   * What the program learns from outside while handling one request.
   * `world(k)` is the directory listing seen at poll k of the wait loop;
   * `renameFails` says that `os.rename` raises (yt_api.py:306-308).
   */
  datatype Env = Env(toolId: Option<string>, toolTitle: Option<string>,
                     md5: string -> VideoId.HexDigest, isWordChar: char -> bool,
                     clock: nat, world: nat -> seq<string>, tool: ToolRun, renameFails: bool)

  /** A success body with its `file` and `cached` fields, or an error with its status and message. */
  datatype Response = Served(file: string, cached: bool) | Failed(status: nat, message: string)

  /** The download directory listing and `url_cache`. */
  datatype State = State(files: seq<string>, cache: map<string, string>)

  datatype Outcome = Outcome(response: Response, state: State)

  /** The result of the wait loop and how many polls it made. */
  datatype Waited = Waited(response: Response, state: State, polls: nat)

  /** The characters Python's `str.strip()` removes. */
  predicate IsPyWhitespace(c: char)
  {
    ('\t' <= c <= '\r') || ('\U{1C}' <= c <= ' ') || c == '\U{85}' || c == '\U{A0}' ||
    c == '\U{1680}' || ('\U{2000}' <= c <= '\U{200A}') || c == '\U{2028}' || c == '\U{2029}' ||
    c == '\U{202F}' || c == '\U{205F}' || c == '\U{3000}'
  }

  function TrimStart(s: string): (r: string)
    ensures |r| <= |s| && r == s[|s| - |r|..]
    ensures r != [] ==> !IsPyWhitespace(r[0])
    ensures forall i :: 0 <= i < |s| - |r| ==> IsPyWhitespace(s[i])
  {
    if s != [] && IsPyWhitespace(s[0]) then
      var r := TrimStart(s[1..]);
      assert forall i :: 1 <= i < |s| ==> s[i] == s[1..][i - 1];
      r
    else s
  }

  function TrimEnd(s: string): (r: string)
    ensures |r| <= |s| && r == s[..|r|]
    ensures r != [] ==> !IsPyWhitespace(r[|r| - 1])
    ensures forall i :: |r| <= i < |s| ==> IsPyWhitespace(s[i])
  {
    if s != [] && IsPyWhitespace(s[|s| - 1]) then TrimEnd(s[..|s| - 1]) else s
  }

  /** `str.strip()`: the longest infix without whitespace at either end. */
  function Trim(s: string): string
  {
    TrimEnd(TrimStart(s))
  }

  /** `str.lower()` on ASCII letters; no other character lowers to a letter of "video". */
  function AsciiLower(s: string): (r: string)
    ensures |r| == |s|
    ensures forall i :: 0 <= i < |s| ==> !('A' <= r[i] <= 'Z')
    ensures forall i :: 0 <= i < |s| ==> ('A' <= s[i] <= 'Z' || r[i] == s[i])
    ensures forall i :: 0 <= i < |s| && 'A' <= s[i] <= 'Z' ==> r[i] as int == s[i] as int + 32
  {
    seq(|s|, i requires 0 <= i < |s| =>
      if 'A' <= s[i] <= 'Z' then (s[i] as int - 'A' as int + 'a' as int) as char else s[i])
  }

  /** yt_api.py:207-211: `(type or "audio").lower()`, and audio unless that is "video". */
  function KindOf(kindName: string): Kind
  {
    if AsciiLower(kindName) == "video" then Video else Audio
  }

  /**
   * The normalisation of yt_api.py:207-211 ignores case: names that lower to
   * the same string get the same kind, lowering first changes nothing, and the
   * `file_type` it settles on normalises to itself.
   */
  lemma {:induction false} KindOfIgnoresCase(kindName: string, other: string)
    requires AsciiLower(other) == AsciiLower(kindName)
    ensures KindOf(other) == KindOf(kindName)
    ensures AsciiLower(AsciiLower(kindName)) == AsciiLower(kindName)
    ensures KindOf(AsciiLower(kindName)) == KindOf(kindName)
    ensures KindOf(KindOf(kindName).Name()) == KindOf(kindName)
  {
    var once := AsciiLower(kindName);
    assert forall i :: 0 <= i < |once| ==> AsciiLower(once)[i] == once[i];
    assert AsciiLower("video") == "video";
    assert AsciiLower("audio")[0] == 'a';
  }

  /** `video` in any mix of cases, such as `VIDEO` or `Video`, selects video. */
  lemma {:induction false} KindOfVideoInAnyCase(kindName: string)
    requires |kindName| == 5
    requires forall i :: 0 <= i < 5 ==> kindName[i] == "video"[i] || kindName[i] == "VIDEO"[i]
    ensures KindOf(kindName) == Video
  {
    var low := AsciiLower(kindName);
    forall i | 0 <= i < 5 ensures low[i] == "video"[i] {
      if kindName[i] != "video"[i] {
        assert 'A' <= kindName[i] <= 'Z';
      }
    }
    assert low == "video";
  }

  /** The request's video id and title, from `get_video_info(url.strip())` (yt_api.py:206, 215). */
  function Identify(req: Request, env: Env): VideoId.Identity
  {
    VideoId.GetVideoInfo(Trim(req.url), env.toolId, env.toolTitle, env.md5)
  }

  /** `f"{sanitized_title}.{extension}"`, the name a fresh download is renamed to (yt_api.py:298). */
  function CleanName(title: string, kind: Kind): string
  {
    title + "." + kind.DefaultExtension()
  }

  /** The name the output template `f"{sanitized_title}__{video_id}.%(ext)s"` gives (yt_api.py:271). */
  function OutputName(title: string, id: string, ext: string): string
  {
    title + "__" + id + "." + ext
  }

  /**
   * Polls k, k + 1, ..., 179 of the wait loop of yt_api.py:238-247. Poll j
   * sees the listing `world(j)`, and `probe(j)` is what `find_existing_file`
   * answers on it; `st.files` is the listing seen last.
   */
  function WaitFrom(st: State, key: string, world: nat -> seq<string>, probe: nat -> Option<string>, k: nat): (w: Waited)
    requires k <= MaxPolls
    ensures k <= w.polls <= MaxPolls
    decreases MaxPolls - k
  {
    if k == MaxPolls then Waited(Failed(ServerError, WaitTimeoutMessage), st, k)
    else if Found(probe(k)) then
      Waited(Served(probe(k).value, true), State(world(k), st.cache[key := probe(k).value]), k + 1)
    else WaitFrom(State(world(k), st.cache), key, world, probe, k + 1)
  }

  /** A wait that fails has made all 180 polls, answers the timeout error and leaves the cache alone. */
  lemma {:induction false} WaitTimesOut(st: State, key: string, world: nat -> seq<string>, probe: nat -> Option<string>, k: nat)
    requires k <= MaxPolls
    ensures var w := WaitFrom(st, key, world, probe, k);
            w.response.Failed? ==>
              w.response == Failed(ServerError, WaitTimeoutMessage) && w.polls == MaxPolls &&
              w.state.cache == st.cache &&
              w.state.files == (if k < MaxPolls then world(MaxPolls - 1) else st.files)
    decreases MaxPolls - k
  {
    if k < MaxPolls && !Found(probe(k)) {
      WaitTimesOut(State(world(k), st.cache), key, world, probe, k + 1);
    }
  }

  /** The wait stops at the first poll that finds the file: no poll before it did. */
  lemma {:induction false} WaitStopsAtFirstFind(st: State, key: string, world: nat -> seq<string>, probe: nat -> Option<string>, k: nat)
    requires k <= MaxPolls
    ensures var w := WaitFrom(st, key, world, probe, k);
            forall j: nat :: k <= j < w.polls && (w.response.Failed? || j < w.polls - 1) ==> !Found(probe(j))
    decreases MaxPolls - k
  {
    if k < MaxPolls && !Found(probe(k)) {
      WaitStopsAtFirstFind(State(world(k), st.cache), key, world, probe, k + 1);
    }
  }

  /**
   * A wait that succeeds answers, as cached, what its last poll found in the
   * listing it saw then, and records it under the request's cache key.
   */
  lemma {:induction false} WaitServesWhatItSaw(st: State, key: string, world: nat -> seq<string>, probe: nat -> Option<string>, k: nat)
    requires k <= MaxPolls
    ensures var w := WaitFrom(st, key, world, probe, k);
            w.response.Served? ==>
              w.response.cached && k < w.polls && w.state.files == world(w.polls - 1) &&
              Found(probe(w.polls - 1)) && probe(w.polls - 1) == Some(w.response.file) &&
              w.state.cache == st.cache[key := w.response.file]
    decreases MaxPolls - k
  {
    if k < MaxPolls && !Found(probe(k)) {
      WaitServesWhatItSaw(State(world(k), st.cache), key, world, probe, k + 1);
    }
  }

  /** What `find_existing_file` answers at each poll, with the cache as it was when the wait began. */
  function Probe(world: nat -> seq<string>, cache: map<string, string>, id: string, kind: Kind): nat -> Option<string>
  {
    (j: nat) => Existing(world(j), cache, id, kind)
  }

  /** The whole wait loop. */
  function Wait(st: State, id: string, kind: Kind, world: nat -> seq<string>): Waited
  {
    WaitFrom(st, CacheKey(id, kind), world, Probe(world, st.cache, id, kind), 0)
  }

  /** The message of a failed `yt-dlp` run (yt_api.py:323-332). */
  function FailureMessage(run: ToolRun): string
    requires !run.Completed?
  {
    match run
    case ProcessError(stderr, text) => if stderr != "" then Trim(stderr) else text
    case TimedOut => DownloadTimeoutMessage
    case Crashed(text) => UnexpectedPrefix + text
  }

  /**
   * The `try` body of yt_api.py:250-321, run while holding the lock: download,
   * find the result, rename it to the clean name when that is safe, and
   * record it in the cache.
   */
  function Fetch(st: State, info: VideoId.Identity, kind: Kind, env: Env): Outcome
  {
    var title := Sanitizer.SanitizeTitle(info.title, Sanitizer.DefaultMaxLen, env.clock, env.isWordChar);
    match env.tool
    case Completed(written) =>
      var after := AddAll(st.files, written);
      var d := Existing(after, st.cache, info.id, kind);
      if !Found(d) then Outcome(Failed(ServerError, NotFoundMessage), State(after, st.cache))
      else
        var clean := CleanName(title, kind);
        var renames := d.value != clean && clean !in after && !env.renameFails;
        var final := if renames then clean else d.value;
        Outcome(Served(final, false),
                State(if renames then Renamed(after, d.value, clean) else after,
                      st.cache[CacheKey(info.id, kind) := final]))
    case _ => Outcome(Failed(ServerError, FailureMessage(env.tool)), st)
  }

  /**
   * The request flow once the id, title and kind are known (yt_api.py:219-335):
   * a hit on an existing file, else the wait for a concurrent download when
   * the lock is taken, else a download under the lock, which the `finally` of
   * yt_api.py:333-335 releases.
   */
  function Serve(st: State, info: VideoId.Identity, kind: Kind, env: Env): Outcome
  {
    var key := CacheKey(info.id, kind);
    var existing := Existing(st.files, st.cache, info.id, kind);
    if Found(existing) then
      Outcome(Served(existing.value, true), State(st.files, st.cache[key := existing.value]))
    else
      match Acquire(st.files, key)
      case None => AwaitOther(st, info.id, kind, env.world)
      case Some(locked) => DownloadLocked(State(locked, st.cache), info, kind, env)
  }

  /** The lock is taken: wait for the other download (yt_api.py:235-247). */
  function AwaitOther(st: State, id: string, kind: Kind, world: nat -> seq<string>): Outcome
  {
    var w := Wait(st, id, kind, world);
    Outcome(w.response, w.state)
  }

  /** The lock is held: download, then release the lock whatever happened (yt_api.py:249-335). */
  function DownloadLocked(st: State, info: VideoId.Identity, kind: Kind, env: Env): Outcome
  {
    var fetched := Fetch(st, info, kind, env);
    Outcome(fetched.response, State(Release(fetched.state.files, LockMarker(CacheKey(info.id, kind))), fetched.state.cache))
  }

  /** One request (yt_api.py:206-335): normalise the kind, identify the video, serve. */
  function Handle(st: State, req: Request, env: Env): Outcome
  {
    Serve(st, Identify(req, env), KindOf(req.kindName), env)
  }

  /** `clear_cache` (yt_api.py:491-497): the map is emptied and the files stay. */
  function ClearCache(st: State): (r: State)
    ensures r.files == st.files && |r.cache| == 0
  {
    State(st.files, map[])
  }

  /** A clean name ends with `3` or `4`, a lock marker with `k`. */
  lemma {:induction false} CleanNameIsNoMarker(title: string, kind: Kind)
    ensures !IsLockMarker(CleanName(title, kind))
  {
    var c := CleanName(title, kind);
    assert c[|c| - 1] == kind.DefaultExtension()[2];
  }

  /**
   * Under the lock, a successful download answers a present, non-empty name
   * that is no lock marker, as not cached, and records it under the key; a
   * failure leaves the cache as it was.
   */
  lemma {:induction false} FetchRecordsWhatItServes(st: State, info: VideoId.Identity, kind: Kind, env: Env)
    requires NoMarkerValues(st.cache)
    ensures var o := Fetch(st, info, kind, env);
            (o.response.Served? ==>
               !o.response.cached && o.response.file in o.state.files && o.response.file != "" &&
               !IsLockMarker(o.response.file) &&
               o.state.cache == st.cache[CacheKey(info.id, kind) := o.response.file]) &&
            (o.response.Failed? ==> o.response.status == ServerError && o.state.cache == st.cache)
  {
    if env.tool.Completed? {
      var after := AddAll(st.files, env.tool.written);
      ExistingIsPresent(after, st.cache, info.id, kind);
      ExistingNeverMarker(after, st.cache, info.id, kind);
      var title := Sanitizer.SanitizeTitle(info.title, Sanitizer.DefaultMaxLen, env.clock, env.isWordChar);
      CleanNameIsNoMarker(title, kind);
    }
  }

  /** The waiting path answers what a poll found in the listing it saw, and records it. */
  lemma {:induction false} AwaitRecordsWhatItServes(st: State, id: string, kind: Kind, world: nat -> seq<string>)
    requires NoMarkerValues(st.cache)
    ensures var o := AwaitOther(st, id, kind, world);
            (o.response.Served? ==>
               o.response.cached && o.response.file in o.state.files && o.response.file != "" &&
               !IsLockMarker(o.response.file) &&
               o.state.cache == st.cache[CacheKey(id, kind) := o.response.file]) &&
            (o.response.Failed? ==> o.state.cache == st.cache)
  {
    var probe := Probe(world, st.cache, id, kind);
    WaitServesWhatItSaw(st, CacheKey(id, kind), world, probe, 0);
    WaitTimesOut(st, CacheKey(id, kind), world, probe, 0);
    var w := Wait(st, id, kind, world);
    if w.response.Served? {
      ExistingIsPresent(world(w.polls - 1), st.cache, id, kind);
      ExistingNeverMarker(world(w.polls - 1), st.cache, id, kind);
    }
  }

  /** The locked path answers a present file that is not the released marker, and records it. */
  lemma {:induction false} DownloadRecordsWhatItServes(st: State, info: VideoId.Identity, kind: Kind, env: Env)
    requires NoMarkerValues(st.cache)
    ensures var o := DownloadLocked(st, info, kind, env);
            (o.response.Served? ==>
               !o.response.cached && o.response.file in o.state.files && o.response.file != "" &&
               !IsLockMarker(o.response.file) &&
               o.state.cache == st.cache[CacheKey(info.id, kind) := o.response.file]) &&
            (o.response.Failed? ==> o.state.cache == st.cache)
  {
    FetchRecordsWhatItServes(st, info, kind, env);
    MarkerShape(CacheKey(info.id, kind));
  }

  /**
   * Every success records the answered file under the request's key, and
   * that file is present and non-empty (yt_api.py:227-228, 242-243, 316-318).
   * No lock marker ever enters the cache, so the invariant is kept.
   */
  lemma {:induction false} ServeRecordsWhatItServes(st: State, info: VideoId.Identity, kind: Kind, env: Env)
    requires NoMarkerValues(st.cache)
    ensures var o := Serve(st, info, kind, env);
            o.response.Served? ==>
              CacheKey(info.id, kind) in o.state.cache && o.state.cache[CacheKey(info.id, kind)] == o.response.file &&
              o.response.file in o.state.files && o.response.file != ""
    ensures NoMarkerValues(Serve(st, info, kind, env).state.cache)
  {
    var key := CacheKey(info.id, kind);
    var existing := Existing(st.files, st.cache, info.id, kind);
    if Found(existing) {
      ExistingIsPresent(st.files, st.cache, info.id, kind);
      ExistingNeverMarker(st.files, st.cache, info.id, kind);
    } else if LockMarker(key) in st.files {
      assert Serve(st, info, kind, env) == AwaitOther(st, info.id, kind, env.world);
      AwaitRecordsWhatItServes(st, info.id, kind, env.world);
    } else {
      var locked := Acquire(st.files, key).value;
      assert Serve(st, info, kind, env) == DownloadLocked(State(locked, st.cache), info, kind, env);
      DownloadRecordsWhatItServes(State(locked, st.cache), info, kind, env);
    }
  }

  /**
   * The waiting path only looks (yt_api.py:235-247): the listing afterwards is
   * one another process left at one of the at most 180 polls, a success is
   * answered as cached, and a failure is the timeout error with the cache
   * unchanged.
   */
  lemma {:induction false} AwaitOnlyLooks(st: State, id: string, kind: Kind, world: nat -> seq<string>)
    ensures var o := AwaitOther(st, id, kind, world);
            (exists p :: 0 <= p < MaxPolls && o.state.files == world(p)) &&
            (o.response.Served? ==> o.response.cached) &&
            (o.response.Failed? ==> o.response == Failed(ServerError, WaitTimeoutMessage) && o.state.cache == st.cache)
  {
    var probe := Probe(world, st.cache, id, kind);
    WaitServesWhatItSaw(st, CacheKey(id, kind), world, probe, 0);
    WaitTimesOut(st, CacheKey(id, kind), world, probe, 0);
    var w := Wait(st, id, kind, world);
    assert w.state.files == world(w.polls - 1);
  }

  /** The timeout error comes only when none of the 180 polls found the file (yt_api.py:247). */
  lemma {:induction false} AwaitTimesOutOnlyUnfound(st: State, id: string, kind: Kind, world: nat -> seq<string>)
    ensures AwaitOther(st, id, kind, world).response.Failed? ==>
              forall j: nat :: j < MaxPolls ==> !Found(Existing(world(j), st.cache, id, kind))
  {
    var probe := Probe(world, st.cache, id, kind);
    WaitTimesOut(st, CacheKey(id, kind), world, probe, 0);
    WaitStopsAtFirstFind(st, CacheKey(id, kind), world, probe, 0);
    var w := WaitFrom(st, CacheKey(id, kind), world, probe, 0);
    if w.response.Failed? {
      forall j: nat | j < MaxPolls ensures !Found(Existing(world(j), st.cache, id, kind)) {
        assert !Found(probe(j));
      }
    }
  }

  /**
   * The lock discipline of yt_api.py:234-335: a request that finds no marker
   * leaves none behind on any exit, and a request that finds the marker of
   * another download only waits, so that `cached` is False exactly on a fresh
   * download (yt_api.py:231, 245, 321).
   */
  lemma {:induction false} ServeKeepsLockDiscipline(st: State, info: VideoId.Identity, kind: Kind, env: Env)
    ensures var o := Serve(st, info, kind, env);
            var marker := LockMarker(CacheKey(info.id, kind));
            var hit := Found(Existing(st.files, st.cache, info.id, kind));
            (marker !in st.files ==> marker !in o.state.files) &&
            (!hit && marker in st.files ==> o == AwaitOther(st, info.id, kind, env.world)) &&
            (o.response.Served? ==> (o.response.cached <==> hit || marker in st.files))
  {
    var key := CacheKey(info.id, kind);
    if !Found(Existing(st.files, st.cache, info.id, kind)) {
      if LockMarker(key) in st.files {
        AwaitOnlyLooks(st, info.id, kind, env.world);
      }
    }
  }

  /**
   * A download under the lock never removes a file that was there before the
   * request (yt_api.py:301-305): the rename moves only the new download.
   */
  lemma {:induction false} DownloadKeepsEveryFile(st: State, info: VideoId.Identity, kind: Kind, env: Env)
    requires !Found(Existing(st.files, st.cache, info.id, kind))
    requires LockMarker(CacheKey(info.id, kind)) !in st.files
    ensures var o := DownloadLocked(State(st.files + [LockMarker(CacheKey(info.id, kind))], st.cache), info, kind, env);
            forall f :: f in st.files ==> f in o.state.files
  {
    var locked := st.files + [LockMarker(CacheKey(info.id, kind))];
    if env.tool.Completed? {
      var after := AddAll(locked, env.tool.written);
      if Found(Existing(after, st.cache, info.id, kind)) {
        FoundOnlyAmongNewFiles(st.files, after, st.cache, info.id, kind);
      }
    }
  }

  /**
   * A download under the lock never overwrites a name (yt_api.py:301-305):
   * it renames only onto an absent name, so a listing without doubled names
   * stays without them.
   */
  lemma {:induction false} DownloadNeverOverwrites(st: State, info: VideoId.Identity, kind: Kind, env: Env)
    requires Distinct(st.files) && LockMarker(CacheKey(info.id, kind)) !in st.files
    ensures Distinct(DownloadLocked(State(st.files + [LockMarker(CacheKey(info.id, kind))], st.cache), info, kind, env).state.files)
  {
    var m := LockMarker(CacheKey(info.id, kind));
    var locked := st.files + [m];
    assert AddFile(st.files, m) == locked;
    AddFileKeepsDistinct(st.files, m);
    var fetched := Fetch(State(locked, st.cache), info, kind, env);
    if env.tool.Completed? {
      var after := AddAll(locked, env.tool.written);
      AddAllKeepsDistinct(locked, env.tool.written);
      var d := Existing(after, st.cache, info.id, kind);
      var title := Sanitizer.SanitizeTitle(info.title, Sanitizer.DefaultMaxLen, env.clock, env.isWordChar);
      var clean := CleanName(title, kind);
      if Found(d) && clean !in after {
        RenamedKeepsDistinct(after, d.value, clean);
      }
    }
    WithoutKeepsDistinct(fetched.state.files, m);
  }

  /**
   * A request repeated after a success, for the same video (the same answers
   * of `yt-dlp` about it), is a hit on the same file, answered as cached, and
   * changes nothing (yt_api.py:224-231).
   */
  lemma {:induction false} RepeatedRequestIsHit(st: State, req: Request, env: Env, again: Env)
    requires NoMarkerValues(st.cache)
    requires again.toolId == env.toolId && again.toolTitle == env.toolTitle && again.md5 == env.md5
    requires Handle(st, req, env).response.Served?
    ensures var o := Handle(st, req, env);
            Handle(o.state, req, again) == Outcome(Served(o.response.file, true), o.state)
  {
    var kind := KindOf(req.kindName);
    var info := Identify(req, env);
    assert Identify(req, again) == info;
    ServeRecordsWhatItServes(st, info, kind, env);
    var o := Serve(st, info, kind, env);
    HitIsCachedAnswer(o.state, info, kind, again);
  }

  /** A request whose file is already recorded in the cache and present is answered from there and changes nothing. */
  lemma {:induction false} HitIsCachedAnswer(st: State, info: VideoId.Identity, kind: Kind, env: Env)
    requires CacheKey(info.id, kind) in st.cache
    requires st.cache[CacheKey(info.id, kind)] in st.files && st.cache[CacheKey(info.id, kind)] != ""
    ensures Serve(st, info, kind, env) == Outcome(Served(st.cache[CacheKey(info.id, kind)], true), st)
  {
    var key := CacheKey(info.id, kind);
    assert Existing(st.files, st.cache, info.id, kind) == Some(st.cache[key]);
    assert st.cache[key := st.cache[key]] == st.cache;
  }

  /** The output template's name matches pattern 1 of its extension unless the title is hidden or empty. */
  lemma {:induction false} OutputNameMatches(title: string, id: string, ext: string)
    requires title != [] && title[0] != '.'
    ensures Matches(SuffixPattern(id, ext), OutputName(title, id, ext))
  {
    var name := OutputName(title, id, ext);
    var p := SuffixPattern(id, ext);
    assert name == title + p.suffix;
    assert name[|name| - |p.suffix|..] == p.suffix;
    assert name[0] == title[0];
  }

  /**
   * When `yt-dlp` writes the file its output template names, with one of the
   * kind's extensions, the lookup after the download finds a file, so the
   * "file not found" error of yt_api.py:293-294 does not happen.
   */
  lemma {:induction false} DownloadFindsItsOutput(st: State, info: VideoId.Identity, kind: Kind, env: Env, k: nat)
    requires env.tool.Completed? && k < |kind.Extensions()|
    requires OutputName(Sanitizer.SanitizeTitle(info.title, Sanitizer.DefaultMaxLen, env.clock, env.isWordChar),
                        info.id, kind.Extensions()[k]) in env.tool.written
    requires "" !in st.files && "" !in env.tool.written
    ensures Fetch(st, info, kind, env).response.Served?
  {
    var title := Sanitizer.SanitizeTitle(info.title, Sanitizer.DefaultMaxLen, env.clock, env.isWordChar);
    Sanitizer.SanitizeShape(info.title, Sanitizer.DefaultMaxLen, env.clock, env.isWordChar);
    OutputNameMatches(title, info.id, kind.Extensions()[k]);
    var after := AddAll(st.files, env.tool.written);
    assert !NoMatchFor(after, info.id, kind.Extensions());
    ExistingIsPresent(after, st.cache, info.id, kind);
  }

  /** Every extension of a kind other than the first ends with another character than the first. */
  lemma {:induction false} ExtensionsEndApart(kind: Kind, k: nat)
    requires 0 < k < |kind.Extensions()|
    ensures var e := kind.Extensions()[k]; var d := kind.DefaultExtension();
            |e| >= 3 && e[|e| - 1] != d[|d| - 1]
  {
  }

  /**
   * A clean name `<title>.<ext>` matches neither lookup pattern of its video
   * unless the title starts with the video id: a sanitised title has no `__`,
   * so it never ends in `__<id>`.
   */
  lemma {:induction false} CleanNameUnmatched(title: string, id: string, kind: Kind, k: nat)
    requires Sanitizer.NoDoubleUnderscore(title) && k < |kind.Extensions()|
    requires !(|id| <= |title| && title[..|id|] == id)
    ensures !MatchesExt(id, kind.Extensions()[k], CleanName(title, kind))
  {
    var ext := kind.Extensions()[k];
    var c := CleanName(title, kind);
    var suf := SuffixPattern(id, ext).suffix;
    assert |ext| >= 3;
    if k > 0 {
      ExtensionsEndApart(kind, k);
      assert c[|c| - 1] != ext[|ext| - 1];
    } else if |suf| <= |c| && c[|c| - |suf|..] == suf {
      var i := |title| - |id| - 2;
      assert c[i] == suf[0] && c[i + 1] == suf[1];
      assert Sanitizer.UnderscorePairAt(title, i);
    }
  }

  /**
   * Once `clear_cache` has run, a download renamed to its clean name is
   * invisible to `find_existing_file`: the lookup answers as if the file were
   * not there, so the same video is downloaded again.
   */
  lemma {:induction false} ClearedCacheForgetsCleanName(st: State, title: string, id: string, kind: Kind)
    requires Sanitizer.NoDoubleUnderscore(title)
    requires !(|id| <= |title| && title[..|id|] == id)
    ensures Existing(ClearCache(st).files, ClearCache(st).cache, id, kind) ==
            Existing(Without(st.files, CleanName(title, kind)), map[], id, kind)
  {
    var exts := kind.Extensions();
    forall k | 0 <= k < |exts| ensures !MatchesExt(id, exts[k], CleanName(title, kind)) {
      CleanNameUnmatched(title, id, kind, k);
    }
    ScanIgnoresUnmatched(st.files, CleanName(title, kind), id, exts);
  }
}
