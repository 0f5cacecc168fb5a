/**
 * The server process of yt_api.py as an object: the download directory
 * listing and the global `url_cache` are its fields, and the helpers and
 * endpoints that change them are its methods. Each method is proved to do
 * what the functions of the `Lookup`, `Locks` and `Orchestrator` modules
 * say, so the properties proved there hold of it.
 */
module Api {
  import opened Wrappers
  import Sanitizer
  import VideoId
  import opened Listing
  import opened Lookup
  import opened Locks
  import opened Orchestrator

  /** What `get_media` answers: the file itself, or the error body of `download_media`. */
  datatype FileReply = Attachment(file: string) | Error(status: nat, message: string)

  /** `get_media` returns the found file where `download_media` returns its link (yt_api.py:366, 380, 458). */
  function AsFileReply(r: Response): (f: FileReply)
    ensures r.Served? <==> f.Attachment?
    ensures r.Served? ==> f.file == r.file
    ensures r.Failed? ==> f == Error(r.status, r.message)
  {
    match r
    case Served(file, _) => Attachment(file)
    case Failed(status, message) => Error(status, message)
  }

  class Server {
    /** The names in `downloads_path`, lock markers included. */
    var files: seq<string>
    /** `url_cache`: cache key to file name. */
    var cache: map<string, string>

    function Snapshot(): State
      reads this
    {
      State(files, cache)
    }

    /** No cache value is a lock marker, so no lock is ever served or renamed. */
    ghost predicate Valid()
      reads this
    {
      NoMarkerValues(cache)
    }

    /**
     * Start-up (yt_api.py:20-29): `loaded` is the parsed `.cache.json`, None
     * when the file is missing or does not parse, and then the cache is empty.
     */
    constructor (listing: seq<string>, loaded: Option<map<string, string>>)
      ensures files == listing
      ensures cache == loaded.GetOr(map[])
      ensures NoMarkerValues(loaded.GetOr(map[])) ==> Valid()
    {
      files := listing;
      cache := loaded.GetOr(map[]);
    }

    /** `find_existing_file(video_id, file_type)` (yt_api.py:131-162). */
    method FindExistingFile(id: string, kind: Kind) returns (r: Option<string>)
      ensures r == Existing(files, cache, id, kind)
    {
      var key := CacheKey(id, kind);
      if key in cache && cache[key] in files {
        return Some(cache[key]);
      }
      var exts := kind.Extensions();
      for i := 0 to |exts|
        invariant Scan(files, id, exts[i..]) == Scan(files, id, exts)
      {
        var matches := Glob(files, SuffixPattern(id, exts[i]));
        if matches != [] {
          return Some(matches[0]);
        }
        matches := Glob(files, PrefixPattern(id, exts[i]));
        if matches != [] {
          return Some(matches[0]);
        }
        assert exts[i..][1..] == exts[i + 1..];
      }
      return None;
    }

    /** `create_lock(key)` (yt_api.py:165-176): the marker's name, or None when it exists. */
    method CreateLock(key: string) returns (lock: Option<string>)
      modifies this
      ensures lock.None? <==> LockMarker(key) in old(files)
      ensures lock.Some? ==> lock.value == LockMarker(key) && files == Acquire(old(files), key).value
      ensures lock.None? ==> files == old(files)
      ensures cache == old(cache)
    {
      var marker := LockMarker(key);
      if marker in files {
        return None;
      }
      files := files + [marker];
      return Some(marker);
    }

    /** `remove_lock(lockfile)` (yt_api.py:179-184): unlink the marker if it is there. */
    method RemoveLock(lock: string)
      modifies this
      ensures files == Release(old(files), lock)
      ensures cache == old(cache)
    {
      if lock in files {
        files := Without(files, lock);
      }
    }

    /**
     * One poll of the wait loop (yt_api.py:238-243): sleep while the other
     * process works, look again, and record a find in the cache. This is step
     * `k` of `WaitFrom`.
     */
    method PollOnce(id: string, kind: Kind, world: nat -> seq<string>, k: nat, ghost probe: nat -> Option<string>)
        returns (existing: Option<string>)
      requires k < MaxPolls
      requires probe == Probe(world, cache, id, kind)
      modifies this
      ensures files == world(k)
      ensures existing == probe(k)
      ensures Found(existing) ==> cache == old(cache)[CacheKey(id, kind) := existing.value]
      ensures Found(existing) ==>
                WaitFrom(old(Snapshot()), CacheKey(id, kind), world, probe, k) == Waited(Served(existing.value, true), Snapshot(), k + 1)
      ensures !Found(existing) ==> cache == old(cache)
      ensures !Found(existing) ==>
                WaitFrom(old(Snapshot()), CacheKey(id, kind), world, probe, k) == WaitFrom(Snapshot(), CacheKey(id, kind), world, probe, k + 1)
    {
      files := world(k);
      existing := FindExistingFile(id, kind);
      if Found(existing) {
        cache := cache[CacheKey(id, kind) := existing.value];
      }
    }

    /**
     * The wait for a concurrent download (yt_api.py:235-247). Each
     * `time.sleep(1)` is one step of the other process, after which the
     * directory reads `world(k)`.
     */
    method AwaitConcurrentDownload(id: string, kind: Kind, world: nat -> seq<string>) returns (r: Response)
      modifies this
      ensures r == WaitFrom(old(Snapshot()), CacheKey(id, kind), world, Probe(world, old(cache), id, kind), 0).response
      ensures Snapshot() == WaitFrom(old(Snapshot()), CacheKey(id, kind), world, Probe(world, old(cache), id, kind), 0).state
    {
      ghost var start := Snapshot();
      ghost var probe := Probe(world, cache, id, kind);
      var k := 0;
      while k < MaxPolls
        invariant 0 <= k <= MaxPolls
        invariant cache == start.cache
        invariant WaitFrom(Snapshot(), CacheKey(id, kind), world, probe, k) == WaitFrom(start, CacheKey(id, kind), world, probe, 0)
      {
        var existing := PollOnce(id, kind, world, k, probe);
        if Found(existing) {
          return Served(existing.value, true);
        }
        k := k + 1;
      }
      return Failed(ServerError, WaitTimeoutMessage);
    }

    /** The `try` body of yt_api.py:250-332, run while holding the lock. */
    method DownloadUnderLock(info: VideoId.Identity, kind: Kind, env: Env) returns (r: Response)
      modifies this
      ensures Outcome(r, Snapshot()) == Fetch(old(Snapshot()), info, kind, env)
    {
      var title := Sanitizer.SanitizeTitle(info.title, Sanitizer.DefaultMaxLen, env.clock, env.isWordChar);
      if !env.tool.Completed? {
        return Failed(ServerError, FailureMessage(env.tool));
      }
      files := AddAll(files, env.tool.written);
      var downloaded := FindExistingFile(info.id, kind);
      if !Found(downloaded) {
        return Failed(ServerError, NotFoundMessage);
      }
      var name := downloaded.value;
      var clean := CleanName(title, kind);
      if name != clean && clean !in files && !env.renameFails {
        files := Renamed(files, name, clean);
        name := clean;
      }
      cache := cache[CacheKey(info.id, kind) := name];
      return Served(name, false);
    }

    /** The request flow once the video and the kind are known (yt_api.py:219-335). */
    method ServeIdentified(info: VideoId.Identity, kind: Kind, env: Env) returns (r: Response)
      modifies this
      ensures Outcome(r, Snapshot()) == Serve(old(Snapshot()), info, kind, env)
    {
      var key := CacheKey(info.id, kind);
      var existing := FindExistingFile(info.id, kind);
      if Found(existing) {
        cache := cache[key := existing.value];
        return Served(existing.value, true);
      }
      var lock := CreateLock(key);
      if lock.None? {
        r := AwaitConcurrentDownload(info.id, kind, env.world);
      } else {
        r := DownloadUnderLock(info, kind, env);
        RemoveLock(lock.value);
      }
    }

    /** The body `download_media` and `get_media` share (yt_api.py:206-335, 341-471). */
    method Respond(req: Request, env: Env) returns (r: Response)
      modifies this
      ensures Outcome(r, Snapshot()) == Handle(old(Snapshot()), req, env)
      ensures old(Valid()) ==> Valid()
    {
      ghost var before := Snapshot();
      var kind := KindOf(req.kindName);
      var info := Identify(req, env);
      r := ServeIdentified(info, kind, env);
      if NoMarkerValues(before.cache) {
        ServeRecordsWhatItServes(before, info, kind, env);
      }
    }

    /** `POST /download` (yt_api.py:202-335). */
    method DownloadMedia(req: Request, env: Env) returns (r: Response)
      modifies this
      ensures Outcome(r, Snapshot()) == Handle(old(Snapshot()), req, env)
      ensures old(Valid()) ==> Valid()
    {
      r := Respond(req, env);
    }

    /** `POST /get` (yt_api.py:338-471). */
    method GetMedia(req: Request, env: Env) returns (r: FileReply)
      modifies this
      ensures r == AsFileReply(Handle(old(Snapshot()), req, env).response)
      ensures Snapshot() == Handle(old(Snapshot()), req, env).state
      ensures old(Valid()) ==> Valid()
    {
      var response := Respond(req, env);
      r := AsFileReply(response);
    }

    /** `DELETE /cache` (yt_api.py:491-497). */
    method ClearCache()
      modifies this
      ensures Snapshot() == Orchestrator.ClearCache(old(Snapshot()))
      ensures Valid()
    {
      cache := map[];
    }
  }
}
