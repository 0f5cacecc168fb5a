/**
 * The advisory lock of `create_lock` / `remove_lock` (yt_api.py:165-184): a
 * marker file `.<key>.lock` in the download directory, created only when
 * absent (`O_CREAT | O_EXCL`) and unlinked if present.
 */
module Locks {
  import opened Wrappers
  import opened Listing
  import opened Lookup

  /** The marker name of yt_api.py:167. */
  function LockMarker(key: string): string
  {
    "." + key + ".lock"
  }

  /** The shape of every lock marker: a hidden name ending in `.lock`. */
  predicate IsLockMarker(name: string)
  {
    |name| >= 6 && name[0] == '.' && name[|name| - 5..] == ".lock"
  }

  /**
   * `create_lock(key)`: the listing with the new marker, or None when the
   * marker is already there (the `FileExistsError` of yt_api.py:173).
   */
  function Acquire(files: seq<string>, key: string): (r: Option<seq<string>>)
    ensures r.None? <==> LockMarker(key) in files
    ensures r.Some? ==> LockMarker(key) in r.value && Without(r.value, LockMarker(key)) == files
  {
    if LockMarker(key) in files then None
    else
      WithoutUndoesAdd(files, LockMarker(key));
      Some(files + [LockMarker(key)])
  }

  /** `remove_lock(lockfile)`: the marker is gone afterwards and nothing else changed. */
  function Release(files: seq<string>, lock: string): (r: seq<string>)
    ensures lock !in r
    ensures forall f :: f != lock ==> (f in r <==> f in files)
    ensures lock !in files ==> r == files
  {
    Without(files, lock)
  }

  /** A cache whose values are never lock markers. */
  ghost predicate NoMarkerValues(cache: map<string, string>)
  {
    forall k :: k in cache ==> !IsLockMarker(cache[k])
  }

  /** Every marker `.<key>.lock` is hidden and ends in `.lock`; `MarkerMatchesNoPattern` shows it is no media name. */
  lemma {:induction false} MarkerShape(key: string)
    ensures IsLockMarker(LockMarker(key))
  {
    var m := LockMarker(key);
    assert m[|m| - 5..] == ".lock";
  }

  /** No lock marker ends like a media file: every extension ends with a letter or digit other than `k`. */
  lemma {:induction false} MarkerMatchesNoPattern(name: string, id: string, kind: Kind, k: nat)
    requires IsLockMarker(name) && k < |kind.Extensions()|
    ensures !MatchesExt(id, kind.Extensions()[k], name)
  {
    var ext := kind.Extensions()[k];
    assert name[|name| - 1] == 'k';
    assert ext[|ext| - 1] != 'k';
  }

  /** The disk scan never answers a lock marker, so a lock is never served as media. */
  lemma {:induction false} ScanNeverMarker(files: seq<string>, id: string, kind: Kind)
    ensures Scan(files, id, kind.Extensions()).Some? ==> !IsLockMarker(Scan(files, id, kind.Extensions()).value)
  {
    var r := Scan(files, id, kind.Extensions());
    if r.Some? && IsLockMarker(r.value) {
      var k :| 0 <= k < |kind.Extensions()| && MatchesExt(id, kind.Extensions()[k], r.value);
      MarkerMatchesNoPattern(r.value, id, kind, k);
    }
  }

  /** With no marker among the cache values, `find_existing_file` never answers a marker. */
  lemma {:induction false} ExistingNeverMarker(files: seq<string>, cache: map<string, string>, id: string, kind: Kind)
    requires NoMarkerValues(cache)
    ensures Existing(files, cache, id, kind).Some? ==> !IsLockMarker(Existing(files, cache, id, kind).value)
  {
    ScanNeverMarker(files, id, kind);
  }

  /** The second of two `create_lock` calls on one key fails; its release restores the listing. */
  lemma {:induction false} AcquireIsExclusive(files: seq<string>, key: string)
    requires Acquire(files, key).Some?
    ensures Acquire(Acquire(files, key).value, key).None?
    ensures Release(Acquire(files, key).value, LockMarker(key)) == files
    ensures Acquire(Release(Acquire(files, key).value, LockMarker(key)), key).Some?
  {
  }
}
