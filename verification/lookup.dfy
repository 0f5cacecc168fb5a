/**
 * `find_existing_file(video_id, file_type)` (yt_api.py:131-162): the cache
 * entry if its file is present, otherwise the first `glob` match, extension
 * by extension, of `*__<id>.<ext>` and then `<id>*.<ext>` in the download
 * directory.
 */
module Lookup {
  import opened Wrappers
  import opened Listing

  /** The normalised `file_type`: anything other than "video" is audio (yt_api.py:207-211). */
  datatype Kind = Audio | Video {

    /** The `file_type` string, as it appears in cache keys. */
    function Name(): string
    {
      if this == Audio then "audio" else "video"
    }

    /** The extensions in preference order (yt_api.py:136-139). */
    function Extensions(): (r: seq<string>)
      ensures |r| == 5
      ensures forall i, j :: 0 <= i < j < |r| ==> r[i] != r[j]
      ensures forall i :: 0 <= i < |r| ==> 3 <= |r[i]| <= 4
    {
      if this == Audio then ["mp3", "m4a", "wav", "flac", "ogg"]
      else ["mp4", "webm", "mkv", "avi", "mov"]
    }

    /** The extension the clean name gets after a download (yt_api.py:257-268). */
    function DefaultExtension(): (r: string)
      ensures r == Extensions()[0]
    {
      if this == Audio then "mp3" else "mp4"
    }
  }

  /** `f"{video_id}_{file_type}"` (yt_api.py:142, 219). */
  function CacheKey(id: string, kind: Kind): string
  {
    id + "_" + kind.Name()
  }

  /** A name `glob` treats as hidden. */
  predicate Hidden(name: string)
  {
    |name| > 0 && name[0] == '.'
  }

  /**
   * A glob pattern `<prefix>*<suffix>` with no other metacharacter. The
   * pattern `*__<id>.<ext>` has an empty prefix.
   */
  datatype Pattern = Pattern(prefix: string, suffix: string)

  /**
   * `fnmatch` of a name against `<prefix>*<suffix>`, with `glob`'s rule that
   * a pattern not starting with `.` never matches a hidden name.
   */
  predicate Matches(p: Pattern, name: string)
  {
    (Hidden(p.prefix) || !Hidden(name)) &&
    |p.prefix| + |p.suffix| <= |name| &&
    name[..|p.prefix|] == p.prefix &&
    name[|name| - |p.suffix|..] == p.suffix
  }

  /** Pattern 1, `*__<id>.<ext>` (yt_api.py:151). */
  function SuffixPattern(id: string, ext: string): Pattern
  {
    Pattern("", "__" + id + "." + ext)
  }

  /** Pattern 2, `<id>*.<ext>` (yt_api.py:157). */
  function PrefixPattern(id: string, ext: string): Pattern
  {
    Pattern(id, "." + ext)
  }

  /** `glob.glob`: the matching names, in listing order. */
  function Glob(files: seq<string>, p: Pattern): (r: seq<string>)
    ensures forall f :: f in r <==> f in files && Matches(p, f)
    ensures |r| <= |files|
  {
    if files == [] then []
    else
      var rest := Glob(files[1..], p);
      assert forall f :: f in files <==> f == files[0] || f in files[1..];
      if Matches(p, files[0]) then [files[0]] + rest else rest
  }

  /** One of the two patterns for extension `ext` matches `name`. */
  predicate MatchesExt(id: string, ext: string, name: string)
  {
    Matches(SuffixPattern(id, ext), name) || Matches(PrefixPattern(id, ext), name)
  }

  /** Nothing in the listing matches either pattern of any extension in `exts`. */
  predicate NoMatchFor(files: seq<string>, id: string, exts: seq<string>)
  {
    forall k, f :: 0 <= k < |exts| && f in files ==> !MatchesExt(id, exts[k], f)
  }

  /** What extension `ext` yields: the first `*__<id>.<ext>` match, else the first `<id>*.<ext>` match. */
  function PickFor(files: seq<string>, id: string, ext: string): Option<string>
  {
    var bySuffix := Glob(files, SuffixPattern(id, ext));
    if bySuffix != [] then Some(bySuffix[0])
    else
      var byPrefix := Glob(files, PrefixPattern(id, ext));
      if byPrefix != [] then Some(byPrefix[0]) else None
  }

  /** The disk scan of yt_api.py:149-162 over the extensions `exts`. */
  function Scan(files: seq<string>, id: string, exts: seq<string>): (r: Option<string>)
    ensures r.None? <==> NoMatchFor(files, id, exts)
    ensures r.Some? ==> r.value in files && exists k :: 0 <= k < |exts| && MatchesExt(id, exts[k], r.value)
    decreases |exts|
  {
    if exts == [] then None
    else
      var here := PickFor(files, id, exts[0]);
      if here.Some? then
        assert MatchesExt(id, exts[0], here.value);
        here
      else
        var rest := Scan(files, id, exts[1..]);
        assert forall k :: 1 <= k < |exts| ==> exts[k] == exts[1..][k - 1];
        if rest.Some? then
          var k :| 0 <= k < |exts[1..]| && MatchesExt(id, exts[1..][k], rest.value);
          assert MatchesExt(id, exts[k + 1], rest.value);
          rest
        else
          rest
  }

  /** The cache entry whose file is present, else the disk scan (yt_api.py:141-162). */
  function Existing(files: seq<string>, cache: map<string, string>, id: string, kind: Kind): Option<string>
  {
    var key := CacheKey(id, kind);
    if key in cache && cache[key] in files then Some(cache[key])
    else Scan(files, id, kind.Extensions())
  }

  /** `if existing_file:`, the truth value of the answer (yt_api.py:225, 241, 292). */
  predicate Found(o: Option<string>)
  {
    o.Some? && o.value != ""
  }

  /** `matches[0]` is the first name of the listing that matches (yt_api.py:153-154, 159-160). */
  lemma {:induction false} GlobHeadIsFirst(files: seq<string>, p: Pattern, i: nat)
    requires i < |files| && Matches(p, files[i])
    requires forall j :: 0 <= j < i ==> !Matches(p, files[j])
    ensures Glob(files, p) != [] && Glob(files, p)[0] == files[i]
    decreases i
  {
    if i > 0 {
      GlobHeadIsFirst(files[1..], p, i - 1);
    }
  }

  /**
   * The preference order of yt_api.py:149-160: when no extension before
   * `exts[k]` has a match and `exts[k]` has one, the scan answers what `exts[k]`
   * yields, and that puts `*__<id>.<ext>` before `<id>*.<ext>`.
   */
  lemma {:induction false} ScanFollowsPreferenceOrder(files: seq<string>, id: string, exts: seq<string>, k: nat)
    requires k < |exts|
    requires forall j, f :: 0 <= j < k && f in files ==> !MatchesExt(id, exts[j], f)
    requires exists f :: f in files && MatchesExt(id, exts[k], f)
    ensures Scan(files, id, exts) == PickFor(files, id, exts[k])
    ensures Scan(files, id, exts).Some?
    ensures (exists f :: f in files && Matches(SuffixPattern(id, exts[k]), f)) ==>
              Matches(SuffixPattern(id, exts[k]), Scan(files, id, exts).value)
    decreases k
  {
    var f :| f in files && MatchesExt(id, exts[k], f);
    if Matches(SuffixPattern(id, exts[k]), f) {
      assert f in Glob(files, SuffixPattern(id, exts[k]));
    } else {
      assert f in Glob(files, PrefixPattern(id, exts[k]));
    }
    if k > 0 {
      var none := PickFor(files, id, exts[0]);
      if none.Some? {
        assert MatchesExt(id, exts[0], none.value);
        assert false;
      }
      assert forall j :: 0 <= j < |exts| - 1 ==> exts[1..][j] == exts[j + 1];
      ScanFollowsPreferenceOrder(files, id, exts[1..], k - 1);
    }
  }

  /** The answer names a present file: the live cache entry, or a file matching a pattern. */
  lemma {:induction false} ExistingIsPresent(files: seq<string>, cache: map<string, string>, id: string, kind: Kind)
    ensures Existing(files, cache, id, kind).Some? ==> Existing(files, cache, id, kind).value in files
    ensures Found(Existing(files, cache, id, kind)) <==>
              (CacheKey(id, kind) in cache && cache[CacheKey(id, kind)] in files && cache[CacheKey(id, kind)] != "") ||
              (!(CacheKey(id, kind) in cache && cache[CacheKey(id, kind)] in files) && !NoMatchFor(files, id, kind.Extensions()))
  {
    var key := CacheKey(id, kind);
    if !(key in cache && cache[key] in files) {
      var r := Scan(files, id, kind.Extensions());
      if r.Some? {
        var k :| 0 <= k < |kind.Extensions()| && MatchesExt(id, kind.Extensions()[k], r.value);
        assert |r.value| > 0;
      }
    }
  }

  /**
   * A new find comes from a new name: when nothing was found in `files` and
   * something is found once more names exist, the answer is one of the new
   * names.
   */
  lemma {:induction false} FoundOnlyAmongNewFiles(files: seq<string>, after: seq<string>, cache: map<string, string>,
                                                  id: string, kind: Kind)
    requires forall f :: f in files ==> f in after
    requires !Found(Existing(files, cache, id, kind)) && Found(Existing(after, cache, id, kind))
    ensures Existing(after, cache, id, kind).value !in files
  {
    var key := CacheKey(id, kind);
    var d := Existing(after, cache, id, kind).value;
    if !(key in cache && cache[key] in after) && d in files {
      var k :| 0 <= k < |kind.Extensions()| && MatchesExt(id, kind.Extensions()[k], d);
      assert !NoMatchFor(files, id, kind.Extensions());
      ExistingIsPresent(files, cache, id, kind);
    }
  }

  /** A name the pattern does not match makes no difference to `glob`. */
  lemma {:induction false} GlobIgnoresUnmatched(files: seq<string>, p: Pattern, name: string)
    requires !Matches(p, name)
    ensures Glob(Without(files, name), p) == Glob(files, p)
    decreases |files|
  {
    if files != [] {
      GlobIgnoresUnmatched(files[1..], p, name);
    }
  }

  /** A name no pattern of any extension matches makes no difference to the disk scan. */
  lemma {:induction false} ScanIgnoresUnmatched(files: seq<string>, name: string, id: string, exts: seq<string>)
    requires forall k :: 0 <= k < |exts| ==> !MatchesExt(id, exts[k], name)
    ensures Scan(Without(files, name), id, exts) == Scan(files, id, exts)
    decreases |exts|
  {
    if exts != [] {
      assert !MatchesExt(id, exts[0], name);
      GlobIgnoresUnmatched(files, SuffixPattern(id, exts[0]), name);
      GlobIgnoresUnmatched(files, PrefixPattern(id, exts[0]), name);
      assert forall k :: 0 <= k < |exts| - 1 ==> exts[1..][k] == exts[k + 1];
      ScanIgnoresUnmatched(files, name, id, exts[1..]);
    }
  }
}
