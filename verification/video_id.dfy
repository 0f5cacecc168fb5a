/**
 * The identity resolver: `extract_video_id` (yt_api.py:81-98) and the fallback
 * logic of `get_video_info` (yt_api.py:101-128).
 *
 * Each regular expression of yt_api.py:86-89 has the shape
 * `(?:lit1|lit2|...)([0-9A-Za-z_-]{11})(?:\S+)?`. The trailing `(?:\S+)?` is
 * optional and never makes a match fail, so a pattern is modelled by its list
 * of literal alternatives, tried in order, each followed by eleven id
 * characters. `re.search` is the leftmost start position at which the pattern
 * matches; group 1 is the eleven characters after the first alternative that
 * matches there.
 */
module VideoId {
  import opened Wrappers

  /** The length of a YouTube video id and of the digest fallback. */
  const IdLength: nat := 11

  /** The class `[0-9A-Za-z_-]`. */
  predicate IsIdChar(c: char)
  {
    ('0' <= c <= '9') || ('A' <= c <= 'Z') || ('a' <= c <= 'z') || c == '_' || c == '-'
  }

  predicate IsHexDigit(c: char)
  {
    ('0' <= c <= '9') || ('a' <= c <= 'f')
  }

  /** What `hashlib.md5(...).hexdigest()` returns: 32 lower-case hex digits. */
  type HexDigest = s: string | |s| == 32 && forall i :: 0 <= i < |s| ==> IsHexDigit(s[i])
    witness "00000000000000000000000000000000"

  /** The four patterns of yt_api.py:86-89, as their literal alternatives. */
  const Patterns: seq<seq<string>> := [["v=", "/"], ["youtu.be/"], ["/embed/"], ["/v/"]]

  /** The literal lit occurs in url at position i. */
  predicate LiteralAt(url: string, lit: string, i: int)
  {
    0 <= i && i + |lit| <= |url| && forall j :: 0 <= j < |lit| ==> url[i + j] == lit[j]
  }

  /** Eleven id characters start at position k of url. */
  predicate IdCharsAt(url: string, k: int)
  {
    0 <= k && k + IdLength <= |url| && forall j :: k <= j < k + IdLength ==> IsIdChar(url[j])
  }

  /** The alternative lit, followed by eleven id characters, matches at position i. */
  predicate AltAt(url: string, lit: string, i: int)
  {
    LiteralAt(url, lit, i) && IdCharsAt(url, i + |lit|)
  }

  /** Group 1 of a match that starts at position i: the id after the first alternative that fits. */
  function GroupAt(url: string, alts: seq<string>, i: int): (r: Option<string>)
    ensures r.None? <==> forall a :: 0 <= a < |alts| ==> !AltAt(url, alts[a], i)
    ensures r.Some? ==> |r.value| == IdLength && forall j :: 0 <= j < |r.value| ==> IsIdChar(r.value[j])
  {
    if alts == [] then None
    else if AltAt(url, alts[0], i) then Some(url[i + |alts[0]| .. i + |alts[0]| + IdLength])
    else
      var r := GroupAt(url, alts[1..], i);
      assert forall a :: 1 <= a < |alts| ==> alts[a] == alts[1..][a - 1];
      r
  }

  /** The leftmost start position at or after `from` where the pattern matches. */
  function SearchFrom(url: string, alts: seq<string>, from: nat): (r: Option<nat>)
    ensures r.Some? ==> from <= r.value <= |url| && GroupAt(url, alts, r.value).Some?
    ensures r.Some? ==> forall j :: from <= j < r.value ==> GroupAt(url, alts, j).None?
    ensures r.None? ==> forall j :: from <= j <= |url| ==> GroupAt(url, alts, j).None?
    decreases |url| + 1 - from
  {
    if from > |url| then None
    else if GroupAt(url, alts, from).Some? then Some(from)
    else SearchFrom(url, alts, from + 1)
  }

  /** `re.search(pattern, url)` followed by `match.group(1)`. */
  function Search(url: string, alts: seq<string>): Option<string>
  {
    match SearchFrom(url, alts, 0)
    case None => None
    case Some(i) => GroupAt(url, alts, i)
  }

  /** The loop of yt_api.py:92-95: the group of the first pattern that matches. */
  function FirstPatternMatch(pats: seq<seq<string>>, url: string): (r: Option<string>)
    ensures r.Some? ==> |r.value| == IdLength && forall j :: 0 <= j < |r.value| ==> IsIdChar(r.value[j])
  {
    if pats == [] then None
    else match Search(url, pats[0])
      case Some(id) => Some(id)
      case None => FirstPatternMatch(pats[1..], url)
  }

  /**
   * `extract_video_id(url)` (yt_api.py:81-98), `md5` standing for
   * `hashlib.md5(url.encode()).hexdigest()`. The result always has eleven
   * characters from `[0-9A-Za-z_-]`.
   */
  function ExtractVideoId(url: string, md5: string -> HexDigest): (r: string)
    ensures |r| == IdLength
    ensures forall j :: 0 <= j < |r| ==> IsIdChar(r[j])
  {
    match FirstPatternMatch(Patterns, url)
    case Some(id) => id
    case None => md5(url)[..IdLength]
  }

  /** Pattern 1 (yt_api.py:86) matches at position i. */
  predicate FirstPatternAt(url: string, i: int)
  {
    AltAt(url, "v=", i) || AltAt(url, "/", i)
  }

  lemma {:induction false} GroupOfFirstPattern(url: string, i: int)
    ensures GroupAt(url, Patterns[0], i).Some? <==> FirstPatternAt(url, i)
    ensures AltAt(url, "v=", i) ==> GroupAt(url, Patterns[0], i) == Some(url[i + 2 .. i + 2 + IdLength])
    ensures !AltAt(url, "v=", i) && AltAt(url, "/", i) ==>
              GroupAt(url, Patterns[0], i) == Some(url[i + 1 .. i + 1 + IdLength])
  {
    assert Patterns[0] == ["v=", "/"];
    assert Patterns[0][1..] == ["/"];
  }

  /** An alternative that ends with `/` and matches at i makes pattern 1 match somewhere. */
  lemma {:induction false} SlashAlternativeImpliesFirstPattern(url: string, lit: string, i: int)
    requires |lit| > 0 && lit[|lit| - 1] == '/' && AltAt(url, lit, i)
    ensures Search(url, Patterns[0]).Some?
  {
    var k := i + |lit| - 1;
    assert url[k] == lit[|lit| - 1];
    assert AltAt(url, "/", k);
    GroupOfFirstPattern(url, k);
    assert GroupAt(url, Patterns[0], k).Some?;
  }

  /** A pattern whose single alternative ends with `/` never matches where pattern 1 does not. */
  lemma {:induction false} SlashPatternImpliesFirstPattern(url: string, lit: string)
    requires |lit| > 0 && lit[|lit| - 1] == '/'
    requires Search(url, [lit]).Some?
    ensures Search(url, Patterns[0]).Some?
  {
    var i := SearchFrom(url, [lit], 0).value;
    assert AltAt(url, [lit][0], i);
    SlashAlternativeImpliesFirstPattern(url, lit, i);
  }

  /**
   * Patterns 2-4 (yt_api.py:87-89) never decide the result: each contains `/`
   * followed by eleven id characters, so pattern 1 (yt_api.py:86) has matched
   * already whenever one of them would.
   */
  lemma {:induction false} OnlyFirstPatternDecides(url: string, md5: string -> HexDigest)
    ensures ExtractVideoId(url, md5) ==
            match Search(url, Patterns[0])
            case Some(id) => id
            case None => md5(url)[..IdLength]
  {
    if Search(url, Patterns[0]).None? {
      var rest := Patterns[1..];
      assert rest == [["youtu.be/"], ["/embed/"], ["/v/"]];
      if Search(url, ["youtu.be/"]).Some? {
        SlashPatternImpliesFirstPattern(url, "youtu.be/");
      }
      if Search(url, ["/embed/"]).Some? {
        SlashPatternImpliesFirstPattern(url, "/embed/");
      }
      if Search(url, ["/v/"]).Some? {
        SlashPatternImpliesFirstPattern(url, "/v/");
      }
      assert rest[1..] == [["/embed/"], ["/v/"]];
      assert rest[1..][1..] == [["/v/"]];
      assert FirstPatternMatch(rest[1..][1..][1..], url).None?;
      assert FirstPatternMatch(rest[1..][1..], url).None?;
      assert FirstPatternMatch(rest[1..], url).None?;
      assert FirstPatternMatch(rest, url).None?;
    }
  }

  /** With a `v=` or `/` match at i and none before, the id is the eleven characters after it. */
  lemma {:induction false} ExtractFindsLeftmostMatch(url: string, md5: string -> HexDigest, i: nat)
    requires FirstPatternAt(url, i)
    requires forall j :: 0 <= j < i ==> !FirstPatternAt(url, j)
    ensures ExtractVideoId(url, md5) ==
            if AltAt(url, "v=", i) then url[i + 2 .. i + 2 + IdLength] else url[i + 1 .. i + 1 + IdLength]
  {
    OnlyFirstPatternDecides(url, md5);
    GroupOfFirstPattern(url, i);
    var found := SearchFrom(url, Patterns[0], 0);
    assert found.Some?;
    GroupOfFirstPattern(url, found.value);
    assert found.value == i;
  }

  /** Without any `v=` or `/` match, the id is the digest prefix (yt_api.py:98). */
  lemma {:induction false} ExtractFallsBackToDigest(url: string, md5: string -> HexDigest)
    requires forall j :: 0 <= j <= |url| ==> !FirstPatternAt(url, j)
    ensures ExtractVideoId(url, md5) == md5(url)[..IdLength]
  {
    OnlyFirstPatternDecides(url, md5);
    var found := SearchFrom(url, Patterns[0], 0);
    if found.Some? {
      GroupOfFirstPattern(url, found.value);
    }
  }

  /** Pattern 1 cannot match where the url has neither `/` nor `v`. */
  lemma {:induction false} NoMatchWithoutLead(url: string, i: nat)
    requires i < |url| && url[i] != '/' && url[i] != 'v'
    ensures !FirstPatternAt(url, i)
  {
    assert "v="[0] == 'v' && "/"[0] == '/';
  }

  /** The host part of a short link, `https://youtu.be/`, holds no match of pattern 1. */
  lemma {:induction false} ShortLinkHostHasNoMatch(id: string)
    ensures forall j :: 0 <= j < 16 ==> !FirstPatternAt("https://youtu.be/" + id, j)
  {
    var host := "https://youtu.be/";
    var url := host + id;
    assert forall k :: 0 <= k < |host| ==> url[k] == host[k];
    assert "v="[0] == 'v';
    forall j | 0 <= j < 16 ensures !FirstPatternAt(url, j) {
      if j == 0 {
        NoMatchWithoutLead(url, 0);
      } else if j == 1 {
        NoMatchWithoutLead(url, 1);
      } else if j == 2 {
        NoMatchWithoutLead(url, 2);
      } else if j == 3 {
        NoMatchWithoutLead(url, 3);
      } else if j == 4 {
        NoMatchWithoutLead(url, 4);
      } else if j == 5 {
        NoMatchWithoutLead(url, 5);
      } else if j == 6 {
        assert !IsIdChar(url[7]);
      } else if j == 7 {
        assert !IsIdChar(url[13]);
      } else if j == 8 {
        NoMatchWithoutLead(url, 8);
      } else if j == 9 {
        NoMatchWithoutLead(url, 9);
      } else if j == 10 {
        NoMatchWithoutLead(url, 10);
      } else if j == 11 {
        NoMatchWithoutLead(url, 11);
      } else if j == 12 {
        NoMatchWithoutLead(url, 12);
      } else if j == 13 {
        NoMatchWithoutLead(url, 13);
      } else if j == 14 {
        NoMatchWithoutLead(url, 14);
      } else {
        NoMatchWithoutLead(url, 15);
      }
    }
  }

  /** A short link `https://youtu.be/<id>` gives its eleven-character id, e.g. `dQw4w9WgXcQ`. */
  lemma {:induction false} ShortLinkGivesId(id: string, md5: string -> HexDigest)
    requires |id| == IdLength && IdCharsAt(id, 0)
    ensures ExtractVideoId("https://youtu.be/" + id, md5) == id
  {
    var url := "https://youtu.be/" + id;
    ShortLinkHostHasNoMatch(id);
    assert url[16] == '/' && url[17..] == id;
    assert AltAt(url, "/", 16);
    ExtractFindsLeftmostMatch(url, md5, 16);
  }

  /** The example of the short-link format: `https://youtu.be/dQw4w9WgXcQ` gives `dQw4w9WgXcQ`. */
  lemma {:induction false} ShortLinkExample(md5: string -> HexDigest)
    ensures ExtractVideoId("https://youtu.be/dQw4w9WgXcQ", md5) == "dQw4w9WgXcQ"
  {
    var id := "dQw4w9WgXcQ";
    assert forall k :: 0 <= k < |id| ==> IsIdChar(id[k]);
    assert "https://youtu.be/" + id == "https://youtu.be/dQw4w9WgXcQ";
    ShortLinkGivesId(id, md5);
  }

  /** What `get_video_info` returns: the video id and the display title. */
  datatype Identity = Identity(id: string, title: string)

  /**
   * `get_video_info(url)` (yt_api.py:101-128). `toolId` and `toolTitle` are the
   * stripped outputs of the two `yt-dlp` queries, None when a query raised.
   */
  function GetVideoInfo(url: string, toolId: Option<string>, toolTitle: Option<string>,
                        md5: string -> HexDigest): (r: Identity)
    ensures toolId.Some? ==> r.id == toolId.value
    ensures toolId.None? ==> r.id == ExtractVideoId(url, md5)
    ensures toolId.None? ==> |r.id| == IdLength && forall j :: 0 <= j < |r.id| ==> IsIdChar(r.id[j])
    ensures toolTitle.Some? ==> r.title == toolTitle.value
    ensures toolTitle.None? ==> r.title == "video_" + r.id
  {
    var id := match toolId case Some(v) => v case None => ExtractVideoId(url, md5);
    var title := match toolTitle case Some(t) => t case None => "video_" + id;
    Identity(id, title)
  }
}
