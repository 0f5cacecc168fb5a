/**
 * The filename sanitiser `sanitize_title` (yt_api.py:48-72): a total, pure
 * transform of a video title into a filesystem-safe, length-bounded token.
 *
 * Python's Unicode `\w` class is not modelled by a character table: every
 * function takes the class as a parameter `isWordChar`, and the lemmas that
 * need to know something about it assume only `WordClass`, that is, that ASCII
 * letters, digits and `_` belong to it (which Python's `\w` guarantees).
 */
module Sanitizer {

  /** The default `max_len` of `sanitize_title`. */
  const DefaultMaxLen: int := 120

  /** The characters `strip("_.-")` and `rstrip("_.-")` remove. */
  predicate IsSeparator(c: char)
  {
    c == '_' || c == '.' || c == '-'
  }

  /** BIG SOLIDUS and FRACTION SLASH, replaced first (yt_api.py:59). */
  predicate IsUnicodeSlash(c: char)
  {
    c == '\U{29F8}' || c == '\U{2044}'
  }

  /** The class `[<>:"/\\|?*\n\r\t]` of yt_api.py:62. */
  predicate IsReserved(c: char)
  {
    c in "<>:\"/\\|?*\n\r\t"
  }

  predicate IsAsciiAlnum(c: char)
  {
    ('0' <= c <= '9') || ('a' <= c <= 'z') || ('A' <= c <= 'Z')
  }

  /** What the model needs to know of Python's `\w`. */
  ghost predicate WordClass(isWordChar: char -> bool)
  {
    forall c :: IsAsciiAlnum(c) || c == '_' ==> isWordChar(c)
  }

  /** The class `[\w\-\._]` that yt_api.py:64 keeps. */
  predicate Keeps(isWordChar: char -> bool, c: char)
  {
    isWordChar(c) || c == '-' || c == '.' || c == '_'
  }

  /** yt_api.py:59: each unicode slash becomes `_`. */
  function ReplaceSlashes(s: string): string
  {
    seq(|s|, i requires 0 <= i < |s| => if IsUnicodeSlash(s[i]) then '_' else s[i])
  }

  /** yt_api.py:62: each reserved character becomes `_`. */
  function ReplaceReserved(s: string): string
  {
    seq(|s|, i requires 0 <= i < |s| => if IsReserved(s[i]) then '_' else s[i])
  }

  /** The characters of s in `[\w\-\._]` other than `_`, in their order. */
  function Solid(isWordChar: char -> bool, s: string): string
  {
    if s == [] then []
    else (if Keeps(isWordChar, s[0]) && s[0] != '_' then [s[0]] else []) + Solid(isWordChar, s[1..])
  }

  /** The characters of s other than `_`, in their order. */
  function NonUnderscore(s: string): string
  {
    if s == [] then [] else (if s[0] != '_' then [s[0]] else []) + NonUnderscore(s[1..])
  }

  /**
   * yt_api.py:64, `re.sub(r"[^\w\-\._]+", "_", s)`: every maximal run of
   * characters outside the kept class becomes one `_`. `inRun` says that the
   * character before `s` was itself outside the class. `RunsKeepSolid` and
   * `RunsAreCollapsedUnsafeChars` state what survives and where each `_` goes.
   */
  function ReplaceUnsafeRuns(isWordChar: char -> bool, s: string, inRun: bool): (r: string)
    ensures forall i :: 0 <= i < |r| ==> Keeps(isWordChar, r[i])
    ensures forall i :: 0 <= i < |r| ==> r[i] == '_' || r[i] in s
    decreases |s|
  {
    if s == [] then []
    else if Keeps(isWordChar, s[0]) then [s[0]] + ReplaceUnsafeRuns(isWordChar, s[1..], false)
    else if inRun then ReplaceUnsafeRuns(isWordChar, s[1..], true)
    else ['_'] + ReplaceUnsafeRuns(isWordChar, s[1..], true)
  }

  /** The run substitution keeps every kept character other than `_`, in order. */
  lemma {:induction false} RunsKeepSolid(isWordChar: char -> bool, s: string, inRun: bool)
    ensures Solid(isWordChar, ReplaceUnsafeRuns(isWordChar, s, inRun)) == Solid(isWordChar, s)
    decreases |s|
  {
    if s != [] {
      var r := ReplaceUnsafeRuns(isWordChar, s, inRun);
      if Keeps(isWordChar, s[0]) {
        RunsKeepSolid(isWordChar, s[1..], false);
        assert r[1..] == ReplaceUnsafeRuns(isWordChar, s[1..], false);
      } else if inRun {
        RunsKeepSolid(isWordChar, s[1..], true);
      } else {
        RunsKeepSolid(isWordChar, s[1..], true);
        assert r[1..] == ReplaceUnsafeRuns(isWordChar, s[1..], true);
      }
    }
  }

  /** There are two underscores at positions i and i + 1 of s. */
  predicate UnderscorePairAt(s: string, i: int)
  {
    0 <= i < |s| - 1 && s[i] == '_' && s[i + 1] == '_'
  }

  predicate NoDoubleUnderscore(s: string)
  {
    forall i | 0 <= i < |s| - 1 :: !UnderscorePairAt(s, i)
  }

  /**
   * yt_api.py:66, `re.sub(r"_+", "_", s)`: every run of `_` becomes one `_`.
   * Only underscores are dropped: the other characters survive, in order.
   */
  function SqueezeUnderscores(s: string): (r: string)
    ensures |s| > 0 ==> |r| > 0 && r[0] == s[0]
    ensures forall i :: 0 <= i < |r| ==> r[i] in s
    ensures NoDoubleUnderscore(r)
    ensures NonUnderscore(r) == NonUnderscore(s)
  {
    if |s| == 0 then []
    else if |s| > 1 && s[0] == '_' && s[1] == '_' then SqueezeUnderscores(s[1..])
    else
      var rest := SqueezeUnderscores(s[1..]);
      var r := [s[0]] + rest;
      assert |rest| > 0 ==> rest[0] == s[1];
      assert forall i | 0 < i < |r| - 1 :: UnderscorePairAt(r, i) ==> UnderscorePairAt(rest, i - 1);
      assert r[1..] == rest;
      r
  }

  /** `lstrip("_.-")`: the suffix of s left after dropping its leading separators. */
  function StripLeading(s: string): (r: string)
    ensures |r| <= |s| && r == s[|s| - |r|..]
    ensures r == [] || !IsSeparator(r[0])
    ensures forall i :: 0 <= i < |s| - |r| ==> IsSeparator(s[i])
  {
    if |s| > 0 && IsSeparator(s[0]) then StripLeading(s[1..]) else s
  }

  /** `rstrip("_.-")`: the prefix of s left after dropping its trailing separators. */
  function StripTrailing(s: string): (r: string)
    ensures |r| <= |s| && r == s[..|r|]
    ensures r == [] || !IsSeparator(r[|r| - 1])
    ensures forall i :: |r| <= i < |s| ==> IsSeparator(s[i])
  {
    if |s| > 0 && IsSeparator(s[|s| - 1]) then StripTrailing(s[..|s| - 1]) else s
  }

  /** `strip("_.-")` (yt_api.py:67). */
  function Strip(s: string): string
  {
    StripTrailing(StripLeading(s))
  }

  /** The character of a decimal digit. */
  function DigitChar(d: nat): (c: char)
    requires d < 10
    ensures '0' <= c <= '9'
    ensures c as int - '0' as int == d
  {
    ('0' as int + d) as char
  }

  /** `str(n)` for a non-negative integer: its decimal digits, without leading zeros. */
  function Decimal(n: nat): (r: string)
    ensures |r| > 0
    ensures forall i :: 0 <= i < |r| ==> '0' <= r[i] <= '9'
    ensures |r| > 1 ==> r[0] != '0'
  {
    if n < 10 then [DigitChar(n)] else Decimal(n / 10) + [DigitChar(n % 10)]
  }

  /** The number a string of decimal digits denotes, read from the left. */
  function DecimalValue(s: string): int
  {
    if s == [] then 0 else DecimalValue(s[..|s| - 1]) * 10 + (s[|s| - 1] as int - '0' as int)
  }

  /** The digits of `str(n)` denote n, so `file_<timestamp>` carries the timestamp (yt_api.py:69). */
  lemma {:induction false} DecimalRoundTrip(n: nat)
    ensures DecimalValue(Decimal(n)) == n
    decreases n
  {
    var r := Decimal(n);
    if n < 10 {
      assert r[..|r| - 1] == [];
    } else {
      DecimalRoundTrip(n / 10);
      assert r[..|r| - 1] == Decimal(n / 10);
    }
  }

  /** yt_api.py:69: the name used when nothing of the title survives. */
  function FallbackName(clock: nat): string
  {
    "file_" + Decimal(clock)
  }

  /** Python's `s[:n]`, where a negative n counts from the end. */
  function PyHead(s: string, n: int): (r: string)
    ensures |r| <= |s| && r == s[..|r|]
    ensures 0 <= n ==> |r| == (if n < |s| then n else |s|)
  {
    if n >= 0 then (if n < |s| then s[..n] else s)
    else if |s| + n > 0 then s[..|s| + n]
    else []
  }

  /**
   * Steps (b)-(f) of `sanitize_title` (yt_api.py:59-67): slashes and reserved
   * characters become `_`, unsafe runs become one `_`, runs of `_` collapse,
   * separators are stripped from both ends.
   */
  function Cleaned(title: string, isWordChar: char -> bool): string
  {
    var replaced := ReplaceReserved(ReplaceSlashes(title));
    Strip(SqueezeUnderscores(ReplaceUnsafeRuns(isWordChar, replaced, false)))
  }

  /** yt_api.py:70-71: cut to maxLen characters, then drop trailing separators again. */
  function Truncate(s: string, maxLen: int): string
  {
    if |s| > maxLen then StripTrailing(PyHead(s, maxLen)) else s
  }

  /**
   * `sanitize_title(title, max_len)` (yt_api.py:48-72), with `clock` the value of
   * `int(time.time())` at the call and `isWordChar` Python's `\w`.
   */
  function SanitizeTitle(title: string, maxLen: int, clock: nat, isWordChar: char -> bool): string
  {
    var cleaned := Cleaned(title, isWordChar);
    Truncate(if cleaned == [] then FallbackName(clock) else cleaned, maxLen)
  }

  /** No reserved character and no unicode slash occurs in s. */
  predicate FreeOfUnsafe(s: string)
  {
    forall i :: 0 <= i < |s| ==> !IsReserved(s[i]) && !IsUnicodeSlash(s[i])
  }

  /** s neither starts nor ends with `_`, `.` or `-`. */
  predicate EdgesClean(s: string)
  {
    s == [] || (!IsSeparator(s[0]) && !IsSeparator(s[|s| - 1]))
  }

  /** Everything the sanitiser promises of its output, except its length. */
  predicate Shaped(s: string)
  {
    FreeOfUnsafe(s) && NoDoubleUnderscore(s) && EdgesClean(s)
  }

  /** Every character of s is in the class `[\w\-\._]`. */
  predicate AllKept(isWordChar: char -> bool, s: string)
  {
    forall i :: 0 <= i < |s| ==> Keeps(isWordChar, s[i])
  }

  lemma {:induction false} PrefixKeepsShape(s: string, n: nat)
    requires n <= |s| && FreeOfUnsafe(s) && NoDoubleUnderscore(s)
    ensures FreeOfUnsafe(s[..n]) && NoDoubleUnderscore(s[..n])
  {
    assert forall i | 0 <= i < n - 1 :: UnderscorePairAt(s[..n], i) ==> UnderscorePairAt(s, i);
  }

  lemma {:induction false} SuffixKeepsShape(s: string, n: nat)
    requires n <= |s| && FreeOfUnsafe(s) && NoDoubleUnderscore(s)
    ensures FreeOfUnsafe(s[n..]) && NoDoubleUnderscore(s[n..])
  {
    assert forall i | 0 <= i < |s| - n - 1 :: UnderscorePairAt(s[n..], i) ==> UnderscorePairAt(s, i + n);
  }

  lemma {:induction false} StripShapes(s: string)
    requires FreeOfUnsafe(s) && NoDoubleUnderscore(s)
    ensures Shaped(Strip(s))
  {
    var l := StripLeading(s);
    SuffixKeepsShape(s, |s| - |l|);
    var r := StripTrailing(l);
    PrefixKeepsShape(l, |r|);
    if r != [] {
      assert r[0] == l[0];
    }
  }

  /** `file_<digits>` is shaped, non-empty and made of ASCII letters, digits and `_`. */
  lemma {:induction false} FallbackShaped(clock: nat)
    ensures Shaped(FallbackName(clock)) && |FallbackName(clock)| > 0
    ensures forall i :: 0 <= i < |FallbackName(clock)| ==>
              IsAsciiAlnum(FallbackName(clock)[i]) || FallbackName(clock)[i] == '_'
  {
    var d := Decimal(clock);
    var f := FallbackName(clock);
    assert forall i :: 5 <= i < |f| ==> f[i] == d[i - 5];
    assert forall i :: 0 <= i < 5 ==> f[i] == "file_"[i];
    forall i | 0 <= i < |f| - 1 ensures !UnderscorePairAt(f, i) {
      if 4 <= i { assert f[i + 1] == d[i - 4]; }
    }
  }

  /** Steps (b)-(f) leave a shaped string. */
  lemma {:induction false} CleanedShaped(title: string, isWordChar: char -> bool)
    ensures Shaped(Cleaned(title, isWordChar))
  {
    var replaced := ReplaceReserved(ReplaceSlashes(title));
    var runs := ReplaceUnsafeRuns(isWordChar, replaced, false);
    var squeezed := SqueezeUnderscores(runs);
    assert FreeOfUnsafe(replaced);
    assert FreeOfUnsafe(runs);
    assert FreeOfUnsafe(squeezed);
    StripShapes(squeezed);
  }

  /** Steps (b)-(f) keep only characters of `[\w\-\._]`. */
  lemma {:induction false} CleanedKept(title: string, isWordChar: char -> bool)
    ensures AllKept(isWordChar, Cleaned(title, isWordChar))
  {
    var replaced := ReplaceReserved(ReplaceSlashes(title));
    var runs := ReplaceUnsafeRuns(isWordChar, replaced, false);
    var squeezed := SqueezeUnderscores(runs);
    var l := StripLeading(squeezed);
    assert AllKept(isWordChar, squeezed);
    assert AllKept(isWordChar, l);
  }

  /** Truncation keeps a shaped non-empty string shaped, within maxLen, and empty only for maxLen 0. */
  lemma {:induction false} TruncateShaped(s: string, maxLen: int)
    requires Shaped(s) && s != []
    ensures Shaped(Truncate(s, maxLen))
    ensures 0 <= maxLen ==> |Truncate(s, maxLen)| <= maxLen
    ensures 0 <= maxLen ==> (Truncate(s, maxLen) == [] <==> maxLen == 0)
    ensures forall c :: c in Truncate(s, maxLen) ==> c in s
  {
    if |s| > maxLen {
      var head := PyHead(s, maxLen);
      PrefixKeepsShape(s, |head|);
      var r := StripTrailing(head);
      PrefixKeepsShape(head, |r|);
      assert r == s[..|r|];
      if r != [] {
        assert r[0] == s[0];
      }
      if 0 < maxLen {
        assert head[0] == s[0];
      }
    }
  }

  /**
   * The shape guarantees of yt_api.py:59-71: no reserved character or unicode
   * slash, no `__`, no leading or trailing `_`, `.` or `-`, at most maxLen
   * characters, and empty only when maxLen is 0.
   */
  lemma {:induction false} SanitizeShape(title: string, maxLen: int, clock: nat, isWordChar: char -> bool)
    ensures Shaped(SanitizeTitle(title, maxLen, clock, isWordChar))
    ensures 0 <= maxLen ==> |SanitizeTitle(title, maxLen, clock, isWordChar)| <= maxLen
    ensures 0 <= maxLen ==> (SanitizeTitle(title, maxLen, clock, isWordChar) == [] <==> maxLen == 0)
  {
    var cleaned := Cleaned(title, isWordChar);
    CleanedShaped(title, isWordChar);
    FallbackShaped(clock);
    TruncateShaped(if cleaned == [] then FallbackName(clock) else cleaned, maxLen);
  }

  /** When `\w` contains ASCII letters, digits and `_`, every output character is in `[\w\-\._]`. */
  lemma {:induction false} SanitizeKeepsOnlySafeClass(title: string, maxLen: int, clock: nat, isWordChar: char -> bool)
    requires WordClass(isWordChar)
    ensures AllKept(isWordChar, SanitizeTitle(title, maxLen, clock, isWordChar))
  {
    var cleaned := Cleaned(title, isWordChar);
    CleanedShaped(title, isWordChar);
    CleanedKept(title, isWordChar);
    FallbackShaped(clock);
    var named := if cleaned == [] then FallbackName(clock) else cleaned;
    assert AllKept(isWordChar, named);
    TruncateShaped(named, maxLen);
    var r := Truncate(named, maxLen);
    forall i | 0 <= i < |r| ensures Keeps(isWordChar, r[i]) {
      assert r[i] in named;
    }
  }

  lemma {:induction false} UnsafeRunsFixKeptStrings(isWordChar: char -> bool, s: string, inRun: bool)
    requires AllKept(isWordChar, s)
    ensures ReplaceUnsafeRuns(isWordChar, s, inRun) == s
    decreases |s|
  {
    if s != [] {
      UnsafeRunsFixKeptStrings(isWordChar, s[1..], false);
    }
  }

  lemma {:induction false} SqueezeFixesSingleUnderscores(s: string)
    requires NoDoubleUnderscore(s)
    ensures SqueezeUnderscores(s) == s
  {
    if |s| > 0 {
      assert !UnderscorePairAt(s, 0);
      assert forall i | 0 <= i < |s| - 2 :: UnderscorePairAt(s[1..], i) ==> UnderscorePairAt(s, i + 1);
      SqueezeFixesSingleUnderscores(s[1..]);
    }
  }

  /** Each character outside `[\w\-\._]` replaced by its own `_`: the run substitution before any collapsing. */
  function MapUnsafe(isWordChar: char -> bool, s: string): string
  {
    seq(|s|, i requires 0 <= i < |s| => if Keeps(isWordChar, s[i]) then s[i] else '_')
  }

  /**
   * Collapsing underscores treats `__` as `_` wherever it occurs. With
   * `SqueezeFixesSingleUnderscores`, this pins the collapse down as the
   * rewrite of `__` to `_` in place, repeated until no `__` is left.
   */
  lemma {:induction false} SqueezePair(a: string, b: string)
    ensures SqueezeUnderscores(a + "__" + b) == SqueezeUnderscores(a + "_" + b)
    decreases |a|
  {
    var s := a + "__" + b;
    var t := a + "_" + b;
    if a == [] {
      assert s[1..] == t;
    } else {
      assert s[1..] == a[1..] + "__" + b;
      assert t[1..] == a[1..] + "_" + b;
      assert s[0] == t[0] && s[1] == t[1];
      SqueezePair(a[1..], b);
    }
  }

  /** The per-character substitution unfolds over the first character. */
  lemma {:induction false} MapUnsafeCons(isWordChar: char -> bool, s: string)
    requires s != []
    ensures MapUnsafe(isWordChar, s) ==
            [if Keeps(isWordChar, s[0]) then s[0] else '_'] + MapUnsafe(isWordChar, s[1..])
  {
    var m := MapUnsafe(isWordChar, s);
    var m' := MapUnsafe(isWordChar, s[1..]);
    assert forall i :: 0 <= i < |m'| ==> m[i + 1] == m'[i];
  }

  /** A kept first character is copied by both substitutions. */
  lemma {:induction false} KeptStep(isWordChar: char -> bool, p: string, s: string, inRun: bool)
    requires s != [] && Keeps(isWordChar, s[0])
    ensures p + ReplaceUnsafeRuns(isWordChar, s, inRun) == (p + [s[0]]) + ReplaceUnsafeRuns(isWordChar, s[1..], false)
    ensures p + MapUnsafe(isWordChar, s) == (p + [s[0]]) + MapUnsafe(isWordChar, s[1..])
  {
    var r' := ReplaceUnsafeRuns(isWordChar, s[1..], false);
    assert ReplaceUnsafeRuns(isWordChar, s, inRun) == [s[0]] + r';
    assert p + ([s[0]] + r') == (p + [s[0]]) + r';
    var m' := MapUnsafe(isWordChar, s[1..]);
    MapUnsafeCons(isWordChar, s);
    assert p + ([s[0]] + m') == (p + [s[0]]) + m';
  }

  /** An unsafe first character that opens a run is one `_` in both substitutions. */
  lemma {:induction false} OpeningStep(isWordChar: char -> bool, p: string, s: string)
    requires s != [] && !Keeps(isWordChar, s[0])
    ensures p + ReplaceUnsafeRuns(isWordChar, s, false) == (p + "_") + ReplaceUnsafeRuns(isWordChar, s[1..], true)
    ensures p + MapUnsafe(isWordChar, s) == (p + "_") + MapUnsafe(isWordChar, s[1..])
  {
    var r' := ReplaceUnsafeRuns(isWordChar, s[1..], true);
    assert ReplaceUnsafeRuns(isWordChar, s, false) == "_" + r';
    assert p + ("_" + r') == (p + "_") + r';
    var m' := MapUnsafe(isWordChar, s[1..]);
    MapUnsafeCons(isWordChar, s);
    assert p + ("_" + m') == (p + "_") + m';
  }

  /** An unsafe character inside a run adds nothing to the runs and one more `_` to the per-character form. */
  lemma {:induction false} InRunStep(isWordChar: char -> bool, p: string, s: string)
    requires s != [] && !Keeps(isWordChar, s[0]) && |p| > 0 && p[|p| - 1] == '_'
    ensures p + ReplaceUnsafeRuns(isWordChar, s, true) == p + ReplaceUnsafeRuns(isWordChar, s[1..], true)
    ensures SqueezeUnderscores(p + MapUnsafe(isWordChar, s)) == SqueezeUnderscores(p + MapUnsafe(isWordChar, s[1..]))
  {
    assert ReplaceUnsafeRuns(isWordChar, s, true) == ReplaceUnsafeRuns(isWordChar, s[1..], true);
    var m' := MapUnsafe(isWordChar, s[1..]);
    MapUnsafeCons(isWordChar, s);
    var p0 := p[..|p| - 1];
    assert p == p0 + "_";
    SqueezePair(p0, m');
    assert p + MapUnsafe(isWordChar, s) == p0 + "__" + m';
    assert p + m' == p0 + "_" + m';
  }

  /**
   * After the collapse, turning each unsafe run into one `_` (yt_api.py:64)
   * is the same as turning each unsafe character into its own `_`. `p` is
   * what came before, and ends in `_` when a run is already open.
   */
  lemma {:induction false} RunsThenSqueeze(isWordChar: char -> bool, p: string, s: string, inRun: bool)
    requires inRun ==> |p| > 0 && p[|p| - 1] == '_'
    ensures SqueezeUnderscores(p + ReplaceUnsafeRuns(isWordChar, s, inRun)) ==
            SqueezeUnderscores(p + MapUnsafe(isWordChar, s))
    decreases |s|
  {
    if s == [] {
      assert p + ReplaceUnsafeRuns(isWordChar, s, inRun) == p;
      assert p + MapUnsafe(isWordChar, s) == p;
    } else if Keeps(isWordChar, s[0]) {
      KeptStep(isWordChar, p, s, inRun);
      RunsThenSqueeze(isWordChar, p + [s[0]], s[1..], false);
    } else if inRun {
      InRunStep(isWordChar, p, s);
      RunsThenSqueeze(isWordChar, p, s[1..], true);
    } else {
      OpeningStep(isWordChar, p, s);
      RunsThenSqueeze(isWordChar, p + "_", s[1..], true);
    }
  }

  /**
   * `re.sub(r"_+", "_", re.sub(r"[^\w\-\._]+", "_", s))` (yt_api.py:64-66)
   * equals the collapse of the character-by-character substitution: every
   * unsafe run leaves exactly one `_` in its place once underscores collapse.
   */
  lemma {:induction false} RunsAreCollapsedUnsafeChars(isWordChar: char -> bool, s: string)
    ensures SqueezeUnderscores(ReplaceUnsafeRuns(isWordChar, s, false)) ==
            SqueezeUnderscores(MapUnsafe(isWordChar, s))
  {
    RunsThenSqueeze(isWordChar, [], s, false);
    assert [] + ReplaceUnsafeRuns(isWordChar, s, false) == ReplaceUnsafeRuns(isWordChar, s, false);
    assert [] + MapUnsafe(isWordChar, s) == MapUnsafe(isWordChar, s);
  }

  /** A title of safe words with single spaces between them: the spaces become `_` and nothing else changes. */
  lemma {:induction false} SpacesBecomeUnderscores(isWordChar: char -> bool, a: string, b: string)
    requires AllKept(isWordChar, a) && AllKept(isWordChar, b) && !Keeps(isWordChar, ' ')
    requires NoDoubleUnderscore(a + "_" + b)
    ensures SqueezeUnderscores(ReplaceUnsafeRuns(isWordChar, a + " " + b, false)) == a + "_" + b
  {
    var s := a + " " + b;
    var t := a + "_" + b;
    var m := MapUnsafe(isWordChar, s);
    forall i | 0 <= i < |t| ensures m[i] == t[i] {
      if i < |a| {
        assert s[i] == a[i] && t[i] == a[i];
      } else if i > |a| {
        assert s[i] == b[i - |a| - 1] && t[i] == b[i - |a| - 1];
      }
    }
    assert m == t;
    RunsAreCollapsedUnsafeChars(isWordChar, s);
    SqueezeFixesSingleUnderscores(t);
  }

  /** A shaped, non-empty name within maxLen passes through every step of `sanitize_title` unchanged. */
  lemma {:induction false} SanitizeFixesShaped(s: string, maxLen: int, clock: nat, isWordChar: char -> bool)
    requires Shaped(s) && s != [] && |s| <= maxLen && AllKept(isWordChar, s)
    ensures SanitizeTitle(s, maxLen, clock, isWordChar) == s
  {
    assert ReplaceSlashes(s) == s;
    assert ReplaceReserved(s) == s;
    UnsafeRunsFixKeptStrings(isWordChar, s, false);
    SqueezeFixesSingleUnderscores(s);
    assert StripLeading(s) == s;
    assert StripTrailing(s) == s;
  }

  /** For a fixed clock, sanitising a sanitised title changes nothing (yt_api.py:56-72). */
  lemma {:induction false} SanitizeIdempotent(title: string, maxLen: int, clock: nat, isWordChar: char -> bool)
    requires WordClass(isWordChar) && 0 <= maxLen
    ensures var once := SanitizeTitle(title, maxLen, clock, isWordChar);
            SanitizeTitle(once, maxLen, clock, isWordChar) == once
  {
    var once := SanitizeTitle(title, maxLen, clock, isWordChar);
    SanitizeShape(title, maxLen, clock, isWordChar);
    SanitizeKeepsOnlySafeClass(title, maxLen, clock, isWordChar);
    if once != [] {
      SanitizeFixesShaped(once, maxLen, clock, isWordChar);
    } else {
      SanitizeShape(once, maxLen, clock, isWordChar);
    }
  }
}
