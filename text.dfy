/** The few Python `str` operations the scrapers use, on `seq<char>`: `strip()`, `split('\n')`,
    `sep.join(...)`, single-character `replace`, the `in` substring test, ASCII `lower()` and
    the decimal rendering of a non-negative `int`. */
module Text {

  /** Python's `str.isspace()` characters, the ones `str.strip()` with no argument removes. */
  predicate IsSpace(c: char) {
    || c == ' '
    || ('\t' <= c <= '\r')
    || ('\U{1C}' <= c <= '\U{1F}')
    || c == '\U{85}' || c == '\U{A0}' || c == '\U{1680}'
    || ('\U{2000}' <= c <= '\U{200A}')
    || c == '\U{2028}' || c == '\U{2029}' || c == '\U{202F}' || c == '\U{205F}' || c == '\U{3000}'
  }

  predicate AllSpace(s: string) {
    forall i :: 0 <= i < |s| ==> IsSpace(s[i])
  }

  /** The first index at or after `i` that does not hold whitespace, or `|s|`. */
  function SkipLeading(s: string, i: nat): (k: nat)
    requires i <= |s|
    ensures i <= k <= |s|
    ensures forall j :: i <= j < k ==> IsSpace(s[j])
    ensures k < |s| ==> !IsSpace(s[k])
    decreases |s| - i
  {
    if i < |s| && IsSpace(s[i]) then SkipLeading(s, i + 1) else i
  }

  /** The end, at most `hi`, of the part of `s[lo..hi]` before its trailing whitespace. */
  function SkipTrailing(s: string, lo: nat, hi: nat): (k: nat)
    requires lo <= hi <= |s|
    ensures lo <= k <= hi
    ensures forall j :: k <= j < hi ==> IsSpace(s[j])
    ensures lo < k ==> !IsSpace(s[k - 1])
    decreases hi
  {
    if lo < hi && IsSpace(s[hi - 1]) then SkipTrailing(s, lo, hi - 1) else hi
  }

  /** `r` is `s` with `lead` whitespace characters removed in front and the rest behind. */
  ghost predicate StripsTo(s: string, lead: nat, r: string) {
    && lead + |r| <= |s|
    && r == s[lead..lead + |r|]
    && AllSpace(s[..lead])
    && AllSpace(s[lead + |r|..])
  }

  /** Python's `s.strip()` (`StripSpec` says what it keeps). */
  function Strip(s: string): (r: string)
    ensures |r| <= |s|
  {
    var lo := SkipLeading(s, 0);
    s[lo..SkipTrailing(s, lo, |s|)]
  }

  /** `Strip(s)` is the slice of `s` between a whitespace prefix and a whitespace suffix. */
  lemma StripSlice(s: string)
    ensures exists lead :: StripsTo(s, lead, Strip(s))
  {
    var lo := SkipLeading(s, 0);
    var hi := SkipTrailing(s, lo, |s|);
    assert AllSpace(s[..lo]) by {
      forall j | 0 <= j < lo ensures IsSpace(s[..lo][j]) {
        assert s[..lo][j] == s[j];
      }
    }
    assert AllSpace(s[hi..]) by {
      forall j | 0 <= j < |s| - hi ensures IsSpace(s[hi..][j]) {
        assert s[hi..][j] == s[hi + j];
      }
    }
    assert StripsTo(s, lo, Strip(s));
  }

  /** `Strip(s)` is empty exactly when `s` is all whitespace. */
  lemma StripEmpty(s: string)
    ensures Strip(s) == [] <==> AllSpace(s)
  {
    var lo := SkipLeading(s, 0);
    var hi := SkipTrailing(s, lo, |s|);
    if lo == hi {
      forall j | 0 <= j < |s| ensures IsSpace(s[j]) {
      }
    } else {
      assert Strip(s)[0] == s[lo];
    }
  }

  lemma SliceEnds(s: string, lo: nat, hi: nat)
    requires lo < hi <= |s|
    ensures s[lo..hi][0] == s[lo] && s[lo..hi][hi - lo - 1] == s[hi - 1]
  {
  }

  /** A non-empty `Strip(s)` starts and ends with a character that is not whitespace. */
  lemma StripEnds(s: string)
    ensures Strip(s) != [] ==> !IsSpace(Strip(s)[0]) && !IsSpace(Strip(s)[|Strip(s)| - 1])
  {
    var lo := SkipLeading(s, 0);
    var hi := SkipTrailing(s, lo, |s|);
    if lo < hi {
      SliceEnds(s, lo, hi);
    }
  }

  /** What `Strip` keeps, in one place. */
  lemma StripSpec(s: string)
    ensures var r := Strip(s);
      && (exists lead :: StripsTo(s, lead, r))
      && (r == [] <==> AllSpace(s))
      && (r != [] ==> !IsSpace(r[0]) && !IsSpace(r[|r| - 1]))
  {
    StripSlice(s);
    StripEmpty(s);
    StripEnds(s);
  }

  /** A prefix one longer is the prefix and the next element. */
  lemma TakeSnoc<T>(s: seq<T>, i: nat)
    requires i < |s|
    ensures s[..i + 1] == s[..i] + [s[i]]
  {
  }

  /** Python's `s.replace(from, to)` for one-character `from` and `to`. */
  function Replace(s: string, from: char, to: char): (r: string)
    ensures |r| == |s|
    ensures forall i :: 0 <= i < |s| ==> r[i] == if s[i] == from then to else s[i]
  {
    if s == [] then [] else [if s[0] == from then to else s[0]] + Replace(s[1..], from, to)
  }

  /** Python's `s.split(sep)` for a one-character separator: never empty, and no part holds `sep`. */
  function Split(s: string, sep: char): (parts: seq<string>)
    ensures |parts| >= 1
    ensures forall i :: 0 <= i < |parts| ==> sep !in parts[i]
  {
    if s == [] then [""]
    else
      var rest := Split(s[1..], sep);
      if s[0] == sep then [""] + rest else [[s[0]] + rest[0]] + rest[1..]
  }

  /** Python's `sep.join(parts)`. */
  function Join(parts: seq<string>, sep: string): string {
    if |parts| == 0 then ""
    else if |parts| == 1 then parts[0]
    else parts[0] + sep + Join(parts[1..], sep)
  }

  lemma JoinPrepend(c: char, parts: seq<string>, sep: string)
    requires |parts| >= 1
    ensures Join([[c] + parts[0]] + parts[1..], sep) == [c] + Join(parts, sep)
  {
    var ps := [[c] + parts[0]] + parts[1..];
    if |parts| > 1 {
      assert ps[1..] == parts[1..];
    }
  }

  /** Splitting on `sep` and joining with `to` is replacing `sep` by `to`. */
  lemma {:induction false} JoinSplit(s: string, sep: char, to: char)
    ensures Join(Split(s, sep), [to]) == Replace(s, sep, to)
  {
    if s != [] {
      var rest := Split(s[1..], sep);
      JoinSplit(s[1..], sep, to);
      if s[0] == sep {
        assert ([""] + rest)[1..] == rest;
      } else {
        JoinPrepend(s[0], rest, [to]);
      }
    }
  }

  /** Splitting and re-joining with the same separator gives the string back. */
  lemma SplitJoinRoundTrip(s: string, sep: char)
    ensures Join(Split(s, sep), [sep]) == s
  {
    JoinSplit(s, sep, sep);
    assert Replace(s, sep, sep) == s;
  }

  /** The first part of a split is the text before the first separator, and the other parts are
      the split of what follows that separator. */
  lemma {:induction false} SplitHead(s: string, sep: char)
    ensures var parts := Split(s, sep);
      && |parts[0]| <= |s| && s[..|parts[0]|] == parts[0]
      && (|parts[0]| == |s| ==> parts == [s])
      && (|parts[0]| < |s| ==> s[|parts[0]|] == sep && parts[1..] == Split(s[|parts[0]| + 1..], sep))
  {
    if s != [] && s[0] != sep {
      var rest := Split(s[1..], sep);
      SplitHead(s[1..], sep);
      var h := rest[0];
      if |h| < |s| - 1 {
        assert s[|h| + 2..] == s[1..][|h| + 1..];
      } else {
        assert [s[0]] + s[1..] == s;
      }
    }
  }

  /** Splitting text that starts with a separator-free `a` and a separator gives `a` first. */
  lemma {:induction false} SplitAfter(a: string, sep: char, rest: string)
    requires sep !in a
    ensures Split(a + [sep] + rest, sep) == [a] + Split(rest, sep)
  {
    if a == [] {
      assert [] + [sep] + rest == [sep] + rest;
      assert ([sep] + rest)[1..] == rest;
    } else {
      var s := a + [sep] + rest;
      assert s[1..] == a[1..] + [sep] + rest;
      SplitAfter(a[1..], sep, rest);
      assert [a[0]] + a[1..] == a;
    }
  }

  /** `sub` occurs in `s` starting at position `i`. */
  ghost predicate OccursAt(s: string, sub: string, i: int) {
    0 <= i <= |s| - |sub| && s[i..i + |sub|] == sub
  }

  /** Python's `sub in s`. */
  predicate Contains(s: string, sub: string)
    decreases |s|
  {
    (|sub| <= |s| && s[..|sub|] == sub) || (|s| > 0 && Contains(s[1..], sub))
  }

  /** `Contains` holds exactly when `sub` occurs somewhere in `s`. */
  lemma {:induction false} ContainsAt(s: string, sub: string)
    ensures Contains(s, sub) <==> exists i :: OccursAt(s, sub, i)
  {
    if |sub| <= |s| && s[..|sub|] == sub {
      assert OccursAt(s, sub, 0);
    } else if |s| > 0 {
      ContainsAt(s[1..], sub);
      if exists i :: OccursAt(s, sub, i) {
        var i :| OccursAt(s, sub, i);
        assert i != 0;
        assert s[1..][i - 1..i - 1 + |sub|] == s[i..i + |sub|];
        assert OccursAt(s[1..], sub, i - 1);
      }
      if Contains(s[1..], sub) {
        var i :| OccursAt(s[1..], sub, i);
        assert s[1..][i..i + |sub|] == s[i + 1..i + 1 + |sub|];
        assert OccursAt(s, sub, i + 1);
      }
    }
  }

  /** Python's `c.lower()` on the ASCII letters; other characters are kept. */
  function LowerAscii(s: string): (r: string)
    ensures |r| == |s|
    ensures forall i :: 0 <= i < |s| ==> r[i] == if 'A' <= s[i] <= 'Z' then (s[i] - 'A' + 'a') as char else s[i]
  {
    if s == [] then []
    else [if 'A' <= s[0] <= 'Z' then (s[0] - 'A' + 'a') as char else s[0]] + LowerAscii(s[1..])
  }

  predicate IsDigit(c: char) {
    '0' <= c <= '9'
  }

  /** The number a string of decimal digits denotes. */
  function DigitsValue(s: string): nat
    requires forall i :: 0 <= i < |s| ==> IsDigit(s[i])
  {
    if s == [] then 0
    else
      assert IsDigit(s[|s| - 1]);
      10 * DigitsValue(s[..|s| - 1]) + (s[|s| - 1] - '0') as nat
  }

  /** Python's `str(n)` for `n >= 0`: decimal digits without leading zeros, denoting `n`. */
  function NatToString(n: nat): (s: string)
    ensures |s| >= 1 && forall i :: 0 <= i < |s| ==> IsDigit(s[i])
    ensures s[0] == '0' ==> n == 0 && s == "0"
    ensures DigitsValue(s) == n
  {
    var d := ['0' + (n % 10) as char];
    if n < 10 then d
    else
      var s := NatToString(n / 10) + d;
      assert s[..|s| - 1] == NatToString(n / 10);
      s
  }
}
