/**
 * The string operations of Python and .NET the handlers rely on: whitespace
 * classes, `strip`, `split`, substring tests and case-insensitive comparison.
 */
module Text {

  import opened Wrappers

  /** The characters Python's `str.isspace` accepts, which `str.strip()` removes. */
  predicate IsPySpace(c: char) {
    || c == ' ' || '\t' <= c <= '\r' || '\U{1c}' <= c <= '\U{1f}'
    || c == '\U{85}' || c == '\U{a0}' || c == '\U{1680}' || '\U{2000}' <= c <= '\U{200a}'
    || c == '\U{2028}' || c == '\U{2029}' || c == '\U{202f}' || c == '\U{205f}' || c == '\U{3000}'
  }

  /** The characters .NET's `Char.IsWhiteSpace` accepts (unlike Python, not U+001C..U+001F). */
  predicate IsDotNetSpace(c: char) {
    || c == ' ' || '\t' <= c <= '\r'
    || c == '\U{85}' || c == '\U{a0}' || c == '\U{1680}' || '\U{2000}' <= c <= '\U{200a}'
    || c == '\U{2028}' || c == '\U{2029}' || c == '\U{202f}' || c == '\U{205f}' || c == '\U{3000}'
  }

  /** Python `s.lstrip()`. */
  function StripLeft(s: string): (r: string)
    decreases |s|
  {
    if |s| > 0 && IsPySpace(s[0]) then StripLeft(s[1..]) else s
  }

  /** Python `s.rstrip()`. */
  function StripRight(s: string): (r: string)
    decreases |s|
  {
    if |s| > 0 && IsPySpace(s[|s| - 1]) then StripRight(s[..|s| - 1]) else s
  }

  /** Python `s.strip()`. */
  function Strip(s: string): string {
    StripRight(StripLeft(s))
  }

  /** `lstrip` drops the leading whitespace and nothing else. */
  lemma {:induction false} StripLeftDropsLeadingSpace(s: string)
    ensures var r := StripLeft(s);
      && |r| <= |s| && r == s[|s| - |r|..]
      && (forall i :: 0 <= i < |s| - |r| ==> IsPySpace(s[i]))
      && (r == [] || !IsPySpace(r[0]))
    decreases |s|
  {
    if |s| > 0 && IsPySpace(s[0]) {
      StripLeftDropsLeadingSpace(s[1..]);
    }
  }

  /** `rstrip` drops the trailing whitespace and nothing else. */
  lemma {:induction false} StripRightDropsTrailingSpace(s: string)
    ensures var r := StripRight(s);
      && |r| <= |s| && r == s[..|r|]
      && (forall i :: |r| <= i < |s| ==> IsPySpace(s[i]))
      && (r == [] || !IsPySpace(r[|r| - 1]))
    decreases |s|
  {
    if |s| > 0 && IsPySpace(s[|s| - 1]) {
      StripRightDropsTrailingSpace(s[..|s| - 1]);
    }
  }

  /**
   * `Strip(s)` is the part of `s` between its leading and its trailing
   * whitespace: a contiguous slice, bounded by non-space characters, with
   * only whitespace cut away on either side.
   */
  lemma StripIsTrimmedSlice(s: string)
    ensures exists i, j ::
      && 0 <= i <= j <= |s| && Strip(s) == s[i..j]
      && (forall k :: 0 <= k < i ==> IsPySpace(s[k]))
      && (forall k :: j <= k < |s| ==> IsPySpace(s[k]))
    ensures Strip(s) == [] || (!IsPySpace(Strip(s)[0]) && !IsPySpace(Strip(s)[|Strip(s)| - 1]))
  {
    var l := StripLeft(s);
    StripLeftDropsLeadingSpace(s);
    var i := |s| - |l|;
    var r := StripRight(l);
    StripRightDropsTrailingSpace(l);
    var j := i + |r|;
    assert r == s[i..j];
    if r != [] {
      assert r[0] == l[0];
    }
  }

  /** Stripping a string twice changes nothing more. */
  lemma StripIdempotent(s: string)
    ensures Strip(Strip(s)) == Strip(s)
  {
    var t := Strip(s);
    StripIsTrimmedSlice(s);
    assert StripLeft(t) == t;
    assert StripRight(t) == t;
  }

  /** The index of the first occurrence of `c` in `s`. */
  function IndexOf(s: string, c: char): (i: nat)
    requires c in s
    ensures i < |s| && s[i] == c && c !in s[..i]
  {
    if s[0] == c then 0 else
      assert s == [s[0]] + s[1..];
      1 + IndexOf(s[1..], c)
  }

  /** `IndexOf` is characterised by its contract: the first position holding `c`. */
  lemma {:induction false} IndexOfFirst(s: string, c: char, i: nat)
    requires i < |s| && s[i] == c && c !in s[..i]
    ensures IndexOf(s, c) == i
  {
    if s[0] != c {
      assert s[1..][i - 1] == c;
      assert s[1..][..i - 1] == s[1..i];
      IndexOfFirst(s[1..], c, i - 1);
    }
  }

  /** Glues pieces back together with `sep` between them: Python `sep.join(pieces)`. */
  function Join(pieces: seq<string>, sep: char): string
    requires |pieces| >= 1
  {
    if |pieces| == 1 then pieces[0] else pieces[0] + [sep] + Join(pieces[1..], sep)
  }

  /**
   * Python `s.split(sep)` for a one-character separator: the pieces between
   * separators, so that joining them with `sep` gives `s` back; the empty
   * string gives one empty piece.
   */
  function Split(s: string, sep: char): (pieces: seq<string>)
    ensures |pieces| >= 1
    ensures forall k :: 0 <= k < |pieces| ==> sep !in pieces[k]
    decreases |s|
  {
    if sep !in s then [s]
    else
      var i := IndexOf(s, sep);
      [s[..i]] + Split(s[i + 1..], sep)
  }

  /** Joining the pieces of a split with the separator gives the string back. */
  lemma {:induction false} JoinSplit(s: string, sep: char)
    ensures Join(Split(s, sep), sep) == s
    decreases |s|
  {
    if sep in s {
      var i := IndexOf(s, sep);
      JoinSplit(s[i + 1..], sep);
      assert s == s[..i] + [sep] + s[i + 1..];
    }
  }

  /** Pieces free of the separator are what splitting their join gives back. */
  lemma {:induction false} SplitJoin(pieces: seq<string>, sep: char)
    requires |pieces| >= 1
    requires forall k :: 0 <= k < |pieces| ==> sep !in pieces[k]
    ensures Split(Join(pieces, sep), sep) == pieces
    decreases |pieces|
  {
    var s := Join(pieces, sep);
    if |pieces| == 1 {
      assert Split(s, sep) == [s];
    } else {
      var tail := Join(pieces[1..], sep);
      var head := pieces[0];
      assert s == head + [sep] + tail;
      assert s[|head|] == sep;
      assert s[..|head|] == head;
      assert IndexOf(s, sep) == |head|;
      assert s[|head| + 1..] == tail;
      SplitJoin(pieces[1..], sep);
    }
  }

  /** Python `s.split(sep, 1)` for a string that contains `sep`: the part before the first `sep` and the rest. */
  function SplitFirst(s: string, sep: char): (parts: (string, string))
    requires sep in s
    ensures parts.0 + [sep] + parts.1 == s
    ensures sep !in parts.0
  {
    var i := IndexOf(s, sep);
    assert s == s[..i] + [sep] + s[i + 1..];
    (s[..i], s[i + 1..])
  }

  /** `needle[k..]` matches `hay` at position `i + k`, compared character by character. */
  predicate MatchesFrom(needle: string, hay: string, i: nat, k: nat)
    requires i + |needle| <= |hay| && k <= |needle|
    decreases |needle| - k
  {
    k == |needle| || (hay[i + k] == needle[k] && MatchesFrom(needle, hay, i, k + 1))
  }

  /** `needle` occurs in `hay` at some position from `i` on, trying the positions left to right. */
  predicate ContainsFrom(needle: string, hay: string, i: nat)
    decreases |hay| - i
  {
    i + |needle| <= |hay| && (MatchesFrom(needle, hay, i, 0) || ContainsFrom(needle, hay, i + 1))
  }

  /** Python `needle in hay` for strings. */
  predicate Contains(needle: string, hay: string) {
    ContainsFrom(needle, hay, 0)
  }

  /** `needle` occurs in `hay` starting at position `i`: the reference definition of a substring. */
  predicate OccursAt(needle: string, hay: string, i: int) {
    0 <= i <= |hay| - |needle| && hay[i..i + |needle|] == needle
  }

  lemma {:induction false} MatchesFromSlice(needle: string, hay: string, i: nat, k: nat)
    requires i + |needle| <= |hay| && k <= |needle|
    ensures MatchesFrom(needle, hay, i, k) <==> hay[i + k..i + |needle|] == needle[k..]
    decreases |needle| - k
  {
    if k < |needle| {
      MatchesFromSlice(needle, hay, i, k + 1);
      assert hay[i + k..i + |needle|] == [hay[i + k]] + hay[i + k + 1..i + |needle|];
      assert needle[k..] == [needle[k]] + needle[k + 1..];
    }
  }

  lemma {:induction false} ContainsFromAt(needle: string, hay: string, i: nat)
    ensures ContainsFrom(needle, hay, i) <==> exists j :: i <= j && OccursAt(needle, hay, j)
    decreases |hay| - i
  {
    if i + |needle| <= |hay| {
      MatchesFromSlice(needle, hay, i, 0);
      assert needle[0..] == needle;
      ContainsFromAt(needle, hay, i + 1);
      if MatchesFrom(needle, hay, i, 0) {
        assert OccursAt(needle, hay, i);
      }
      if exists j :: i <= j && OccursAt(needle, hay, j) {
        var j :| i <= j && OccursAt(needle, hay, j);
        if j > i {
          assert i + 1 <= j;
        }
      }
    }
  }

  /** `Contains` agrees with the definition of a substring by position. */
  lemma ContainsAt(needle: string, hay: string)
    ensures Contains(needle, hay) <==> exists i :: OccursAt(needle, hay, i)
  {
    ContainsFromAt(needle, hay, 0);
  }

  /** A string that starts with `needle` contains it. */
  lemma PrefixContained(needle: string, rest: string)
    ensures Contains(needle, needle + rest)
  {
    ContainsAt(needle, needle + rest);
    assert OccursAt(needle, needle + rest, 0);
  }

  /** A string lacking one of the characters of `needle` does not contain it. */
  lemma MissingCharNotContained(needle: string, hay: string, c: char)
    requires c in needle && c !in hay
    ensures !Contains(needle, hay)
  {
    ContainsAt(needle, hay);
  }

  /** A string holding just one copy of `c` does not contain a `needle` with two. */
  lemma SingleCopyNotContained(needle: string, before: string, c: char, after: string, j: nat, k: nat)
    requires j < k < |needle| && needle[j] == c && needle[k] == c
    requires c !in before && c !in after
    ensures !Contains(needle, before + [c] + after)
  {
    var hay := before + [c] + after;
    forall t | 0 <= t < |hay| && t != |before|
      ensures hay[t] != c
    {
      if t < |before| {
        assert hay[t] == before[t];
      } else {
        assert hay[t] == after[t - |before| - 1];
      }
    }
    ContainsAt(needle, hay);
    forall i | 0 <= i <= |hay| - |needle|
      ensures !OccursAt(needle, hay, i)
    {
      assert i + j != |before| || i + k != |before|;
    }
  }

  /**
   * The lower-case letter Python's `str.lower()` gives for the upper-case
   * letters whose lower-case form is ASCII: A-Z and the Kelvin sign; every other
   * character is left as it is.
   */
  function LowerChar(c: char): char {
    if 'A' <= c <= 'Z' then (c as int + 32) as char
    else if c == '\U{212a}' then 'k'
    else c
  }

  /**
   * Python's `s.lower()` as far as comparing the result with an ASCII string
   * can tell: the characters it changes beyond `LowerChar` have no ASCII
   * lower-case form, so neither side of such a comparison can match.
   */
  function PyLower(s: string): (r: string)
    ensures |r| == |s|
    ensures forall i :: 0 <= i < |s| ==> r[i] == LowerChar(s[i])
  {
    seq(|s|, i requires 0 <= i < |s| => LowerChar(s[i]))
  }

  /** ASCII upper-case folding, which is what `OrdinalIgnoreCase` applies to ASCII letters. */
  function UpperChar(c: char): char {
    if 'a' <= c <= 'z' then (c as int - 32) as char else c
  }

  /**
   * .NET `a.Equals(b, StringComparison.OrdinalIgnoreCase)`, exact when `b`
   * is ASCII text whose letters have no non-ASCII case variant (such as "error").
   */
  predicate EqualsIgnoreCase(a: string, b: string) {
    |a| == |b| && forall i :: 0 <= i < |a| ==> UpperChar(a[i]) == UpperChar(b[i])
  }

  /** .NET `string.IsNullOrWhiteSpace(s)`, with `None` standing for `null`. */
  predicate IsNullOrWhiteSpace(s: Option<string>) {
    match s
    case None => true
    case Some(t) => forall i :: 0 <= i < |t| ==> IsDotNetSpace(t[i])
  }
}
