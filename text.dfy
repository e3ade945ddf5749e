/** The Python `str` operations the pipeline's parsing and formatting rely on.
    A `string` is a sequence of Unicode scalar values, as a Python `str` is a
    sequence of code points, so lengths and slices agree with Python's. */
module Text {
  import opened Wrappers

  // ---------------------------------------------------------------------------
  // str.split(c) and str.join for a one-character separator
  // ---------------------------------------------------------------------------

  /** `s.split(sep)` for a one-character separator: the pieces between the
      separators, in order; there is always at least one piece. */
  function Split(s: string, sep: char): (parts: seq<string>)
    ensures |parts| >= 1
    ensures |parts| >= 2 <==> sep in s
    ensures forall k :: 0 <= k < |parts| ==> sep !in parts[k]
    ensures forall k, ch :: 0 <= k < |parts| && ch in parts[k] ==> ch in s
    decreases |s|
  {
    if |s| == 0 then [""]
    else
      var rest := Split(s[1..], sep);
      assert s == [s[0]] + s[1..];
      if s[0] == sep then [""] + rest
      else [[s[0]] + rest[0]] + rest[1..]
  }

  /** `sep.join(parts)`. */
  function Join(parts: seq<string>, sep: string): (s: string)
    decreases |parts|
  {
    if |parts| == 0 then ""
    else if |parts| == 1 then parts[0]
    else parts[0] + sep + Join(parts[1..], sep)
  }

  /** A join is "" for no parts; otherwise it starts with the first part, ends
      with the last, and is one part longer than the separator than the join
      of the rest. */
  lemma {:induction false} JoinEnds(parts: seq<string>, sep: string)
    ensures |parts| == 0 ==> Join(parts, sep) == ""
    ensures |parts| > 0 ==> parts[0] <= Join(parts, sep)
    ensures |parts| > 0 ==>
              var s, last := Join(parts, sep), parts[|parts| - 1];
              |last| <= |s| && s[|s| - |last|..] == last
    decreases |parts|
  {
    if |parts| > 1 {
      JoinEnds(parts[1..], sep);
      var rest := Join(parts[1..], sep);
      assert Join(parts, sep) == parts[0] + sep + rest;
      assert parts[1..][|parts[1..]| - 1] == parts[|parts| - 1];
    }
  }

  /** Joining the pieces of a split with the separator gives back the text. */
  lemma {:induction false} SplitJoin(s: string, sep: char)
    ensures Join(Split(s, sep), [sep]) == s
    decreases |s|
  {
    if |s| > 0 {
      var rest := Split(s[1..], sep);
      SplitJoin(s[1..], sep);
      assert s == [s[0]] + s[1..];
      if s[0] != sep && |rest| > 1 {
        assert Join(rest, [sep]) == rest[0] + [sep] + Join(rest[1..], [sep]);
      }
    }
  }

  /** A text without the separator is a single piece. */
  lemma {:induction false} SplitWithoutSeparator(s: string, sep: char)
    requires sep !in s
    ensures Split(s, sep) == [s]
    decreases |s|
  {
    if |s| > 0 {
      SplitWithoutSeparator(s[1..], sep);
      assert [s[0]] + s[1..] == s;
    }
  }

  /** Splitting `head + sep + tail`, where `head` has no separator, gives `head`
      followed by the pieces of `tail`. */
  lemma {:induction false} SplitAtFirstSeparator(head: string, sep: char, tail: string)
    requires sep !in head
    ensures Split(head + [sep] + tail, sep) == [head] + Split(tail, sep)
    decreases |head|
  {
    if |head| == 0 {
      assert head + [sep] + tail == [sep] + tail;
      assert ([sep] + tail)[1..] == tail;
    } else {
      SplitAtFirstSeparator(head[1..], sep, tail);
      assert (head + [sep] + tail)[1..] == head[1..] + [sep] + tail;
      assert [head[0]] + head[1..] == head;
    }
  }

  /** Concatenation regrouped to the right. */
  lemma RegroupRight(a: string, b: string, c: string, d: string)
    ensures a + b + c + d == a + (b + (c + d))
  {
  }

  /** A text with exactly one separator splits into the two pieces around it. */
  lemma TwoFields(head: string, sep: char, tail: string)
    requires sep !in head && sep !in tail
    ensures Split(head + [sep] + tail, sep) == [head, tail]
  {
    SplitAtFirstSeparator(head, sep, tail);
    SplitWithoutSeparator(tail, sep);
  }

  // ---------------------------------------------------------------------------
  // Substring search: `pat in s`, s.split(pat)[0] and s.split(pat)[1]
  // ---------------------------------------------------------------------------

  /** `pat` occurs in `s` starting at index `i`. */
  predicate OccursAt(s: string, pat: string, i: nat)
  {
    i + |pat| <= |s| && s[i..i + |pat|] == pat
  }

  /** The first occurrence of `pat` in `s` at or after `from`, if any. */
  function IndexOfFrom(s: string, pat: string, from: nat): (r: Option<nat>)
    ensures r.Some? ==> from <= r.value && OccursAt(s, pat, r.value)
    ensures r.Some? ==> forall j: nat :: from <= j < r.value ==> !OccursAt(s, pat, j)
    ensures r.None? ==> forall j: nat :: from <= j ==> !OccursAt(s, pat, j)
    decreases |s| - from
  {
    if from + |pat| > |s| then None
    else if OccursAt(s, pat, from) then Some(from)
    else IndexOfFrom(s, pat, from + 1)
  }

  function IndexOf(s: string, pat: string): Option<nat>
  {
    IndexOfFrom(s, pat, 0)
  }

  /** Python's `pat in s`. */
  predicate Contains(s: string, pat: string)
  {
    IndexOf(s, pat).Some?
  }

  /** An occurrence with no earlier one is the one `IndexOf` finds. */
  lemma FirstOccurrence(s: string, pat: string, i: nat)
    requires OccursAt(s, pat, i)
    requires forall j: nat :: j < i ==> !OccursAt(s, pat, j)
    ensures IndexOf(s, pat) == Some(i)
  {
  }

  /** `pat in s` holds exactly when `pat` occurs somewhere in `s`. */
  lemma ContainsIffOccurs(s: string, pat: string)
    ensures Contains(s, pat) <==> exists i: nat :: OccursAt(s, pat, i)
  {
    if Contains(s, pat) {
      assert OccursAt(s, pat, IndexOf(s, pat).value);
    }
  }

  /** A text contains whatever occurs in it. */
  lemma OccurrenceContained(s: string, pat: string, i: nat)
    requires OccursAt(s, pat, i)
    ensures Contains(s, pat)
  {
  }

  /** A text contains its own prefix ... */
  lemma ContainsPrefix(s: string, rest: string)
    ensures Contains(s + rest, s)
  {
    assert (s + rest)[0..|s|] == s;
    OccurrenceContained(s + rest, s, 0);
  }

  /** ... and its own suffix. */
  lemma ContainsSuffix(front: string, s: string)
    ensures Contains(front + s, s)
  {
    assert (front + s)[|front|..|front| + |s|] == s;
    OccurrenceContained(front + s, s, |front|);
  }

  /** An occurrence in a slice is an occurrence in the whole text. */
  lemma OccursInSlice(s: string, pat: string, a: nat, b: nat, j: nat)
    requires a <= b <= |s|
    requires OccursAt(s[a..b], pat, j)
    ensures OccursAt(s, pat, a + j)
  {
    forall k | 0 <= k < |pat|
      ensures s[a + j..a + j + |pat|][k] == pat[k]
    {
      assert s[a..b][j..j + |pat|][k] == s[a + j + k];
    }
  }

  /** A slice of a text that lacks `pat` lacks it too. */
  lemma NotContainsSlice(s: string, pat: string, a: nat, b: nat)
    requires a <= b <= |s|
    requires !Contains(s, pat)
    ensures !Contains(s[a..b], pat)
  {
    var r := IndexOf(s[a..b], pat);
    if r.Some? {
      OccursInSlice(s, pat, a, b, r.value);
    }
  }

  /** Every character of `pat` occurs in a text that contains `pat`. */
  lemma CharOfOccurrence(s: string, pat: string, ch: char)
    requires Contains(s, pat) && ch in pat
    ensures ch in s
  {
    var i := IndexOf(s, pat).value;
    var k :| 0 <= k < |pat| && pat[k] == ch;
    assert s[i..i + |pat|][k] == s[i + k];
  }

  /** `s.split(pat)[0]`: the text before the first occurrence of `pat`, or all
      of `s` when there is none. */
  function Before(s: string, pat: string): (r: string)
    requires |pat| > 0
    ensures |r| <= |s| && r == s[..|r|]
    ensures !Contains(r, pat)
    ensures !Contains(s, pat) ==> r == s
  {
    match IndexOf(s, pat)
    case None => s
    case Some(i) =>
      NoOccurrenceBefore(s, pat, i);
      s[..i]
  }

  lemma NoOccurrenceBefore(s: string, pat: string, i: nat)
    requires |pat| > 0 && IndexOf(s, pat) == Some(i)
    ensures !Contains(s[..i], pat)
  {
    var r := IndexOf(s[..i], pat);
    if r.Some? {
      OccursInSlice(s, pat, 0, i, r.value);
    }
  }

  /** Cut before its first `pat`, a slice of `s` that starts at `a` ends where
      the first occurrence of `pat` at or after `a` starts. */
  lemma BeforeInSlice(s: string, pat: string, a: nat, b: nat, j: nat)
    requires |pat| > 0 && a <= j && j + |pat| <= b <= |s|
    requires OccursAt(s, pat, j)
    requires forall k: nat :: a <= k < j ==> !OccursAt(s, pat, k)
    ensures Before(s[a..b], pat) == s[a..j]
  {
    var slice := s[a..b];
    var pos := j - a;
    assert OccursAt(slice, pat, pos) by {
      assert slice[pos..pos + |pat|] == s[j..j + |pat|];
    }
    forall k: nat | k < pos
      ensures !OccursAt(slice, pat, k)
    {
      if OccursAt(slice, pat, k) {
        OccursInSlice(s, pat, a, b, k);
        assert false;
      }
    }
    FirstOccurrence(slice, pat, pos);
  }

  /** The text after the first occurrence of `pat`; `s.split(pat)[1]` is
      `Before(After(s, pat), pat)`, and exists only when `pat` occurs. */
  function After(s: string, pat: string): (r: string)
    requires Contains(s, pat)
    ensures |r| <= |s| && r == s[|s| - |r|..]
  {
    var i := IndexOf(s, pat).value;
    s[i + |pat|..]
  }

  /** The text before the first `pat`, then `pat`, then the text after it,
      give `s` back: `After` starts right where the first occurrence ends. */
  lemma AfterRoundTrip(s: string, pat: string)
    requires |pat| > 0 && Contains(s, pat)
    ensures Before(s, pat) + pat + After(s, pat) == s
  {
    var i := IndexOf(s, pat).value;
    assert Before(s, pat) == s[..i];
    assert s[i..i + |pat|] == pat;
    assert s[..i] + s[i..i + |pat|] + s[i + |pat|..] == s;
  }

  // ---------------------------------------------------------------------------
  // str.strip() and str.upper()
  // ---------------------------------------------------------------------------

  /** Python's `str.isspace` for one character: ASCII whitespace (tab, line
      feed, vertical tab, form feed, carriage return, the four information
      separators and space) and the Unicode space characters. */
  /** Space, tab, line feed and carriage return are stripped; no digit, ASCII
      letter, `:`, `/` or `.` is, so `strip()` never eats into a marker, a
      score or a recommendation word. */
  lemma WhitespaceSet()
    ensures IsWhitespace(' ') && IsWhitespace('\t') && IsWhitespace('\n') && IsWhitespace('\r')
    ensures forall ch: char :: IsWhitespace(ch) ==>
              !('0' <= ch <= '9') && !('a' <= ch <= 'z') && !('A' <= ch <= 'Z')
              && ch != ':' && ch != '/' && ch != '.'
  {
  }

  predicate IsWhitespace(ch: char)
  {
    var n := ch as int;
    (9 <= n <= 13) || (28 <= n <= 32) || n == 0x85 || n == 0xA0 || n == 0x1680
    || (0x2000 <= n <= 0x200A) || n == 0x2028 || n == 0x2029 || n == 0x202F
    || n == 0x205F || n == 0x3000
  }

  /** Where `s.lstrip()` starts looking from `i`: the first index at or after
      `i` that holds no whitespace, or `|s|`. */
  function SkipSpace(s: string, i: nat): (j: nat)
    requires i <= |s|
    ensures i <= j <= |s|
    ensures forall k :: i <= k < j ==> IsWhitespace(s[k])
    ensures j == |s| || !IsWhitespace(s[j])
    decreases |s| - i
  {
    if i < |s| && IsWhitespace(s[i]) then SkipSpace(s, i + 1) else i
  }

  /** Where `s[lo..hi].rstrip()` ends: the end of `s[lo..hi]` once its trailing
      whitespace is dropped. */
  function TrimEnd(s: string, lo: nat, hi: nat): (j: nat)
    requires lo <= hi <= |s|
    ensures lo <= j <= hi
    ensures forall k :: j <= k < hi ==> IsWhitespace(s[k])
    ensures j == lo || !IsWhitespace(s[j - 1])
    decreases hi - lo
  {
    if lo < hi && IsWhitespace(s[hi - 1]) then TrimEnd(s, lo, hi - 1) else hi
  }

  /** `s` neither starts nor ends with whitespace. */
  predicate IsStripped(s: string)
  {
    s == [] || (!IsWhitespace(s[0]) && !IsWhitespace(s[|s| - 1]))
  }

  /** `s.strip()`: the slice of `s` left after removing whitespace from both
      ends; it neither starts nor ends with whitespace. */
  function Strip(s: string): (r: string)
    ensures IsStripped(r)
    ensures var a := SkipSpace(s, 0);
            && a + |r| <= |s| && r == s[a..a + |r|]
            && (forall k :: 0 <= k < a ==> IsWhitespace(s[k]))
            && (forall k :: a + |r| <= k < |s| ==> IsWhitespace(s[k]))
  {
    var a := SkipSpace(s, 0);
    s[a..TrimEnd(s, a, |s|)]
  }

  /** A stripped text after one space, as in "KEY: value", strips to the
      text itself. */
  lemma StripPadded(s: string)
    requires IsStripped(s)
    ensures Strip(" " + s) == s
  {
    var t := " " + s;
    assert IsWhitespace(t[0]);
    assert SkipSpace(t, 0) == SkipSpace(t, 1);
    if s == [] {
      assert Strip(t) == t[1..1];
    } else {
      assert t[1] == s[0] && t[|t| - 1] == s[|s| - 1];
      assert SkipSpace(t, 1) == 1;
      assert TrimEnd(t, 1, |t|) == |t|;
      assert t[1..] == s;
    }
  }

  /** A slice of `s` with no `pat` in `s` has none either; for strip. */
  lemma NotContainsStrip(s: string, pat: string)
    requires !Contains(s, pat)
    ensures !Contains(Strip(s), pat)
  {
    var a, r := SkipSpace(s, 0), Strip(s);
    NotContainsSlice(s, pat, a, a + |r|);
    assert r == s[a..a + |r|];
  }

  /** `ch.upper()` for ASCII letters; other characters are kept. */
  function UpperChar(ch: char): char
  {
    if 'a' <= ch <= 'z' then (ch as int - 32) as char else ch
  }

  /** `s.upper()`, character by character. */
  function Upper(s: string): (r: string)
    ensures |r| == |s|
    ensures forall k :: 0 <= k < |s| ==> r[k] == UpperChar(s[k])
    decreases |s|
  {
    if |s| == 0 then "" else [UpperChar(s[0])] + Upper(s[1..])
  }

  /** Upper-casing leaves no ASCII lower-case letter, keeps whitespace where it
      was and adds no `:`. */
  lemma UpperProperties(s: string)
    ensures forall k :: 0 <= k < |s| ==> !('a' <= Upper(s)[k] <= 'z')
    ensures forall k :: 0 <= k < |s| ==> (IsWhitespace(Upper(s)[k]) <==> IsWhitespace(s[k]))
    ensures ':' in Upper(s) ==> ':' in s
  {
    if ':' in Upper(s) {
      var k :| 0 <= k < |s| && Upper(s)[k] == ':';
      assert UpperChar(s[k]) == ':';
    }
  }

  // ---------------------------------------------------------------------------
  // Slicing s[:n] and str(n)
  // ---------------------------------------------------------------------------

  /** `s[:n]`: the first `n` characters, or all of `s` when it is shorter. */
  function Take(s: string, n: nat): (r: string)
    ensures |r| <= n && |r| <= |s|
    ensures r == s[..|r|]
    ensures |s| <= n ==> r == s
    ensures |s| > n ==> |r| == n
  {
    if |s| <= n then s else s[..n]
  }

  function DigitChar(d: nat): (ch: char)
    requires d < 10
    ensures '0' <= ch <= '9' && ch as int - '0' as int == d
  {
    (d + '0' as int) as char
  }

  /** `str(n)` for a natural number: decimal digits with no leading zero. */
  function NatToString(n: nat): (r: string)
    ensures |r| >= 1
    ensures forall k :: 0 <= k < |r| ==> '0' <= r[k] <= '9'
    ensures r[0] == '0' ==> n == 0
    decreases n
  {
    if n < 10 then [DigitChar(n)] else NatToString(n / 10) + [DigitChar(n % 10)]
  }

  /** The number a string of decimal digits denotes (Python's `int(s)`). */
  function DecimalValue(s: string): nat
    requires forall k :: 0 <= k < |s| ==> '0' <= s[k] <= '9'
    decreases |s|
  {
    if |s| == 0 then 0
    else DecimalValue(s[..|s| - 1]) * 10 + (s[|s| - 1] as int - '0' as int)
  }

  /** Reading back the decimal digits `str(n)` writes gives `n`. */
  lemma {:induction false} NatToStringRoundTrip(n: nat)
    ensures DecimalValue(NatToString(n)) == n
    decreases n
  {
    if n >= 10 {
      NatToStringRoundTrip(n / 10);
      var r := NatToString(n);
      assert r[..|r| - 1] == NatToString(n / 10);
    }
  }

  /** Different numbers are written differently. */
  lemma NatToStringInjective(m: nat, n: nat)
    requires NatToString(m) == NatToString(n)
    ensures m == n
  {
    NatToStringRoundTrip(m);
    NatToStringRoundTrip(n);
  }
}
