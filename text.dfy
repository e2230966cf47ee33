/** The parts of Rust's `str`/`char` API that the core relies on, written
    out over `seq<char>`: splitting on a pattern, joining, replacing,
    trimming, ASCII case mapping, the `is_whitespace`/`is_ascii_punctuation`
    character classes, UTF-8 byte length and the byte-wise string order. */
module Text {

  /** `char::is_whitespace`: the Unicode White_Space property. */
  predicate IsWhitespace(c: char) {
    ('\U{0009}' <= c <= '\U{000D}') || c == ' ' || c == '\U{0085}' || c == '\U{00A0}'
    || c == '\U{1680}' || ('\U{2000}' <= c <= '\U{200A}') || c == '\U{2028}' || c == '\U{2029}'
    || c == '\U{202F}' || c == '\U{205F}' || c == '\U{3000}'
  }

  /** `char::is_ascii_punctuation`: the 32 ASCII punctuation characters. */
  predicate IsAsciiPunctuation(c: char) {
    ('!' <= c <= '/') || (':' <= c <= '@') || ('[' <= c <= '`') || ('{' <= c <= '~')
  }

  function AsciiUpper(c: char): char {
    if 'a' <= c <= 'z' then (c as int - 32) as char else c
  }

  function AsciiLower(c: char): char {
    if 'A' <= c <= 'Z' then (c as int + 32) as char else c
  }

  /** `str::to_ascii_uppercase`. */
  function ToAsciiUppercase(s: string): (r: string)
    ensures |r| == |s|
    ensures forall i :: 0 <= i < |s| ==> r[i] == AsciiUpper(s[i])
  {
    seq(|s|, i requires 0 <= i < |s| => AsciiUpper(s[i]))
  }

  /** `str::to_ascii_lowercase`. */
  function ToAsciiLowercase(s: string): (r: string)
    ensures |r| == |s|
    ensures forall i :: 0 <= i < |s| ==> r[i] == AsciiLower(s[i])
  {
    seq(|s|, i requires 0 <= i < |s| => AsciiLower(s[i]))
  }

  predicate IsAsciiUpperLetter(c: char) {
    'A' <= c <= 'Z'
  }

  lemma {:induction false} UpperOfLowerIsIdentity(s: string)
    requires forall i :: 0 <= i < |s| ==> IsAsciiUpperLetter(s[i])
    ensures ToAsciiUppercase(ToAsciiLowercase(s)) == s
  {
    var l := ToAsciiLowercase(s);
    var u := ToAsciiUppercase(l);
    assert |u| == |s|;
    forall i | 0 <= i < |s|
      ensures u[i] == s[i]
    {
      assert l[i] == AsciiLower(s[i]);
    }
  }

  predicate StartsWith(s: string, prefix: string) {
    |prefix| <= |s| && s[..|prefix|] == prefix
  }

  /** `pat` occurs in `s` starting at index `i`. */
  predicate OccursAt(pat: string, s: string, i: nat) {
    i + |pat| <= |s| && s[i..i + |pat|] == pat
  }

  /** `pat` occurs somewhere in `s`. */
  ghost predicate Occurs(pat: string, s: string) {
    exists i: nat | i <= |s| :: OccursAt(pat, s, i)
  }

  /** `parts` joined with `sep` between consecutive parts (`[T]::join`). */
  function Join(parts: seq<string>, sep: string): string
  {
    if |parts| == 0 then []
    else if |parts| == 1 then parts[0]
    else parts[0] + sep + Join(parts[1..], sep)
  }

  /** `str::split` with a non-empty pattern: the pieces between the
      leftmost non-overlapping occurrences of `pat`, scanning left to right. */
  function Split(s: string, pat: string): (parts: seq<string>)
    requires pat != []
    ensures |parts| >= 1
    decreases |s|
  {
    if |s| < |pat| then [s]
    else if s[..|pat|] == pat then [[]] + Split(s[|pat|..], pat)
    else
      var rest := Split(s[1..], pat);
      [[s[0]] + rest[0]] + rest[1..]
  }

  /** Splitting and re-joining with the same pattern gives back the input. */
  lemma {:induction false} JoinSplit(s: string, pat: string)
    requires pat != []
    ensures Join(Split(s, pat), pat) == s
    decreases |s|
  {
    if |s| < |pat| {
    } else if s[..|pat|] == pat {
      var tail := Split(s[|pat|..], pat);
      JoinSplit(s[|pat|..], pat);
      assert Split(s, pat) == [[]] + tail;
      assert Join([[]] + tail, pat) == [] + pat + Join(tail, pat);
      assert s == s[..|pat|] + s[|pat|..];
    } else {
      var rest := Split(s[1..], pat);
      JoinSplit(s[1..], pat);
      assert Split(s, pat) == [[s[0]] + rest[0]] + rest[1..];
      JoinConsFirst(s[0], rest, pat);
      assert s == [s[0]] + s[1..];
    }
  }

  /** No piece produced by `Split` contains the pattern. */
  lemma {:induction false} SplitPiecesAvoidPattern(s: string, pat: string)
    requires pat != []
    ensures forall k :: 0 <= k < |Split(s, pat)| ==> !Occurs(pat, Split(s, pat)[k])
    decreases |s|
  {
    var parts := Split(s, pat);
    if |s| < |pat| {
      assert parts == [s];
      forall i: nat
        ensures !OccursAt(pat, s, i)
      {}
    } else if s[..|pat|] == pat {
      SplitPiecesAvoidPattern(s[|pat|..], pat);
      var tail := Split(s[|pat|..], pat);
      assert parts == [[]] + tail;
      forall k | 0 <= k < |parts|
        ensures !Occurs(pat, parts[k])
      {
        if k > 0 {
          assert parts[k] == tail[k - 1];
        } else {
          forall i: nat
            ensures !OccursAt(pat, parts[k], i)
          {}
        }
      }
    } else {
      SplitPiecesAvoidPattern(s[1..], pat);
      var rest := Split(s[1..], pat);
      HeadPieceAvoidsPattern(s, pat);
      assert parts == [[s[0]] + rest[0]] + rest[1..];
      forall k | 1 <= k < |parts|
        ensures !Occurs(pat, parts[k])
      {
        assert parts[k] == rest[k];
      }
    }
  }

  /** The first piece when `s` does not start with `pat`: `s[0]` followed by
      the first piece of the rest. */
  lemma HeadPieceAvoidsPattern(s: string, pat: string)
    requires pat != [] && |s| >= |pat| && s[..|pat|] != pat
    requires !Occurs(pat, Split(s[1..], pat)[0])
    ensures !Occurs(pat, [s[0]] + Split(s[1..], pat)[0])
  {
    var r0 := Split(s[1..], pat)[0];
    FirstPieceIsPrefix(s[1..], pat);
    PrependAvoids(s, r0, pat);
  }

  lemma FirstPieceIsPrefix(s: string, pat: string)
    requires pat != []
    ensures StartsWith(s, Split(s, pat)[0])
  {
    JoinSplit(s, pat);
    PrefixOfJoin(Split(s, pat), pat);
  }

  lemma PrependAvoids(s: string, r0: string, pat: string)
    requires pat != [] && |s| >= |pat| && s[..|pat|] != pat
    requires StartsWith(s[1..], r0)
    requires !Occurs(pat, r0)
    ensures !Occurs(pat, [s[0]] + r0)
  {
    var head := [s[0]] + r0;
    assert head == s[..1 + |r0|];
    forall i: nat | i <= |head|
      ensures !OccursAt(pat, head, i)
    {
      if i == 0 {
        if |pat| <= |head| {
          assert head[..|pat|] == s[..|pat|];
        }
      } else if i + |pat| <= |head| {
        assert head[i..i + |pat|] == r0[i - 1..i - 1 + |pat|];
        assert !OccursAt(pat, r0, i - 1);
      }
    }
  }

  lemma PrefixOfJoin(parts: seq<string>, sep: string)
    requires |parts| >= 1
    ensures StartsWith(Join(parts, sep), parts[0])
  {
    if |parts| > 1 {
      assert Join(parts, sep) == parts[0] + (sep + Join(parts[1..], sep));
    }
  }

  /** With a one-character separator absent from `a`, the first piece is `a`. */
  lemma {:induction false} SplitAtSeparator(a: string, d: char, b: string)
    requires d !in a
    ensures Split(a + [d] + b, [d]) == [a] + Split(b, [d])
    decreases |a|
  {
    var s := a + [d] + b;
    if a == [] {
      assert s[..1] == [d];
      assert s[1..] == b;
    } else {
      assert s[..1] == [a[0]];
      assert s[1..] == a[1..] + [d] + b;
      SplitAtSeparator(a[1..], d, b);
      assert [a[0]] + a[1..] == a;
    }
  }

  /** A string without the separator is a single piece. */
  lemma {:induction false} SplitWithoutSeparator(a: string, d: char)
    requires d !in a
    ensures Split(a, [d]) == [a]
    decreases |a|
  {
    if |a| >= 1 {
      assert a[..1] == [a[0]];
      SplitWithoutSeparator(a[1..], d);
      assert [a[0]] + a[1..] == a;
    }
  }

  /** Splitting pieces that avoid a one-character separator after joining
      them with it gives the pieces back. */
  lemma {:induction false} SplitJoin(parts: seq<string>, d: char)
    requires |parts| >= 1
    requires forall k :: 0 <= k < |parts| ==> d !in parts[k]
    ensures Split(Join(parts, [d]), [d]) == parts
  {
    if |parts| == 1 {
      SplitWithoutSeparator(parts[0], d);
    } else {
      SplitJoin(parts[1..], d);
      SplitAtSeparator(parts[0], d, Join(parts[1..], [d]));
      assert [parts[0]] + parts[1..] == parts;
    }
  }

  /** `str::replace`: every leftmost non-overlapping occurrence of `pat`
      replaced by `rep`; exactly what joining the split pieces does. */
  function Replace(s: string, pat: string, rep: string): (r: string)
    requires pat != []
  {
    Join(Split(s, pat), rep)
  }

  /** Putting a character in front of the first piece puts it in front of
      the join. */
  lemma JoinConsFirst(x: char, parts: seq<string>, sep: string)
    requires |parts| >= 1
    ensures Join([[x] + parts[0]] + parts[1..], sep) == [x] + Join(parts, sep)
  {
    var ps := [[x] + parts[0]] + parts[1..];
    if |parts| > 1 {
      assert ps[1..] == parts[1..];
    }
  }

  /** Replacing a one-character pattern, one character at a time: the first
      character is replaced if it is the pattern, then the rest. */
  lemma ReplaceCharCons(s: string, c: char, rep: string)
    requires s != []
    ensures Replace(s, [c], rep) == (if s[0] == c then rep else [s[0]]) + Replace(s[1..], [c], rep)
  {
    var rest := Split(s[1..], [c]);
    if s[0] == c {
      assert s[..1] == [c];
      assert Split(s, [c]) == [[]] + rest;
      assert ([[]] + rest)[1..] == rest;
    } else {
      assert s[..1] != [c];
      assert Split(s, [c]) == [[s[0]] + rest[0]] + rest[1..];
      JoinConsFirst(s[0], rest, rep);
    }
  }

  /** Replacing one character by another is a character-by-character map. */
  lemma {:induction false} ReplaceCharPointwise(s: string, c: char, d: char)
    ensures |Replace(s, [c], [d])| == |s|
    ensures forall i :: 0 <= i < |s| ==> Replace(s, [c], [d])[i] == (if s[i] == c then d else s[i])
    decreases |s|
  {
    if s != [] {
      ReplaceCharCons(s, c, [d]);
      ReplaceCharPointwise(s[1..], c, d);
      var r := Replace(s, [c], [d]);
      var tail := Replace(s[1..], [c], [d]);
      forall i | 1 <= i < |s|
        ensures r[i] == (if s[i] == c then d else s[i])
      {
        assert r[i] == tail[i - 1];
        assert s[1..][i - 1] == s[i];
      }
    } else {
      assert Split(s, [c]) == [s];
    }
  }

  /** Replacing a pattern by itself changes nothing. */
  lemma ReplaceBySelf(s: string, pat: string)
    requires pat != []
    ensures Replace(s, pat, pat) == s
  {
    JoinSplit(s, pat);
  }

  lemma {:induction false} JoinAvoids(parts: seq<string>, sep: string, c: char)
    requires c !in sep
    requires forall k :: 0 <= k < |parts| ==> c !in parts[k]
    ensures c !in Join(parts, sep)
  {
    if |parts| > 1 {
      JoinAvoids(parts[1..], sep, c);
    }
  }

  /** Replacing a one-character pattern by a string without that character
      leaves no occurrence of it. */
  lemma ReplaceRemovesChar(s: string, c: char, rep: string)
    requires c !in rep
    ensures c !in Replace(s, [c], rep)
  {
    var parts := Split(s, [c]);
    forall k | 0 <= k < |parts|
      ensures c !in parts[k]
    {
      SplitPiecesAvoidChar(s, c, k);
    }
    JoinAvoids(parts, rep, c);
  }

  /** No piece of a split on one character contains that character. */
  lemma SplitPiecesAvoidChar(s: string, c: char, k: nat)
    requires k < |Split(s, [c])|
    ensures c !in Split(s, [c])[k]
  {
    var piece := Split(s, [c])[k];
    SplitPiecesAvoidPattern(s, [c]);
    assert !Occurs([c], piece);
    forall i | 0 <= i < |piece|
      ensures piece[i] != c
    {
      assert piece[i..i + 1] == [piece[i]];
      assert !OccursAt([c], piece, i);
    }
  }

  /** Number of leading whitespace characters. */
  function LeadingWhitespace(s: string): (n: nat)
    ensures n <= |s|
    ensures forall i :: 0 <= i < n ==> IsWhitespace(s[i])
    ensures n < |s| ==> !IsWhitespace(s[n])
    decreases |s|
  {
    if |s| == 0 || !IsWhitespace(s[0]) then 0 else 1 + LeadingWhitespace(s[1..])
  }

  /** Number of trailing whitespace characters. */
  function TrailingWhitespace(s: string): (n: nat)
    ensures n <= |s|
    ensures forall i :: |s| - n <= i < |s| ==> IsWhitespace(s[i])
    ensures n < |s| ==> !IsWhitespace(s[|s| - 1 - n])
    decreases |s|
  {
    if |s| == 0 || !IsWhitespace(s[|s| - 1]) then 0 else 1 + TrailingWhitespace(s[..|s| - 1])
  }

  /** `str::trim`: the slice left after dropping leading and trailing
      whitespace. */
  function Trim(s: string): (r: string)
    ensures |r| <= |s|
  {
    var a := LeadingWhitespace(s);
    var b := TrailingWhitespace(s[a..]);
    s[a..|s| - b]
  }

  /** The trim is the slice of `s` after its leading whitespace, and what
      follows it is whitespace too. */
  lemma TrimIsSlice(s: string)
    ensures Trim(s) == [] || (!IsWhitespace(Trim(s)[0]) && !IsWhitespace(Trim(s)[|Trim(s)| - 1]))
    ensures LeadingWhitespace(s) + |Trim(s)| <= |s|
    ensures Trim(s) == s[LeadingWhitespace(s)..LeadingWhitespace(s) + |Trim(s)|]
    ensures forall k :: LeadingWhitespace(s) + |Trim(s)| <= k < |s| ==> IsWhitespace(s[k])
  {
    TrimSlice(s);
    TrimEnds(s);
    TrimTail(s);
  }

  lemma TrimSlice(s: string)
    ensures LeadingWhitespace(s) + |Trim(s)| <= |s|
    ensures Trim(s) == s[LeadingWhitespace(s)..LeadingWhitespace(s) + |Trim(s)|]
  {}

  lemma TrimEnds(s: string)
    ensures Trim(s) == [] || (!IsWhitespace(Trim(s)[0]) && !IsWhitespace(Trim(s)[|Trim(s)| - 1]))
  {
    var a := LeadingWhitespace(s);
    var t := s[a..];
    var b := TrailingWhitespace(t);
    var r := Trim(s);
    if r != [] {
      assert r[0] == s[a];
      assert r[|r| - 1] == t[|t| - 1 - b];
    }
  }

  lemma TrimTail(s: string)
    ensures forall k :: LeadingWhitespace(s) + |Trim(s)| <= k < |s| ==> IsWhitespace(s[k])
  {
    var a := LeadingWhitespace(s);
    var t := s[a..];
    var b := TrailingWhitespace(t);
    assert |Trim(s)| == |t| - b;
    forall k | a + |t| - b <= k < |s|
      ensures IsWhitespace(s[k])
    {
      assert s[k] == t[k - a];
    }
  }

  /** A stretch of `s` that starts and ends with a non-whitespace
      character lies inside the trim. */
  lemma TrimBounds(s: string, i: nat, j: nat)
    requires i < j <= |s| && !IsWhitespace(s[i]) && !IsWhitespace(s[j - 1])
    ensures LeadingWhitespace(s) <= i && j <= LeadingWhitespace(s) + |Trim(s)|
  {
    TrimTail(s);
  }

  /** A slice around a piece `w` of `s` is that piece with something on
      either side. */
  lemma SliceAround(s: string, lo: nat, hi: nat, k: nat, w: string)
    requires lo <= k && k + |w| <= hi <= |s| && s[k..k + |w|] == w
    ensures exists u, v :: s[lo..hi] == u + w + v
  {
    assert s[lo..hi] == s[lo..k] + s[k..k + |w|] + s[k + |w|..hi];
  }

  /** Trimming keeps any stretch that starts and ends with a visible
      character. */
  lemma TrimKeepsInner(c: string, k: nat, a: char, b: char)
    requires k + 3 <= |c| && c[k] == a && c[k + 1] == ' ' && c[k + 2] == b
    requires !IsWhitespace(a) && !IsWhitespace(b)
    ensures exists u, v :: Trim(c) == u + [a, ' ', b] + v
  {
    TrimBounds(c, k, k + 3);
    TrimSlice(c);
    SliceAround(c, LeadingWhitespace(c), LeadingWhitespace(c) + |Trim(c)|, k, [a, ' ', b]);
  }

  lemma SplitInThree(s: string, lo: nat, hi: nat)
    requires lo <= hi <= |s|
    ensures s == s[..lo] + s[lo..hi] + s[hi..]
  {}

  /** Every character is whitespace. */
  predicate AllWhitespace(s: string) {
    forall i :: 0 <= i < |s| ==> IsWhitespace(s[i])
  }

  /** What trimming removes is whitespace on both sides. */
  lemma TrimFrame(s: string)
    ensures LeadingWhitespace(s) + |Trim(s)| <= |s|
    ensures AllWhitespace(s[..LeadingWhitespace(s)])
    ensures AllWhitespace(s[LeadingWhitespace(s) + |Trim(s)|..])
  {
    TrimSlice(s);
    TrimTail(s);
    var a := LeadingWhitespace(s);
    var b := a + |Trim(s)|;
    forall i | 0 <= i < a
      ensures IsWhitespace(s[..a][i])
    {
      assert s[..a][i] == s[i];
    }
    forall i | 0 <= i < |s| - b
      ensures IsWhitespace(s[b..][i])
    {
      assert s[b..][i] == s[b + i];
    }
  }

  /** Trimming adds no character. */
  lemma TrimKeepsAbsent(s: string, x: char)
    requires x !in s
    ensures x !in Trim(s)
  {
    TrimSlice(s);
    var a := LeadingWhitespace(s);
    var r := Trim(s);
    forall i | 0 <= i < |r|
      ensures r[i] != x
    {
      assert r[i] == s[a + i];
    }
  }

  /** A string with no whitespace at either end is its own trim. */
  lemma TrimUnchanged(s: string)
    requires s == [] || (!IsWhitespace(s[0]) && !IsWhitespace(s[|s| - 1]))
    ensures Trim(s) == s
  {
    if s != [] {
      assert LeadingWhitespace(s) == 0;
      assert TrailingWhitespace(s) == 0;
    }
  }

  /** The length in bytes of the UTF-8 encoding (`str::len`). */
  function Utf8Width(c: char): nat {
    if c as int < 0x80 then 1 else if c as int < 0x800 then 2 else if c as int < 0x1_0000 then 3 else 4
  }

  function Utf8Len(s: string): nat
  {
    if s == [] then 0 else Utf8Width(s[0]) + Utf8Len(s[1..])
  }

  lemma {:induction false} Utf8Concat(a: string, b: string)
    ensures Utf8Len(a + b) == Utf8Len(a) + Utf8Len(b)
  {
    if a != [] {
      assert (a + b)[0] == a[0];
      assert (a + b)[1..] == a[1..] + b;
      Utf8Concat(a[1..], b);
      assert Utf8Len(a + b) == Utf8Width(a[0]) + Utf8Len(a[1..] + b);
    } else {
      assert a + b == b;
    }
  }

  /** A string's UTF-8 length is at least its number of characters, with
      equality exactly for pure-ASCII strings. */
  lemma {:induction false} Utf8LenBounds(s: string)
    ensures Utf8Len(s) >= |s|
    ensures Utf8Len(s) == |s| <==> forall i :: 0 <= i < |s| ==> s[i] as int < 0x80
  {
    if s != [] {
      Utf8LenBounds(s[1..]);
      assert forall i :: 1 <= i < |s| ==> s[i] == s[1..][i - 1];
    }
  }

  /** The order of Rust's `Ord for str`: byte-wise lexicographic, which for
      UTF-8 coincides with lexicographic order on code points. */
  predicate LexLess(a: string, b: string)
    decreases |a|
  {
    if a == [] then b != []
    else if b == [] then false
    else if a[0] != b[0] then a[0] < b[0]
    else LexLess(a[1..], b[1..])
  }

  lemma {:induction false} LexLessIrreflexive(a: string)
    ensures !LexLess(a, a)
    decreases |a|
  {
    if a != [] { LexLessIrreflexive(a[1..]); }
  }

  lemma {:induction false} LexLessTransitive(a: string, b: string, c: string)
    requires LexLess(a, b) && LexLess(b, c)
    ensures LexLess(a, c)
    decreases |a|
  {
    if a != [] && b != [] && c != [] && a[0] == b[0] && b[0] == c[0] {
      LexLessTransitive(a[1..], b[1..], c[1..]);
    }
  }

  lemma {:induction false} LexLessTotal(a: string, b: string)
    requires a != b
    ensures LexLess(a, b) || LexLess(b, a)
    decreases |a|
  {
    if a != [] && b != [] && a[0] == b[0] {
      assert a == [a[0]] + a[1..] && b == [b[0]] + b[1..];
      LexLessTotal(a[1..], b[1..]);
    }
  }

  lemma {:induction false} LexLessAsymmetric(a: string, b: string)
    requires LexLess(a, b)
    ensures !LexLess(b, a)
    decreases |a|
  {
    if a != [] && b != [] && a[0] == b[0] {
      LexLessAsymmetric(a[1..], b[1..]);
    }
  }
}
