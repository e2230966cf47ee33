/** Title and artist normalisation (`shared_item/norm.rs`): the keys under
    which songs, albums and artists are compared across platforms. */
module Norm {
  import opened Text

  /** What normalisation takes from external crates. `foldChar` is, for one
      character, its canonical decomposition with combining marks removed
      and the rest lower-cased (`unicode_normalization` and
      `char::to_lowercase`); combining marks are all dropped, so canonical
      reordering never shows and folding a string is folding each
      character. The three regex replacements (`FEAT_RE`, `DECORATION_RE`,
      `ALBUM_DECORATION_RE`, each replaced by the empty string) are opaque. */
  datatype Rules = Rules(
    foldChar: char -> string,
    stripFeat: string -> string,
    stripDecoration: string -> string,
    stripAlbumDecoration: string -> string)

  // ---------------------------------------------------------------------
  // fold_basic
  // ---------------------------------------------------------------------

  /** Step 1-3 of `fold_basic`: every character folded, in order. A string
      whose characters all fold to themselves comes out unchanged. */
  function Decomposed(foldChar: char -> string, s: string): (r: string)
    ensures (forall c :: c in s ==> foldChar(c) == [c]) ==> r == s
  {
    if s == [] then []
    else
      var init := s[..|s| - 1];
      assert forall c :: c in init ==> c in s;
      assert init + [s[|s| - 1]] == s;
      Decomposed(foldChar, init) + foldChar(s[|s| - 1])
  }

  const LeftDoubleQuote: char := '\U{201C}'
  const RightDoubleQuote: char := '\U{201D}'
  const LeftSingleQuote: char := '\U{2018}'
  const RightSingleQuote: char := '\U{2019}'

  /** The straight ASCII form of a typographic quote; any other character
      is its own. */
  function StraightQuote(c: char): char {
    if c == LeftDoubleQuote || c == RightDoubleQuote then '"'
    else if c == LeftSingleQuote || c == RightSingleQuote then '\''
    else c
  }

  /** Step 4 of `fold_basic`: the `&amp;` entity and the typographic quotes
      replaced, in the source's order. Without an `&` there is no entity,
      and the step maps each curly quote to its straight form and keeps
      every other character. */
  function ReplaceEntities(s: string): (r: string)
    ensures '&' !in s ==> |r| == |s| && forall i :: 0 <= i < |s| ==> r[i] == StraightQuote(s[i])
  {
    var amp := Replace(s, "&amp;", "&");
    var q1 := Replace(amp, [LeftDoubleQuote], "\"");
    var q2 := Replace(q1, [RightDoubleQuote], "\"");
    var q3 := Replace(q2, [LeftSingleQuote], "'");
    AmpAbsent(s);
    ReplaceCharPointwise(amp, LeftDoubleQuote, '"');
    ReplaceCharPointwise(q1, RightDoubleQuote, '"');
    ReplaceCharPointwise(q2, LeftSingleQuote, '\'');
    ReplaceCharPointwise(q3, RightSingleQuote, '\'');
    Replace(q3, [RightSingleQuote], "'")
  }

  /** Without an `&` the entity replacement has nothing to do. */
  lemma AmpAbsent(s: string)
    ensures '&' !in s ==> Replace(s, "&amp;", "&") == s
  {
    if '&' !in s {
      ReplaceAbsent(s, "&amp;", "&");
    }
  }

  /** The `&amp;` entity on its own becomes `&`. */
  lemma AmpEntityDecoded()
    ensures ReplaceEntities("&amp;") == "&"
  {
    var amp := Replace("&amp;", "&amp;", "&");
    assert Split("&amp;", "&amp;") == [[]] + Split([], "&amp;");
    assert amp == "&";
    ReplaceAbsent(amp, [LeftDoubleQuote], "\"");
    ReplaceAbsent(amp, [RightDoubleQuote], "\"");
    ReplaceAbsent(amp, [LeftSingleQuote], "'");
    ReplaceAbsent(amp, [RightSingleQuote], "'");
  }

  /** Step 5 of `fold_basic` before trimming: each whitespace character is
      dropped when the previous output was a space, and written as `' '`
      otherwise. `lastSpace` is the source's `last_space` flag. */
  function CollapseFrom(s: string, lastSpace: bool): (r: string)
    ensures |r| <= |s|
    ensures (forall i :: 0 <= i < |s| ==> !IsWhitespace(s[i])) ==> r == s
  {
    if s == [] then []
    else if IsWhitespace(s[0]) then
      if lastSpace then CollapseFrom(s[1..], true) else " " + CollapseFrom(s[1..], true)
    else [s[0]] + CollapseFrom(s[1..], false)
  }

  /** Every whitespace character is a plain space and no two spaces are
      adjacent. */
  predicate Collapsed(r: string) {
    && (forall i :: 0 <= i < |r| && IsWhitespace(r[i]) ==> r[i] == ' ')
    && (forall i :: 0 <= i < |r| - 1 && r[i] == ' ' ==> r[i + 1] != ' ')
  }

  /** What `fold_basic` guarantees about its output: collapsed, and no
      whitespace at either end. */
  predicate Folded(r: string) {
    Collapsed(r) && (r == [] || (!IsWhitespace(r[0]) && !IsWhitespace(r[|r| - 1])))
  }

  /** The non-whitespace characters of a string, in order. */
  function Visible(s: string): (r: string)
    ensures forall i :: 0 <= i < |r| ==> !IsWhitespace(r[i])
  {
    if s == [] then [] else (if IsWhitespace(s[0]) then [] else [s[0]]) + Visible(s[1..])
  }

  /** `fold_basic`, as a function of its input. */
  function BasicFold(foldChar: char -> string, s: string): (r: string)
    ensures Folded(r)
  {
    var collapsed := CollapseFrom(ReplaceEntities(Decomposed(foldChar, s)), false);
    CollapseIsCollapsed(ReplaceEntities(Decomposed(foldChar, s)), false);
    TrimKeepsCollapsed(collapsed);
    TrimIsSlice(collapsed);
    Trim(collapsed)
  }

  lemma {:induction false} CollapseIsCollapsed(s: string, lastSpace: bool)
    ensures Collapsed(CollapseFrom(s, lastSpace))
    ensures lastSpace && CollapseFrom(s, lastSpace) != [] ==> CollapseFrom(s, lastSpace)[0] != ' '
    decreases |s|
  {
    if s != [] {
      var tail := CollapseFrom(s[1..], IsWhitespace(s[0]));
      CollapseIsCollapsed(s[1..], IsWhitespace(s[0]));
      if IsWhitespace(s[0]) {
        if !lastSpace {
          ConsCollapsed(' ', tail);
        }
      } else {
        ConsCollapsed(s[0], tail);
      }
    }
  }

  /** One more character in front of collapsed text keeps it collapsed,
      when it is visible, or a space not followed by another. */
  lemma ConsCollapsed(c: char, tail: string)
    requires Collapsed(tail)
    requires !IsWhitespace(c) || (c == ' ' && (tail == [] || tail[0] != ' '))
    ensures Collapsed([c] + tail)
  {
    var r := [c] + tail;
    forall i | 0 <= i < |tail|
      ensures r[i + 1] == tail[i]
    {}
  }

  lemma TrimKeepsCollapsed(s: string)
    requires Collapsed(s)
    ensures Collapsed(Trim(s))
  {
    TrimIsSlice(s);
    var a := LeadingWhitespace(s);
    var r := Trim(s);
    forall i | 0 <= i < |r|
      ensures r[i] == s[a + i]
    {}
  }

  /** Collapsing only touches whitespace: the visible characters are those
      of the input, in order. */
  lemma {:induction false} CollapseKeepsVisible(s: string, lastSpace: bool)
    ensures Visible(CollapseFrom(s, lastSpace)) == Visible(s)
    decreases |s|
  {
    if s != [] {
      CollapseKeepsVisible(s[1..], IsWhitespace(s[0]));
      var tail := CollapseFrom(s[1..], IsWhitespace(s[0]));
      if IsWhitespace(s[0]) {
        if !lastSpace {
          VisibleConcat(" ", tail);
        }
      } else {
        VisibleConcat([s[0]], tail);
      }
    }
  }

  lemma {:induction false} VisibleConcat(a: string, b: string)
    ensures Visible(a + b) == Visible(a) + Visible(b)
    decreases |a|
  {
    if a != [] {
      var head := if IsWhitespace(a[0]) then [] else [a[0]];
      assert (a + b)[0] == a[0];
      assert (a + b)[1..] == a[1..] + b;
      VisibleConcat(a[1..], b);
      calc {
        Visible(a + b);
        head + Visible(a[1..] + b);
        head + (Visible(a[1..]) + Visible(b));
        (head + Visible(a[1..])) + Visible(b);
      }
    } else {
      assert a + b == b;
    }
  }

  lemma {:induction false} VisibleAllWhitespace(s: string)
    requires AllWhitespace(s)
    ensures Visible(s) == []
    decreases |s|
  {
    if s != [] {
      VisibleAllWhitespace(s[1..]);
    }
  }

  /** Trimming drops whitespace only. */
  lemma TrimKeepsVisible(s: string)
    ensures Visible(Trim(s)) == Visible(s)
  {
    TrimSlice(s);
    TrimFrame(s);
    VisibleBetween(s, LeadingWhitespace(s), LeadingWhitespace(s) + |Trim(s)|);
  }

  /** With only whitespace before `lo` and after `hi`, the visible
      characters are those of `s[lo..hi]`. */
  lemma VisibleBetween(s: string, lo: nat, hi: nat)
    requires lo <= hi <= |s|
    requires AllWhitespace(s[..lo]) && AllWhitespace(s[hi..])
    ensures Visible(s) == Visible(s[lo..hi])
  {
    var before, within, after := s[..lo], s[lo..hi], s[hi..];
    calc {
      Visible(s);
      { SplitInThree(s, lo, hi); }
      Visible(before + within + after);
      { VisibleConcat(before + within, after); }
      Visible(before + within) + Visible(after);
      { VisibleConcat(before, within); }
      Visible(before) + Visible(within) + Visible(after);
      { VisibleAllWhitespace(before); VisibleAllWhitespace(after); }
      Visible(within);
    }
  }

  /** `fold_basic` keeps every visible character of the entity-replaced,
      folded input, in order; only whitespace changes. */
  lemma FoldKeepsVisible(foldChar: char -> string, s: string)
    ensures Visible(BasicFold(foldChar, s)) == Visible(ReplaceEntities(Decomposed(foldChar, s)))
  {
    var replaced := ReplaceEntities(Decomposed(foldChar, s));
    CollapseKeepsVisible(replaced, false);
    TrimKeepsVisible(CollapseFrom(replaced, false));
  }

  /** Once a space has been written, a further whitespace run writes
      nothing. */
  lemma {:induction false} SkipRun(ws: string, rest: string)
    requires forall i :: 0 <= i < |ws| ==> IsWhitespace(ws[i])
    ensures CollapseFrom(ws + rest, true) == CollapseFrom(rest, true)
    decreases |ws|
  {
    if ws == [] {
      assert ws + rest == rest;
    } else {
      assert (ws + rest)[0] == ws[0];
      assert (ws + rest)[1..] == ws[1..] + rest;
      SkipRun(ws[1..], rest);
    }
  }

  /** A whitespace run met right after a visible character, and ended by a
      visible character, becomes one space. */
  lemma RunAfterVisible(ws: string, b: char, rest: string)
    requires ws != [] && forall i :: 0 <= i < |ws| ==> IsWhitespace(ws[i])
    requires !IsWhitespace(b)
    ensures CollapseFrom(ws + [b] + rest, false) == [' ', b] + CollapseFrom(rest, false)
  {
    var s := ws + [b] + rest;
    assert s[0] == ws[0];
    assert s[1..] == ws[1..] + ([b] + rest);
    SkipRun(ws[1..], [b] + rest);
    assert ([b] + rest)[1..] == rest;
  }

  /** A whitespace run between two visible characters becomes exactly one
      space, whatever came before. */
  lemma RunBecomesOneSpace(a: char, ws: string, b: char, rest: string, lastSpace: bool)
    requires !IsWhitespace(a) && !IsWhitespace(b)
    requires ws != [] && forall i :: 0 <= i < |ws| ==> IsWhitespace(ws[i])
    ensures CollapseFrom([a] + ws + [b] + rest, lastSpace) == [a, ' ', b] + CollapseFrom(rest, false)
  {
    var s := [a] + ws + [b] + rest;
    assert s[0] == a;
    assert s[1..] == ws + [b] + rest;
    RunAfterVisible(ws, b, rest);
  }

  /** Collapsing splits after a visible character: what follows starts
      afresh. */
  lemma {:induction false} CollapseAfterVisible(x: string, rest: string, lastSpace: bool)
    requires x != [] && !IsWhitespace(x[|x| - 1])
    ensures CollapseFrom(x + rest, lastSpace) == CollapseFrom(x, lastSpace) + CollapseFrom(rest, false)
    ensures CollapseFrom(x, lastSpace) != []
    ensures CollapseFrom(x, lastSpace)[|CollapseFrom(x, lastSpace)| - 1] == x[|x| - 1]
    decreases |x|
  {
    assert (x + rest)[0] == x[0];
    if |x| == 1 {
      assert (x + rest)[1..] == rest;
    } else {
      assert (x + rest)[1..] == x[1..] + rest;
      CollapseAfterVisible(x[1..], rest, IsWhitespace(x[0]));
    }
  }

  /** Collapsing a visible character, a whitespace run and a visible
      character, inside any text, leaves the two characters one space
      apart. */
  lemma CollapseRunInside(p: string, a: char, ws: string, b: char, q: string)
    requires !IsWhitespace(a) && !IsWhitespace(b)
    requires ws != [] && forall i :: 0 <= i < |ws| ==> IsWhitespace(ws[i])
    ensures CollapseFrom(p + [a] + ws + [b] + q, false)
            == CollapseFrom(p + [a], false) + [' ', b] + CollapseFrom(q, false)
  {
    assert p + [a] + ws + [b] + q == (p + [a]) + (ws + [b] + q);
    CollapseAfterVisible(p + [a], ws + [b] + q, false);
    RunAfterVisible(ws, b, q);
  }

  /** Where the run sits in the collapsed text: right after the collapse
      of everything up to the first visible character. */
  lemma CollapseRunAt(x: string, p: string, a: char, ws: string, b: char, q: string) returns (k: nat)
    requires x == p + [a] + ws + [b] + q
    requires !IsWhitespace(a) && !IsWhitespace(b)
    requires ws != [] && forall i :: 0 <= i < |ws| ==> IsWhitespace(ws[i])
    ensures k == |CollapseFrom(p + [a], false)| - 1
    ensures k + 3 <= |CollapseFrom(x, false)|
    ensures CollapseFrom(x, false)[k] == a && CollapseFrom(x, false)[k + 1] == ' '
    ensures CollapseFrom(x, false)[k + 2] == b
  {
    CollapseRunInside(p, a, ws, b, q);
    CollapseAfterVisible(p + [a], [], false);
    k := |CollapseFrom(p + [a], false)| - 1;
  }

  /** `fold_basic` turns a whitespace run between two visible characters of
      the entity-replaced input into exactly one space: the output holds the
      two characters with one space between them. */
  lemma FoldRunBecomesOneSpace(foldChar: char -> string, s: string, p: string, a: char, ws: string, b: char, q: string)
    requires ReplaceEntities(Decomposed(foldChar, s)) == p + [a] + ws + [b] + q
    requires !IsWhitespace(a) && !IsWhitespace(b)
    requires ws != [] && forall i :: 0 <= i < |ws| ==> IsWhitespace(ws[i])
    ensures exists u, v :: BasicFold(foldChar, s) == u + [a, ' ', b] + v
  {
    var replaced := ReplaceEntities(Decomposed(foldChar, s));
    var k := CollapseRunAt(replaced, p, a, ws, b, q);
    TrimKeepsInner(CollapseFrom(replaced, false), k, a, b);
  }

  /** A string that is already folded and has no character the fold
      changes is a fixed point of `fold_basic`. */
  lemma FoldOfFolded(foldChar: char -> string, s: string)
    requires Folded(s)
    requires forall c :: c in s ==> foldChar(c) == [c]
    requires '&' !in s && LeftDoubleQuote !in s && RightDoubleQuote !in s
    requires LeftSingleQuote !in s && RightSingleQuote !in s
    ensures BasicFold(foldChar, s) == s
  {
    ReplaceEntitiesUnchanged(s);
    CollapseOfCollapsed(s, false);
    TrimUnchanged(s);
  }

  lemma ReplaceEntitiesUnchanged(s: string)
    requires '&' !in s && LeftDoubleQuote !in s && RightDoubleQuote !in s
    requires LeftSingleQuote !in s && RightSingleQuote !in s
    ensures ReplaceEntities(s) == s
  {
    ReplaceAbsent(s, "&amp;", "&");
    ReplaceAbsent(s, [LeftDoubleQuote], "\"");
    ReplaceAbsent(s, [RightDoubleQuote], "\"");
    ReplaceAbsent(s, [LeftSingleQuote], "'");
    ReplaceAbsent(s, [RightSingleQuote], "'");
  }

  /** Replacing a pattern whose first character is absent changes nothing. */
  lemma ReplaceAbsent(s: string, pat: string, rep: string)
    requires pat != [] && pat[0] !in s
    ensures Replace(s, pat, rep) == s
  {
    SplitAbsent(s, pat);
  }

  lemma {:induction false} SplitAbsent(s: string, pat: string)
    requires pat != [] && pat[0] !in s
    ensures Split(s, pat) == [s]
    decreases |s|
  {
    if |s| >= |pat| {
      assert s[..|pat|][0] == s[0];
      SplitAbsent(s[1..], pat);
      assert [s[0]] + s[1..] == s;
    }
  }

  lemma {:induction false} CollapseOfCollapsed(s: string, lastSpace: bool)
    requires Collapsed(s)
    requires lastSpace ==> s == [] || s[0] != ' '
    ensures CollapseFrom(s, lastSpace) == s
    decreases |s|
  {
    if s != [] {
      assert Collapsed(s[1..]) by {
        forall i | 0 <= i < |s[1..]| ensures s[1..][i] == s[i + 1] {}
      }
      CollapseOfCollapsed(s[1..], IsWhitespace(s[0]));
      assert [s[0]] + s[1..] == s;
    }
  }

  /** No typographic quote survives `fold_basic`. */
  lemma FoldRemovesCurlyQuotes(foldChar: char -> string, s: string)
    ensures var r := BasicFold(foldChar, s);
      LeftDoubleQuote !in r && RightDoubleQuote !in r && LeftSingleQuote !in r && RightSingleQuote !in r
  {
    var replaced := ReplaceEntities(Decomposed(foldChar, s));
    EntitiesRemoveCurlyQuotes(Decomposed(foldChar, s));
    var collapsed := CollapseFrom(replaced, false);
    CollapseKeepsAbsent(replaced, false, LeftDoubleQuote);
    CollapseKeepsAbsent(replaced, false, RightDoubleQuote);
    CollapseKeepsAbsent(replaced, false, LeftSingleQuote);
    CollapseKeepsAbsent(replaced, false, RightSingleQuote);
    TrimKeepsAbsent(collapsed, LeftDoubleQuote);
    TrimKeepsAbsent(collapsed, RightDoubleQuote);
    TrimKeepsAbsent(collapsed, LeftSingleQuote);
    TrimKeepsAbsent(collapsed, RightSingleQuote);
  }

  /** The entity replacement leaves no typographic quote behind, whatever
      the input holds. */
  lemma EntitiesRemoveCurlyQuotes(s: string)
    ensures var r := ReplaceEntities(s);
      LeftDoubleQuote !in r && RightDoubleQuote !in r && LeftSingleQuote !in r && RightSingleQuote !in r
  {
    var amp := Replace(s, "&amp;", "&");
    var q1 := Replace(amp, [LeftDoubleQuote], "\"");
    var q2 := Replace(q1, [RightDoubleQuote], "\"");
    var q3 := Replace(q2, [LeftSingleQuote], "'");
    ReplaceRemovesChar(amp, LeftDoubleQuote, "\"");
    ReplaceRemovesChar(q1, RightDoubleQuote, "\"");
    ReplaceKeepsAbsent(q1, [RightDoubleQuote], "\"", LeftDoubleQuote);
    ReplaceRemovesChar(q2, LeftSingleQuote, "'");
    ReplaceKeepsAbsent(q2, [LeftSingleQuote], "'", LeftDoubleQuote);
    ReplaceKeepsAbsent(q2, [LeftSingleQuote], "'", RightDoubleQuote);
    ReplaceRemovesChar(q3, RightSingleQuote, "'");
    ReplaceKeepsAbsent(q3, [RightSingleQuote], "'", LeftDoubleQuote);
    ReplaceKeepsAbsent(q3, [RightSingleQuote], "'", RightDoubleQuote);
    ReplaceKeepsAbsent(q3, [RightSingleQuote], "'", LeftSingleQuote);
  }

  /** A character absent from the input and the replacement is absent from
      the result. */
  lemma ReplaceKeepsAbsent(s: string, pat: string, rep: string, c: char)
    requires pat != [] && c !in s && c !in rep
    ensures c !in Replace(s, pat, rep)
  {
    var parts := Split(s, pat);
    JoinSplit(s, pat);
    forall k | 0 <= k < |parts|
      ensures c !in parts[k]
    {
      if c in parts[k] {
        PieceInJoin(parts, pat, k, c);
      }
    }
    JoinAvoids(parts, rep, c);
  }

  lemma {:induction false} PieceInJoin(parts: seq<string>, sep: string, k: nat, c: char)
    requires k < |parts| && c in parts[k]
    ensures c in Join(parts, sep)
  {
    if |parts| > 1 {
      if k > 0 {
        PieceInJoin(parts[1..], sep, k - 1, c);
      }
      assert Join(parts, sep) == parts[0] + (sep + Join(parts[1..], sep));
    }
  }

  lemma {:induction false} CollapseKeepsAbsent(s: string, lastSpace: bool, c: char)
    requires c !in s && c != ' '
    ensures c !in CollapseFrom(s, lastSpace)
    decreases |s|
  {
    if s != [] {
      CollapseKeepsAbsent(s[1..], IsWhitespace(s[0]), c);
    }
  }

  /** Steps 1-3 of `fold_basic` as written: a push loop over the folded
      characters. */
  method DecomposeChars(foldChar: char -> string, s: string) returns (decomposed: string)
    ensures decomposed == Decomposed(foldChar, s)
  {
    decomposed := "";
    var i := 0;
    while i < |s|
      invariant 0 <= i <= |s|
      invariant decomposed == Decomposed(foldChar, s[..i])
    {
      assert s[..i + 1][..i] == s[..i];
      assert Decomposed(foldChar, s[..i + 1]) == Decomposed(foldChar, s[..i]) + foldChar(s[i]);
      decomposed := decomposed + foldChar(s[i]);
      i := i + 1;
    }
    assert s[..i] == s;
  }

  /** Step 5 of `fold_basic` before trimming, as written: a push loop under
      the `last_space` flag. */
  method CollapseWhitespace(replaced: string) returns (out: string)
    ensures out == CollapseFrom(replaced, false)
  {
    out := "";
    var lastSpace := false;
    var j := 0;
    ghost var target := CollapseFrom(replaced, false);
    assert replaced[0..] == replaced;
    while j < |replaced|
      invariant 0 <= j <= |replaced|
      invariant out + CollapseFrom(replaced[j..], lastSpace) == target
    {
      var ch := replaced[j];
      ghost var after := CollapseFrom(replaced[j + 1..], IsWhitespace(ch));
      CollapseStep(replaced, j, lastSpace);
      var piece, nowSpace := CollapseChar(ch, lastSpace);
      assert (out + piece) + after == out + (piece + after);
      out := out + piece;
      lastSpace := nowSpace;
      j := j + 1;
    }
    assert replaced[j..] == [];
  }

  /** The body of the collapse loop for one character: what it pushes and
      the new `last_space` flag. */
  method CollapseChar(ch: char, lastSpace: bool) returns (piece: string, nowSpace: bool)
    ensures piece == CollapsePiece(ch, lastSpace)
    ensures nowSpace == IsWhitespace(ch)
  {
    piece := "";
    nowSpace := lastSpace;
    if IsWhitespace(ch) {
      if !lastSpace {
        piece := " ";
        nowSpace := true;
      }
    } else {
      piece := [ch];
      nowSpace := false;
    }
  }

  /** What the collapse loop writes for one character. */
  function CollapsePiece(ch: char, lastSpace: bool): string {
    if !IsWhitespace(ch) then [ch] else if lastSpace then [] else " "
  }

  /** One step of the collapse loop at index `j`. */
  lemma CollapseStep(s: string, j: nat, lastSpace: bool)
    requires j < |s|
    ensures CollapseFrom(s[j..], lastSpace)
         == CollapsePiece(s[j], lastSpace) + CollapseFrom(s[j + 1..], IsWhitespace(s[j]))
  {
    assert s[j..][1..] == s[j + 1..];
  }

  /** `fold_basic` as written: the folding loop, the entity replacement, the
      collapsing loop and a final trim. */
  method FoldBasic(foldChar: char -> string, s: string) returns (r: string)
    ensures r == BasicFold(foldChar, s)
  {
    var decomposed := DecomposeChars(foldChar, s);
    var replaced := ReplaceEntities(decomposed);
    var out := CollapseWhitespace(replaced);
    r := Trim(out);
  }

  // ---------------------------------------------------------------------
  // strip_common_punct
  // ---------------------------------------------------------------------

  /** `strip_common_punct`: the ASCII punctuation characters filtered out. */
  function StripPunct(s: string): (r: string)
    ensures |r| <= |s|
    ensures forall i :: 0 <= i < |r| ==> !IsAsciiPunctuation(r[i])
  {
    if s == [] then [] else (if IsAsciiPunctuation(s[0]) then [] else [s[0]]) + StripPunct(s[1..])
  }

  /** A character survives exactly when it was in the input and is not ASCII
      punctuation. */
  lemma {:induction false} StripPunctMembership(s: string, c: char)
    ensures c in StripPunct(s) <==> c in s && !IsAsciiPunctuation(c)
    decreases |s|
  {
    if s != [] {
      StripPunctMembership(s[1..], c);
      assert s == [s[0]] + s[1..];
    }
  }

  /** Stripping distributes over concatenation, so the kept characters stay
      in their order and nothing is inserted in place of a removed one. */
  lemma {:induction false} StripPunctConcat(a: string, b: string)
    ensures StripPunct(a + b) == StripPunct(a) + StripPunct(b)
    decreases |a|
  {
    if a != [] {
      var head := if IsAsciiPunctuation(a[0]) then [] else [a[0]];
      assert (a + b)[0] == a[0];
      assert (a + b)[1..] == a[1..] + b;
      StripPunctConcat(a[1..], b);
      calc {
        StripPunct(a + b);
        head + StripPunct(a[1..] + b);
        head + (StripPunct(a[1..]) + StripPunct(b));
        (head + StripPunct(a[1..])) + StripPunct(b);
      }
    } else {
      assert a + b == b;
    }
  }

  /** A string without ASCII punctuation is left as it is. */
  lemma {:induction false} StripPunctUnchanged(s: string)
    requires forall i :: 0 <= i < |s| ==> !IsAsciiPunctuation(s[i])
    ensures StripPunct(s) == s
    decreases |s|
  {
    if s != [] {
      StripPunctUnchanged(s[1..]);
      assert [s[0]] + s[1..] == s;
    }
  }

  /** Stripping twice is stripping once. */
  lemma StripPunctIdempotent(s: string)
    ensures StripPunct(StripPunct(s)) == StripPunct(s)
  {
    StripPunctUnchanged(StripPunct(s));
  }

  // ---------------------------------------------------------------------
  // Titles
  // ---------------------------------------------------------------------

  /** `normalize_song_title`: the `feat.` block and decorations removed, then
      fold, punctuation strip, fold. */
  function NormalizeSongTitle(rules: Rules, raw: string): (r: string)
    ensures Folded(r)
  {
    var core := rules.stripDecoration(rules.stripFeat(raw));
    BasicFold(rules.foldChar, StripPunct(BasicFold(rules.foldChar, core)))
  }

  /** `normalize_album_title`: album decorations removed, then fold,
      punctuation strip, fold. */
  function NormalizeAlbumTitle(rules: Rules, raw: string): (r: string)
    ensures Folded(r)
  {
    var core := rules.stripAlbumDecoration(raw);
    BasicFold(rules.foldChar, StripPunct(BasicFold(rules.foldChar, core)))
  }

  // ---------------------------------------------------------------------
  // Artist names
  // ---------------------------------------------------------------------

  /** The dash-like characters `- ‐ ‒ – — −`. */
  predicate IsDash(c: char) {
    c == '-' || c == '\U{2010}' || c == '\U{2012}' || c == '\U{2013}' || c == '\U{2014}' || c == '\U{2212}'
  }

  /** Every dash-like character replaced by a space, all else kept. */
  function DashesToSpaces(s: string): (r: string)
    ensures |r| == |s|
    ensures forall i :: 0 <= i < |s| ==> r[i] == (if IsDash(s[i]) then ' ' else s[i])
  {
    seq(|s|, i requires 0 <= i < |s| => if IsDash(s[i]) then ' ' else s[i])
  }

  /** `(?i)` on the connector letters: they have no case variants outside
      ASCII. */
  predicate MatchesIgnoringCase(s: string, word: string) {
    |word| <= |s| && ToAsciiLowercase(s[..|word|]) == word
  }

  /** The single-character connectors `&`, `,`, `;` and `+`. */
  predicate IsConnectorChar(c: char) {
    c == '&' || c == ',' || c == ';' || c == '+'
  }

  /** The length of the connector alternative `&| and | x |,|;|\+` that
      matches at the start of `s`, tried in that order. */
  function Connector(s: string): (n: nat)
    ensures n <= |s|
  {
    if s == [] then 0
    else if s[0] == '&' then 1
    else if MatchesIgnoringCase(s, " and ") then 5
    else if MatchesIgnoringCase(s, " x ") then 3
    else if s[0] == ',' || s[0] == ';' || s[0] == '+' then 1
    else 0
  }

  /** Backtracking over the leading `\s*`: the greedy run of `k` whitespace
      characters is given back one at a time until a connector matches. */
  function MatchAfterSpaces(s: string, k: nat): (e: nat)
    requires k <= LeadingWhitespace(s)
    ensures e <= |s|
  {
    var n := Connector(s[k..]);
    if n > 0 then
      var end := k + n;
      end + LeadingWhitespace(s[end..])
    else if k == 0 then 0
    else MatchAfterSpaces(s, k - 1)
  }

  /** The end of the `ARTIST_SPLIT_RE` match that starts at index 0 of `s`,
      or 0 if none starts there (every match is non-empty). */
  function MatchAt(s: string): (e: nat)
    ensures e <= |s|
  {
    MatchAfterSpaces(s, LeadingWhitespace(s))
  }

  /** `ARTIST_SPLIT_RE.replace_all(s, " and ")`: matches are found leftmost
      first, each is replaced by `" and "`, and the search resumes after
      it. The pattern has no anchors, so a match found in a suffix is a
      match in the whole string. */
  function ReplaceConnectors(s: string): (r: string)
    ensures r == [] <==> s == []
    decreases |s|
  {
    if s == [] then []
    else
      var e := MatchAt(s);
      if e > 0 then " and " + ReplaceConnectors(s[e..])
      else [s[0]] + ReplaceConnectors(s[1..])
  }

  /** Without a match anywhere, the replacement leaves the string as it
      is. */
  lemma {:induction false} ReplaceConnectorsNoMatch(s: string)
    requires forall i :: 0 <= i < |s| ==> MatchAt(s[i..]) == 0
    ensures ReplaceConnectors(s) == s
    decreases |s|
  {
    if s != [] {
      assert MatchAt(s) == 0 by { assert s[0..] == s; }
      ConnectorKeptStep(s);
      forall i | 0 <= i < |s[1..]|
        ensures MatchAt(s[1..][i..]) == 0
      {
        assert s[1..][i..] == s[i + 1..];
      }
      ReplaceConnectorsNoMatch(s[1..]);
    }
  }

  /** A lower-case letter is neither whitespace nor the start of a
      connector, so no match starts at it. */
  lemma LetterStartsNoMatch(s: string)
    requires s != [] && 'a' <= s[0] <= 'z'
    ensures Connector(s) == 0 && MatchAt(s) == 0
  {
    assert LeadingWhitespace(s) == 0;
    assert |s| >= 5 ==> ToAsciiLowercase(s[..5])[0] == s[0];
    assert |s| >= 3 ==> ToAsciiLowercase(s[..3])[0] == s[0];
    assert Connector(s) == 0;
  }

  /** One step of the replacement where no match starts. */
  lemma ConnectorKeptStep(s: string)
    requires s != [] && MatchAt(s) == 0
    ensures ReplaceConnectors(s) == [s[0]] + ReplaceConnectors(s[1..])
  {}

  /** One step of the replacement where a match starts. */
  lemma ConnectorMatchStep(s: string)
    requires s != [] && MatchAt(s) > 0
    ensures ReplaceConnectors(s) == " and " + ReplaceConnectors(s[MatchAt(s)..])
  {}

  /** A one-letter name is kept. */
  lemma LetterKept(b: char)
    requires 'a' <= b <= 'z'
    ensures ReplaceConnectors([b]) == [b]
  {
    LetterStartsNoMatch([b]);
    ConnectorKeptStep([b]);
    assert [b][1..] == [];
  }

  /** `\s* x \s*` (the spaces before the `x` given back to it) matches
      ` x ` before a letter. */
  lemma CrossMatch(b: char)
    requires 'a' <= b <= 'z'
    ensures MatchAt([' ', 'x', ' ', b]) == 3
  {
    var t := [' ', 'x', ' ', b];
    LetterStartsNoMatch(t[1..]);
    assert LeadingWhitespace(t) == 1;
    assert ToAsciiLowercase(t[..3]) == " x ";
    assert t[0..] == t;
    assert Connector(t) == 3;
    assert t[3..] == [b];
    assert LeadingWhitespace([b]) == 0;
    assert MatchAfterSpaces(t, 0) == 3;
  }

  /** `\s*&\s*` matches ` & ` before a letter. */
  lemma AmpersandMatch(b: char)
    requires 'a' <= b <= 'z'
    ensures MatchAt([' ', '&', ' ', b]) == 3
  {
    var t := [' ', '&', ' ', b];
    assert LeadingWhitespace(t) == 1;
    assert t[1..] == ['&', ' ', b];
    assert Connector(t[1..]) == 1;
    assert t[2..] == [' ', b];
    assert LeadingWhitespace(t[2..]) == 1;
    assert MatchAfterSpaces(t, 1) == 3;
  }

  /** `\s*,\s*` matches `, ` before a letter. */
  lemma CommaMatch(b: char)
    requires 'a' <= b <= 'z'
    ensures MatchAt([',', ' ', b]) == 2
  {
    var t := [',', ' ', b];
    assert LeadingWhitespace(t) == 0;
    assert t[0..] == t;
    assert Connector(t) == 1;
    assert t[1..] == [' ', b];
    assert LeadingWhitespace(t[1..]) == 1;
    assert MatchAfterSpaces(t, 0) == 2;
  }

  /** The `x` connector between two one-letter names. */
  lemma CrossConnectorReplaced(a: char, b: char)
    requires 'a' <= a <= 'z' && 'a' <= b <= 'z'
    ensures ReplaceConnectors([a, ' ', 'x', ' ', b]) == [a] + " and " + [b]
  {
    var s := [a, ' ', 'x', ' ', b];
    var t := [' ', 'x', ' ', b];
    assert ReplaceConnectors(s) == [a] + ReplaceConnectors(t) by {
      LetterStartsNoMatch(s);
      ConnectorKeptStep(s);
      assert s[1..] == t;
    }
    assert ReplaceConnectors(t) == " and " + [b] by {
      CrossMatch(b);
      ConnectorMatchStep(t);
      assert t[3..] == [b];
      LetterKept(b);
    }
  }

  /** The `&` connector, with a space on either side, between two one-letter
      names. */
  lemma AmpersandConnectorReplaced(a: char, b: char)
    requires 'a' <= a <= 'z' && 'a' <= b <= 'z'
    ensures ReplaceConnectors([a, ' ', '&', ' ', b]) == [a] + " and " + [b]
  {
    var s := [a, ' ', '&', ' ', b];
    var t := [' ', '&', ' ', b];
    assert ReplaceConnectors(s) == [a] + ReplaceConnectors(t) by {
      LetterStartsNoMatch(s);
      ConnectorKeptStep(s);
      assert s[1..] == t;
    }
    assert ReplaceConnectors(t) == " and " + [b] by {
      AmpersandMatch(b);
      ConnectorMatchStep(t);
      assert t[3..] == [b];
      LetterKept(b);
    }
  }

  /** A comma and the space after it, between two one-letter names. */
  lemma CommaConnectorReplaced(a: char, b: char)
    requires 'a' <= a <= 'z' && 'a' <= b <= 'z'
    ensures ReplaceConnectors([a, ',', ' ', b]) == [a] + " and " + [b]
  {
    var s := [a, ',', ' ', b];
    var t := [',', ' ', b];
    assert ReplaceConnectors(s) == [a] + ReplaceConnectors(t) by {
      LetterStartsNoMatch(s);
      ConnectorKeptStep(s);
      assert s[1..] == t;
    }
    assert ReplaceConnectors(t) == " and " + [b] by {
      CommaMatch(b);
      ConnectorMatchStep(t);
      assert t[2..] == [b];
      LetterKept(b);
    }
  }

  /** No single-character connector survives the replacement: each one is
      (part of) a match wherever it stands. */
  lemma {:induction false} ReplaceRemovesConnectorChars(s: string)
    ensures forall i :: 0 <= i < |ReplaceConnectors(s)| ==> !IsConnectorChar(ReplaceConnectors(s)[i])
    decreases |s|
  {
    if s != [] {
      var e := MatchAt(s);
      var r := ReplaceConnectors(s);
      if e > 0 {
        var rest := ReplaceConnectors(s[e..]);
        ReplaceRemovesConnectorChars(s[e..]);
        assert r == " and " + rest;
        forall i | 0 <= i < |r| ensures !IsConnectorChar(r[i]) {
          if i >= 5 {
            assert r[i] == rest[i - 5];
          } else {
            AndHasNoConnectorChar(i);
          }
        }
      } else {
        ConnectorCharIsMatched(s);
        var rest := ReplaceConnectors(s[1..]);
        ReplaceRemovesConnectorChars(s[1..]);
        assert r == [s[0]] + rest;
        forall i | 0 <= i < |r| ensures !IsConnectorChar(r[i]) {
          if i >= 1 {
            assert r[i] == rest[i - 1];
          }
        }
      }
    }
  }

  lemma AndHasNoConnectorChar(i: nat)
    requires i < 5
    ensures !IsConnectorChar(" and "[i])
  {}

  /** A connector character is a match by itself, so a string starting with
      one always has a match at its start. */
  lemma ConnectorCharIsMatched(s: string)
    requires s != []
    ensures MatchAt(s) == 0 ==> !IsConnectorChar(s[0])
  {
    if IsConnectorChar(s[0]) {
      assert LeadingWhitespace(s) == 0;
      assert s[0..] == s;
    }
  }

  /** `split(" and ")`, `trim` each piece, and drop the empty pieces and
      `various artists`. */
  function Tokens(cleaned: string): (ts: seq<string>)
    ensures forall k :: 0 <= k < |ts| ==> ts[k] != [] && ts[k] != "various artists"
  {
    KeepTokens(Split(cleaned, " and "))
  }

  function KeepTokens(pieces: seq<string>): (ts: seq<string>)
    ensures forall k :: 0 <= k < |ts| ==> ts[k] != [] && ts[k] != "various artists"
    ensures forall t :: t in ts <==> exists k :: 0 <= k < |pieces| && t == Trim(pieces[k]) && t != [] && t != "various artists"
  {
    if pieces == [] then []
    else
      var t := Trim(pieces[0]);
      var rest := KeepTokens(pieces[1..]);
      assert forall k :: 1 <= k < |pieces| ==> pieces[k] == pieces[1..][k - 1];
      if t != [] && t != "various artists" then [t] + rest else rest
  }

  /** Non-decreasing in the byte-wise order of `str`. */
  predicate Sorted(s: seq<string>) {
    forall i, j :: 0 <= i < j < |s| ==> !LexLess(s[j], s[i])
  }

  /** Strictly increasing: sorted and free of duplicates. */
  predicate StrictlySorted(s: seq<string>) {
    forall i, j :: 0 <= i < j < |s| ==> LexLess(s[i], s[j])
  }

  /** The library's `sort_unstable`, stated by its contract and realised as
      an insertion sort; equal strings are indistinguishable, so stability
      does not matter. */
  function SortStrings(xs: seq<string>): (r: seq<string>)
    ensures Sorted(r)
    ensures multiset(r) == multiset(xs)
  {
    if xs == [] then []
    else
      var init := xs[..|xs| - 1];
      assert xs == init + [xs[|xs| - 1]];
      InsertSorted(xs[|xs| - 1], SortStrings(init))
  }

  function InsertSorted(x: string, ys: seq<string>): (r: seq<string>)
    requires Sorted(ys)
    ensures Sorted(r)
    ensures multiset(r) == multiset(ys) + multiset{x}
  {
    if ys == [] then [x]
    else if !LexLess(ys[0], x) then
      assert forall k :: 0 <= k < |ys| ==> !LexLess(ys[k], x) by {
        forall k | 0 <= k < |ys|
          ensures !LexLess(ys[k], x)
        {
          if k > 0 {
            NotLessTransitive(x, ys[0], ys[k]);
          }
        }
      }
      SortedCons(x, ys);
      [x] + ys
    else
      var rest := InsertSorted(x, ys[1..]);
      assert ys == [ys[0]] + ys[1..];
      assert forall k :: 0 <= k < |rest| ==> !LexLess(rest[k], ys[0]) by {
        forall k | 0 <= k < |rest|
          ensures !LexLess(rest[k], ys[0])
        {
          assert rest[k] in multiset(rest);
          if rest[k] == x {
            LexLessAsymmetric(ys[0], x);
          } else {
            assert rest[k] in ys[1..];
          }
        }
      }
      SortedCons(ys[0], rest);
      [ys[0]] + rest
  }

  lemma SortedCons(x: string, ys: seq<string>)
    requires Sorted(ys)
    requires forall k :: 0 <= k < |ys| ==> !LexLess(ys[k], x)
    ensures Sorted([x] + ys)
  {
    var r := [x] + ys;
    forall i, j | 0 <= i < j < |r|
      ensures !LexLess(r[j], r[i])
    {
      assert r[j] == ys[j - 1];
      if i > 0 {
        assert r[i] == ys[i - 1];
      }
    }
  }

  /** "Not less than" is transitive. */
  lemma NotLessTransitive(a: string, b: string, c: string)
    requires !LexLess(b, a) && !LexLess(c, b)
    ensures !LexLess(c, a)
  {
    if a != b {
      LexLessTotal(a, b);
      if LexLess(c, a) {
        LexLessTransitive(c, a, b);
      }
    }
  }

  lemma SortKeepsMembers(xs: seq<string>)
    ensures forall t :: t in SortStrings(xs) <==> t in xs
  {
    var r := SortStrings(xs);
    forall t ensures t in r <==> t in xs {
      assert t in r <==> t in multiset(r);
      assert t in xs <==> t in multiset(xs);
    }
  }

  /** The library's `dedup`: consecutive repeats removed. */
  function Dedup(xs: seq<string>): (r: seq<string>)
    ensures forall x :: x in r <==> x in xs
    ensures forall i :: 0 <= i < |r| - 1 ==> r[i] != r[i + 1]
    ensures xs != [] ==> r != [] && r[|r| - 1] == xs[|xs| - 1]
  {
    if xs == [] then []
    else
      var init := Dedup(xs[..|xs| - 1]);
      var last := xs[|xs| - 1];
      assert forall x :: x in xs <==> x in xs[..|xs| - 1] || x == last by {
        assert xs == xs[..|xs| - 1] + [last];
      }
      if init != [] && init[|init| - 1] == last then init else init + [last]
  }

  /** Removing consecutive repeats from a sorted list leaves a strictly
      sorted one. */
  lemma {:induction false} DedupOfSorted(xs: seq<string>)
    requires Sorted(xs)
    ensures StrictlySorted(Dedup(xs))
    decreases |xs|
  {
    if xs != [] {
      var init := xs[..|xs| - 1];
      var last := xs[|xs| - 1];
      assert Sorted(init);
      DedupOfSorted(init);
      var d := Dedup(init);
      if init != [] && d[|d| - 1] != last {
        var p := d[|d| - 1];
        assert p == xs[|xs| - 2];
        assert !LexLess(last, p);
        LexLessTotal(p, last);
        forall i | 0 <= i < |d|
          ensures LexLess(d[i], last)
        {
          if i < |d| - 1 {
            LexLessTransitive(d[i], p, last);
          }
        }
        assert Dedup(xs) == d + [last];
      }
    }
  }

  /** Two strictly sorted lists with the same elements are the same list. */
  lemma {:induction false} StrictlySortedUnique(a: seq<string>, b: seq<string>)
    requires StrictlySorted(a) && StrictlySorted(b)
    requires forall x :: x in a <==> x in b
    ensures a == b
    decreases |a|
  {
    if a == [] {
      assert forall k :: 0 <= k < |b| ==> b[k] in b;
    } else {
      assert a[0] in a;
      assert b != [];
      if a[0] != b[0] {
        assert a[0] in a && b[0] in b;
        var i :| 0 <= i < |b| && b[i] == a[0];
        var j :| 0 <= j < |a| && a[j] == b[0];
        assert LexLess(b[0], a[0]);
        assert LexLess(a[0], b[0]);
        LexLessAsymmetric(a[0], b[0]);
        assert false;
      }
      forall x
        ensures x in a[1..] ==> x in b[1..]
        ensures x in b[1..] ==> x in a[1..]
      {
        if x in a[1..] {
          TailMember(a, b, x);
        }
        if x in b[1..] {
          TailMember(b, a, x);
        }
      }
      StrictlySortedUnique(a[1..], b[1..]);
    }
  }

  lemma TailMember(a: seq<string>, b: seq<string>, x: string)
    requires StrictlySorted(a) && a != [] && b != [] && a[0] == b[0]
    requires x in a[1..] && x in b
    ensures x in b[1..]
  {
    var i :| 1 <= i < |a| && a[i] == x;
    assert LexLess(a[0], x);
    LexLessIrreflexive(x);
    var k :| 0 <= k < |b| && b[k] == x;
    assert b[1..][k - 1] == x;
  }

  /** The cleaned string of `normalize_artist_name`: folded, dashes as
      spaces, connectors standardised, punctuation removed. */
  function CleanedArtistName(rules: Rules, raw: string): string
  {
    StripPunct(ReplaceConnectors(DashesToSpaces(BasicFold(rules.foldChar, raw))))
  }

  /** `sort_unstable` then `dedup`: a strictly increasing list holding
      exactly the given tokens. */
  function SortedUnique(tokens: seq<string>): (ts: seq<string>)
    ensures StrictlySorted(ts)
    ensures forall t :: t in ts <==> t in tokens
  {
    var sorted := SortStrings(tokens);
    DedupOfSorted(sorted);
    SortKeepsMembers(tokens);
    Dedup(sorted)
  }

  /** The artist tokens of a name: strictly increasing, each non-empty and
      none `various artists`, and exactly the tokens of the cleaned name. */
  function ArtistTokens(rules: Rules, raw: string): (ts: seq<string>)
    ensures StrictlySorted(ts)
    ensures forall k :: 0 <= k < |ts| ==> ts[k] != [] && ts[k] != "various artists"
    ensures forall t :: t in ts <==> t in Tokens(CleanedArtistName(rules, raw))
  {
    var tokens := Tokens(CleanedArtistName(rules, raw));
    var ts := SortedUnique(tokens);
    forall k | 0 <= k < |ts|
      ensures ts[k] != [] && ts[k] != "various artists"
    {
      assert ts[k] in tokens;
      var j :| 0 <= j < |tokens| && tokens[j] == ts[k];
    }
    ts
  }

  /** `normalize_artist_name`, as a function of its input: the `" and "`-join
      of the artist tokens. */
  function ArtistNameKey(rules: Rules, raw: string): string
  {
    Join(ArtistTokens(rules, raw), " and ")
  }

  /** Two artist names split into the same set of tokens. */
  ghost predicate SameArtistTokens(rules: Rules, x: string, y: string) {
    forall t :: t in Tokens(CleanedArtistName(rules, x)) <==> t in Tokens(CleanedArtistName(rules, y))
  }

  /** The order in which artists are listed, and repetitions, do not
      matter: two names with the same token set have the same key. */
  lemma ArtistKeyIgnoresOrder(rules: Rules, x: string, y: string)
    requires SameArtistTokens(rules, x, y)
    ensures ArtistNameKey(rules, x) == ArtistNameKey(rules, y)
  {
    StrictlySortedUnique(ArtistTokens(rules, x), ArtistTokens(rules, y));
  }

  /** `ArtistKeyIgnoresOrder` for every pair of names. */
  lemma ArtistKeysAgree(rules: Rules)
    ensures forall x, y :: SameArtistTokens(rules, x, y) ==> ArtistNameKey(rules, x) == ArtistNameKey(rules, y)
  {
    forall x, y | SameArtistTokens(rules, x, y)
      ensures ArtistNameKey(rules, x) == ArtistNameKey(rules, y)
    {
      ArtistKeyIgnoresOrder(rules, x, y);
    }
  }

  /** The dash loop of `normalize_artist_name`: a push loop writing a space
      for each dash. */
  method ReplaceDashes(basic: string) returns (dashAsSpace: string)
    ensures dashAsSpace == DashesToSpaces(basic)
  {
    dashAsSpace := "";
    var i := 0;
    while i < |basic|
      invariant 0 <= i <= |basic|
      invariant dashAsSpace == DashesToSpaces(basic)[..i]
    {
      var ch := basic[i];
      if IsDash(ch) {
        dashAsSpace := dashAsSpace + " ";
      } else {
        dashAsSpace := dashAsSpace + [ch];
      }
      i := i + 1;
    }
    assert dashAsSpace == DashesToSpaces(basic);
  }

  /** `normalize_artist_name` as written: fold, a push loop replacing dashes
      by spaces, connector replacement, punctuation strip, the token
      pipeline, `sort_unstable`, `dedup` and `join`. */
  method NormalizeArtistName(rules: Rules, raw: string) returns (r: string)
    ensures r == ArtistNameKey(rules, raw)
  {
    var basic := FoldBasic(rules.foldChar, raw);
    var dashAsSpace := ReplaceDashes(basic);
    var connectorsStandardised := ReplaceConnectors(dashAsSpace);
    var cleaned := StripPunct(connectorsStandardised);
    var parts := Tokens(cleaned);
    parts := SortStrings(parts);
    parts := Dedup(parts);
    r := Join(parts, " and ");
    assert cleaned == CleanedArtistName(rules, raw);
  }
}
