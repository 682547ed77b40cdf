/**
 * Character classes and the string operations of Python's `str` that the
 * scraper and the resolver use: `strip`, `upper`, `lower`, `in`,
 * `replace(p, '')`, `split(c)[0]`, and the `re.sub(r'\s+', ' ', ...)`
 * whitespace collapse.
 */
module Text {

  /** Characters for which Python's `str.isspace()` holds; the regex class `\s`
      matches the same characters. */
  predicate IsSpace(c: char) {
    || c == ' '
    || '\t' <= c <= '\r'
    || '\U{1C}' <= c <= '\U{1F}'
    || c == '\U{85}' || c == '\U{A0}' || c == '\U{1680}'
    || '\U{2000}' <= c <= '\U{200A}'
    || c == '\U{2028}' || c == '\U{2029}' || c == '\U{202F}'
    || c == '\U{205F}' || c == '\U{3000}'
  }

  /** The regex class `\d`, restricted to ASCII digits. */
  predicate IsDigit(c: char) {
    '0' <= c <= '9'
  }

  /** The regex class `\w` on characters up to U+00FF: underscore and every
      character for which `str.isalnum()` holds, which takes in the Latin-1
      letters and the numerics superscript one to three and the vulgar fractions. */
  predicate IsWordChar(c: char) {
    || IsDigit(c)
    || 'a' <= c <= 'z' || 'A' <= c <= 'Z' || c == '_'
    || c == '\U{AA}' || c == '\U{B5}' || c == '\U{BA}'
    || c == '\U{B2}' || c == '\U{B3}' || c == '\U{B9}'
    || c == '\U{BC}' || c == '\U{BD}' || c == '\U{BE}'
    || ('\U{C0}' <= c <= '\U{FF}' && c != '\U{D7}' && c != '\U{F7}')
  }

  /** `str.upper()` on one character, for ASCII and the one-to-one Latin-1 mappings. */
  function UpperChar(c: char): char {
    if 'a' <= c <= 'z' then (c as int - 32) as char
    else if '\U{E0}' <= c <= '\U{FE}' && c != '\U{F7}' then (c as int - 32) as char
    else if c == '\U{FF}' then '\U{178}'
    else if c == '\U{B5}' then '\U{39C}'
    else c
  }

  /** `str.lower()` on one character, for ASCII and the Latin-1 capitals. */
  function LowerChar(c: char): char {
    if 'A' <= c <= 'Z' then (c as int + 32) as char
    else if '\U{C0}' <= c <= '\U{DE}' && c != '\U{D7}' then (c as int + 32) as char
    else if c == '\U{178}' then '\U{FF}'
    else c
  }

  function Upper(s: string): (r: string)
    ensures |r| == |s|
    ensures forall i :: 0 <= i < |s| ==> r[i] == UpperChar(s[i])
  {
    seq(|s|, i requires 0 <= i < |s| => UpperChar(s[i]))
  }

  function Lower(s: string): (r: string)
    ensures |r| == |s|
    ensures forall i :: 0 <= i < |s| ==> r[i] == LowerChar(s[i])
  {
    seq(|s|, i requires 0 <= i < |s| => LowerChar(s[i]))
  }

  /** Python's `sub in s`. */
  predicate Contains(s: string, sub: string) {
    exists i :: 0 <= i <= |s| && OccursAt(s, i, sub)
  }

  /** True when `p` occurs in `s` starting at index `i`. */
  predicate OccursAt(s: string, i: nat, p: string) {
    i + |p| <= |s| && s[i..i + |p|] == p
  }

  predicate AllSpace(s: string) {
    forall i :: 0 <= i < |s| ==> IsSpace(s[i])
  }

  /** Neither end of `s` is whitespace: what `strip()` leaves. */
  predicate NoEdgeSpace(s: string) {
    s == [] || (!IsSpace(s[0]) && !IsSpace(s[|s| - 1]))
  }

  /** Every whitespace character of `s` is a plain space that is not followed by
      more whitespace: what `re.sub(r'\s+', ' ', ...)` leaves. */
  predicate SingleSpaced(s: string) {
    forall i :: 0 <= i < |s| && IsSpace(s[i]) ==> s[i] == ' ' && (i + 1 < |s| ==> !IsSpace(s[i + 1]))
  }

  /** `s` with every whitespace character dropped: the visible content. */
  function Visible(s: string): (r: string)
    ensures |r| <= |s|
  {
    if s == [] then []
    else if IsSpace(s[0]) then Visible(s[1..])
    else [s[0]] + Visible(s[1..])
  }

  /** `lstrip()`: drops the leading whitespace and nothing else. */
  function TrimLeft(s: string): (r: string)
    ensures |r| <= |s| && r == s[|s| - |r|..]
    ensures forall i :: 0 <= i < |s| - |r| ==> IsSpace(s[i])
    ensures r == [] || !IsSpace(r[0])
  {
    if s != [] && IsSpace(s[0]) then
      var r := TrimLeft(s[1..]);
      assert s[1..][|s| - 1 - |r|..] == s[|s| - |r|..];
      assert forall i :: 1 <= i < |s| - |r| ==> s[i] == s[1..][i - 1];
      r
    else s
  }

  /** `rstrip()`: drops the trailing whitespace and nothing else. */
  function TrimRight(s: string): (r: string)
    ensures |r| <= |s| && r == s[..|r|]
    ensures forall i :: |r| <= i < |s| ==> IsSpace(s[i])
    ensures r == [] || !IsSpace(r[|r| - 1])
  {
    if s != [] && IsSpace(s[|s| - 1]) then TrimRight(s[..|s| - 1]) else s
  }

  /** `strip()`: removes the whitespace at both ends, and leaves none there. */
  function Strip(s: string): (r: string)
    ensures |r| <= |s|
    ensures NoEdgeSpace(r)
  {
    var t := TrimLeft(s);
    var r := TrimRight(t);
    assert r != [] ==> r[0] == t[0];
    r
  }

  /** What `strip()` leaves is a slice of `s`. */
  lemma StripSlice(s: string) returns (a: nat, b: nat)
    ensures a <= b <= |s| && Strip(s) == s[a..b]
  {
    var t := TrimLeft(s);
    a := |s| - |t|;
    var r := TrimRight(t);
    b := a + |r|;
    assert Strip(s) == r;
    assert t == s[a..] && r == t[..|r|];
    assert s[a..][..|r|] == s[a..b];
  }

  /** `re.sub(r'\s+', ' ', s)`: every maximal whitespace run becomes one space. */
  function Collapse(s: string): (r: string)
    ensures |r| <= |s|
    ensures SingleSpaced(r)
    ensures r == [] <==> s == []
    ensures r != [] ==> (IsSpace(r[0]) <==> IsSpace(s[0]))
    decreases |s|
  {
    if s == [] then []
    else if IsSpace(s[0]) then [' '] + Collapse(TrimLeft(s))
    else [s[0]] + Collapse(s[1..])
  }

  /** The collapse ends in whitespace exactly when its input does. */
  lemma {:induction false} CollapseLast(s: string)
    ensures var r := Collapse(s); s != [] ==> (IsSpace(r[|r| - 1]) <==> IsSpace(s[|s| - 1]))
    decreases |s|
  {
    if s == [] {
    } else if IsSpace(s[0]) {
      var t := TrimLeft(s);
      if t != [] {
        CollapseLast(t);
        assert t[|t| - 1] == s[|s| - 1];
      }
    } else if |s| > 1 {
      CollapseLast(s[1..]);
    }
  }

  /** Collapsing a stripped text leaves it stripped. */
  lemma {:induction false} CollapseKeepsEdges(s: string)
    requires NoEdgeSpace(s)
    ensures NoEdgeSpace(Collapse(s))
  {
    CollapseLast(s);
  }

  /** The collapse keeps the visible content of its input, character for character. */
  lemma {:induction false} CollapseVisible(s: string)
    ensures Visible(Collapse(s)) == Visible(s)
    decreases |s|
  {
    if s != [] {
      if IsSpace(s[0]) {
        var t := TrimLeft(s);
        CollapseVisible(t);
        VisibleOfSpaces(s[..|s| - |t|], t);
        assert s == s[..|s| - |t|] + t;
        assert ([' '] + Collapse(t))[1..] == Collapse(t);
      } else {
        CollapseVisible(s[1..]);
        assert ([s[0]] + Collapse(s[1..]))[1..] == Collapse(s[1..]);
      }
    }
  }

  lemma {:induction false} VisibleOfSpaces(w: string, t: string)
    requires AllSpace(w)
    ensures Visible(w + t) == Visible(t)
    decreases |w|
  {
    if w != [] {
      assert (w + t)[0] == w[0] && IsSpace(w[0]);
      assert Visible(w + t) == Visible((w + t)[1..]);
      assert (w + t)[1..] == w[1..] + t;
      VisibleOfSpaces(w[1..], t);
    } else {
      assert w + t == t;
    }
  }

  /** The layout of `s`: its visible characters in order, each paired with
      whether whitespace separates it from the visible character before it.
      Whitespace before the first or after the last visible character leaves no mark. */
  function Layout(s: string): seq<(char, bool)> {
    Gaps(s, false, false)
  }

  /** `Layout` from a point in the text: `seen` says a visible character came
      before, `gap` that whitespace has followed it since. */
  function Gaps(s: string, seen: bool, gap: bool): (r: seq<(char, bool)>)
    ensures |r| <= |s|
    decreases |s|
  {
    if s == [] then []
    else if IsSpace(s[0]) then Gaps(s[1..], seen, seen)
    else [(s[0], gap)] + Gaps(s[1..], true, false)
  }

  /** A run of whitespace counts once, however long it is. */
  lemma {:induction false} GapsSkipSpaces(s: string, seen: bool, gap: bool)
    requires s != [] && IsSpace(s[0])
    ensures Gaps(s, seen, gap) == Gaps(TrimLeft(s), seen, seen)
    decreases |s|
  {
    if |s| > 1 && IsSpace(s[1]) {
      GapsSkipSpaces(s[1..], seen, seen);
    }
  }

  /** Collapsing whitespace runs keeps the layout. */
  lemma {:induction false} GapsOfCollapse(s: string, seen: bool, gap: bool)
    ensures Gaps(Collapse(s), seen, gap) == Gaps(s, seen, gap)
    decreases |s|
  {
    if s != [] {
      if IsSpace(s[0]) {
        var t := TrimLeft(s);
        assert t == TrimLeft(s[1..]);
        GapsOfCollapse(t, seen, seen);
        GapsSkipSpaces(s, seen, gap);
        assert ([' '] + Collapse(t))[1..] == Collapse(t);
      } else {
        GapsOfCollapse(s[1..], true, false);
        assert ([s[0]] + Collapse(s[1..]))[1..] == Collapse(s[1..]);
      }
    }
  }

  lemma {:induction false} GapsOfSpaces(w: string, seen: bool, gap: bool)
    requires AllSpace(w)
    ensures Gaps(w, seen, gap) == []
    decreases |w|
  {
    if w != [] {
      GapsOfSpaces(w[1..], seen, seen);
    }
  }

  lemma {:induction false} GapsLeadingSpaces(w: string, t: string)
    requires AllSpace(w)
    ensures Gaps(w + t, false, false) == Gaps(t, false, false)
    decreases |w|
  {
    if w != [] {
      assert (w + t)[0] == w[0] && (w + t)[1..] == w[1..] + t;
      GapsLeadingSpaces(w[1..], t);
    } else {
      assert w + t == t;
    }
  }

  lemma {:induction false} GapsTrailingSpaces(t: string, w: string, seen: bool, gap: bool)
    requires AllSpace(w)
    ensures Gaps(t + w, seen, gap) == Gaps(t, seen, gap)
    decreases |t|
  {
    if t == [] {
      assert t + w == w;
      GapsOfSpaces(w, seen, gap);
    } else {
      assert (t + w)[0] == t[0] && (t + w)[1..] == t[1..] + w;
      if IsSpace(t[0]) {
        GapsTrailingSpaces(t[1..], w, seen, seen);
      } else {
        GapsTrailingSpaces(t[1..], w, true, false);
      }
    }
  }

  /** Stripping keeps the layout. */
  lemma StripLayout(s: string)
    ensures Layout(Strip(s)) == Layout(s)
  {
    TrimLeftLayout(s);
    TrimRightLayout(TrimLeft(s));
  }

  lemma TrimLeftLayout(s: string)
    ensures Layout(TrimLeft(s)) == Layout(s)
  {
    var t := TrimLeft(s);
    var lead := s[..|s| - |t|];
    assert s == lead + t;
    assert forall i :: 0 <= i < |lead| ==> lead[i] == s[i];
    GapsLeadingSpaces(lead, t);
  }

  lemma TrimRightLayout(s: string)
    ensures Layout(TrimRight(s)) == Layout(s)
  {
    var t := TrimRight(s);
    var trail := s[|t|..];
    assert s == t + trail;
    assert forall i :: 0 <= i < |trail| ==> trail[i] == s[|t| + i];
    GapsTrailingSpaces(t, trail, false, false);
  }

  lemma {:induction false} GapsNonEmpty(s: string, seen: bool, gap: bool, i: nat)
    requires i < |s| && !IsSpace(s[i])
    ensures Gaps(s, seen, gap) != []
    decreases i
  {
    if IsSpace(s[0]) {
      GapsNonEmpty(s[1..], seen, seen, i - 1);
    }
  }

  lemma SingleSpacedTail(s: string)
    requires s != [] && SingleSpaced(s)
    ensures SingleSpaced(s[1..])
  {
    assert forall i :: 0 <= i < |s| - 1 ==> s[1..][i] == s[i + 1];
  }

  /** After a visible character, a single space marks the next one as separated. */
  lemma GapsAfterSpace(d: string)
    requires SingleSpaced(d) && |d| >= 2 && IsSpace(d[0])
    ensures Gaps(d, true, false) != [] && Gaps(d, true, false)[0] == (d[1], true)
  {
  }

  /** Two single-spaced texts that end in a visible character and have the same
      gaps are equal; `seen` and `gap` rule out a leading space where the
      layout from that point could not show it. */
  lemma {:induction false} GapsDetermine(d1: string, d2: string, seen: bool, gap: bool)
    requires SingleSpaced(d1) && SingleSpaced(d2)
    requires d1 == [] || !IsSpace(d1[|d1| - 1])
    requires d2 == [] || !IsSpace(d2[|d2| - 1])
    requires !seen || gap ==> (d1 == [] || !IsSpace(d1[0])) && (d2 == [] || !IsSpace(d2[0]))
    requires Gaps(d1, seen, gap) == Gaps(d2, seen, gap)
    ensures d1 == d2
    decreases |d1|
  {
    if d1 == [] || d2 == [] {
    } else if !IsSpace(d1[0]) && !IsSpace(d2[0]) {
      SingleSpacedTail(d1);
      SingleSpacedTail(d2);
      var g1, g2 := Gaps(d1[1..], true, false), Gaps(d2[1..], true, false);
      assert ([(d1[0], gap)] + g1)[1..] == g1 && ([(d2[0], gap)] + g2)[1..] == g2;
      assert ([(d1[0], gap)] + g1)[0] == (d1[0], gap);
      GapsDetermine(d1[1..], d2[1..], true, false);
      assert d1 == [d1[0]] + d1[1..] && d2 == [d2[0]] + d2[1..];
    } else if IsSpace(d1[0]) && IsSpace(d2[0]) {
      SingleSpacedTail(d1);
      SingleSpacedTail(d2);
      assert seen && d1[0] == ' ' && d2[0] == ' ';
      GapsDetermine(d1[1..], d2[1..], true, true);
      assert d1[1..] == d2[1..];
      assert d1 == [' '] + d1[1..];
      assert d2 == [' '] + d2[1..];
    } else if IsSpace(d1[0]) {
      GapsAfterSpace(d1);
      assert false;
    } else {
      GapsAfterSpace(d2);
      assert false;
    }
  }

  /** A stripped, single-spaced text is determined by its layout. */
  lemma SameLayoutSame(d1: string, d2: string)
    requires NoEdgeSpace(d1) && SingleSpaced(d1)
    requires NoEdgeSpace(d2) && SingleSpaced(d2)
    requires Layout(d1) == Layout(d2)
    ensures d1 == d2
  {
    GapsDetermine(d1, d2, false, false);
  }

  /** Python's `s.replace(p, '')`: removes the non-overlapping occurrences of `p`,
      scanning from the left. */
  function RemoveAll(s: string, p: string): (r: string)
    requires |p| > 0
    ensures |r| <= |s|
    ensures !Contains(s, p) ==> r == s
    ensures Contains(s, p) ==> |r| <= |s| - |p|
    decreases |s|
  {
    if |s| < |p| then s
    else if s[..|p|] == p then
      assert OccursAt(s, 0, p);
      RemoveAll(s[|p|..], p)
    else
      TailContains(s, p);
      [s[0]] + RemoveAll(s[1..], p)
  }

  /** When `p` does not start `s`, it occurs in `s` exactly when it occurs in `s[1..]`. */
  lemma TailContains(s: string, p: string)
    requires |s| >= |p| > 0 && s[..|p|] != p
    ensures Contains(s, p) <==> Contains(s[1..], p)
  {
    if Contains(s[1..], p) {
      var i :| 0 <= i <= |s[1..]| && OccursAt(s[1..], i, p);
      assert s[1..][i..i + |p|] == s[i + 1..i + 1 + |p|];
      assert OccursAt(s, i + 1, p);
    }
    if Contains(s, p) {
      var i :| 0 <= i <= |s| && OccursAt(s, i, p);
      assert i != 0;
      assert s[1..][i - 1..i - 1 + |p|] == s[i..i + |p|];
      assert OccursAt(s[1..], i - 1, p);
    }
  }

  /** Python's `s.split(c)[0]`: the part of `s` before the first `c`. */
  function Before(s: string, c: char): (r: string)
    ensures |r| <= |s| && r == s[..|r|]
    ensures c !in r
    ensures |r| < |s| ==> s[|r|] == c
  {
    if s == [] then []
    else if s[0] == c then []
    else [s[0]] + Before(s[1..], c)
  }

  /** Splitting at a character the text does not hold keeps the whole text. */
  lemma {:induction false} BeforeAbsent(s: string, c: char)
    requires c !in s
    ensures Before(s, c) == s
    decreases |s|
  {
    if s != [] {
      assert s[1..] == s[|[s[0]]|..];
      BeforeAbsent(s[1..], c);
    }
  }

  /** What `strip()` leaves is part of its input. */
  lemma StripWithin(s: string)
    ensures Contains(s, Strip(s))
  {
    var a, b := StripSlice(s);
    assert OccursAt(s, a, Strip(s));
  }

  /** `strip()` adds no character. */
  lemma StripKeepsOut(s: string, c: char)
    requires c !in s
    ensures c !in Strip(s)
  {
    var a, b := StripSlice(s);
    var r := Strip(s);
    forall k | 0 <= k < |r| ensures r[k] != c {
      assert r[k] == s[a + k];
    }
  }

  /** What occurs in a prefix occurs in the whole text. */
  lemma ContainsFromPrefix(s: string, n: nat, sub: string)
    requires n <= |s| && Contains(s[..n], sub)
    ensures Contains(s, sub)
  {
    var i :| 0 <= i <= n && OccursAt(s[..n], i, sub);
    assert s[i..i + |sub|] == s[..n][i..i + |sub|];
    assert OccursAt(s, i, sub);
  }

  /** Stripping a text that has no edge whitespace changes nothing. */
  lemma StripStripped(s: string)
    requires NoEdgeSpace(s)
    ensures Strip(s) == s
  {
    assert TrimLeft(s) == s;
  }

  /** Python's `s.replace(a, b)` for single characters. */
  function ReplaceChar(s: string, a: char, b: char): (r: string)
    ensures |r| == |s|
    ensures forall i :: 0 <= i < |s| ==> r[i] == (if s[i] == a then b else s[i])
  {
    seq(|s|, i requires 0 <= i < |s| => if s[i] == a then b else s[i])
  }

  /** Length of the longest run of characters satisfying `p` that starts at `i`. */
  function RunLength(s: string, i: nat, p: char -> bool): (n: nat)
    requires i <= |s|
    ensures i + n <= |s|
    ensures forall k :: i <= k < i + n ==> p(s[k])
    ensures i + n == |s| || !p(s[i + n])
    decreases |s| - i
  {
    if i < |s| && p(s[i]) then 1 + RunLength(s, i + 1, p) else 0
  }

  predicate AllDigits(s: string) {
    forall i :: 0 <= i < |s| ==> IsDigit(s[i])
  }

  /** Visible content distributes over concatenation. */
  lemma {:induction false} VisibleConcat(a: string, b: string)
    ensures Visible(a + b) == Visible(a) + Visible(b)
    decreases |a|
  {
    if a == [] {
      assert a + b == b;
    } else {
      assert (a + b)[0] == a[0];
      assert (a + b)[1..] == a[1..] + b;
      VisibleConcat(a[1..], b);
    }
  }

  /** `lstrip()` removes whitespace only. */
  lemma {:induction false} TrimLeftVisible(s: string)
    ensures Visible(TrimLeft(s)) == Visible(s)
    decreases |s|
  {
    if s != [] && IsSpace(s[0]) {
      TrimLeftVisible(s[1..]);
    }
  }

  /** `rstrip()` removes whitespace only. */
  lemma {:induction false} TrimRightVisible(s: string)
    ensures Visible(TrimRight(s)) == Visible(s)
    decreases |s|
  {
    if s != [] && IsSpace(s[|s| - 1]) {
      var front := s[..|s| - 1];
      TrimRightVisible(front);
      assert s == front + [s[|s| - 1]];
      VisibleConcat(front, [s[|s| - 1]]);
      assert Visible([s[|s| - 1]]) == [];
    }
  }

  /** `strip()` removes whitespace only: the visible content is unchanged. */
  lemma StripVisible(s: string)
    ensures Visible(Strip(s)) == Visible(s)
  {
    TrimLeftVisible(s);
    TrimRightVisible(TrimLeft(s));
  }

  /** `upper()` is idempotent. */
  lemma UpperIdempotent(s: string)
    ensures Upper(Upper(s)) == Upper(s)
  {
  }

  /** `upper()` leaves whitespace where it is. */
  lemma UpperKeepsSpace(c: char)
    ensures IsSpace(UpperChar(c)) <==> IsSpace(c)
  {
  }

  /** Surrounding whitespace does not change what `strip()` returns. */
  lemma {:induction false} StripPadding(w1: string, t: string, w2: string)
    requires AllSpace(w1) && AllSpace(w2)
    ensures Strip(w1 + t + w2) == Strip(t)
  {
    assert w1 + t + w2 == w1 + (t + w2);
    StripLeadingPadding(w1, t + w2);
    StripTrailingPadding(t, w2);
  }

  lemma StripLeadingPadding(w: string, t: string)
    requires AllSpace(w)
    ensures Strip(w + t) == Strip(t)
  {
    TrimLeftPadding(w, t);
  }

  lemma StripTrailingPadding(t: string, w: string)
    requires AllSpace(w)
    ensures Strip(t + w) == Strip(t)
  {
    var v := TrimLeft(t);
    if v == [] {
      assert AllSpace(t);
      AllSpaceConcat(t, w);
      TrimLeftAllSpace(t + w);
    } else {
      TrimLeftKeepsTail(t, w);
      TrimRightPadding(v, w);
    }
  }

  lemma {:induction false} TrimLeftPadding(w: string, t: string)
    requires AllSpace(w)
    ensures TrimLeft(w + t) == TrimLeft(t)
    decreases |w|
  {
    if w == [] {
      assert w + t == t;
    } else {
      assert (w + t)[0] == w[0];
      assert (w + t)[1..] == w[1..] + t;
      TrimLeftPadding(w[1..], t);
    }
  }

  lemma AllSpaceConcat(a: string, b: string)
    requires AllSpace(a) && AllSpace(b)
    ensures AllSpace(a + b)
  {
  }

  lemma {:induction false} TrimLeftAllSpace(s: string)
    requires AllSpace(s)
    ensures TrimLeft(s) == []
    decreases |s|
  {
    if s != [] {
      TrimLeftAllSpace(s[1..]);
    }
  }

  lemma {:induction false} TrimLeftKeepsTail(t: string, w: string)
    requires TrimLeft(t) != []
    ensures TrimLeft(t + w) == TrimLeft(t) + w
    decreases |t|
  {
    assert t != [];
    assert (t + w)[0] == t[0];
    if IsSpace(t[0]) {
      assert (t + w)[1..] == t[1..] + w;
      TrimLeftKeepsTail(t[1..], w);
    }
  }

  lemma {:induction false} TrimRightPadding(t: string, w: string)
    requires AllSpace(w)
    ensures TrimRight(t + w) == TrimRight(t)
    decreases |w|
  {
    if w == [] {
      assert t + w == t;
    } else {
      var tw := t + w;
      assert tw[|tw| - 1] == w[|w| - 1];
      assert tw[..|tw| - 1] == t + w[..|w| - 1];
      TrimRightPadding(t, w[..|w| - 1]);
    }
  }
}
