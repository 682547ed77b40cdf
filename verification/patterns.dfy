/**
 * Hand-rolled scanners for the regular expressions of scraper.py. Each pattern
 * is stated as a predicate "the pattern matches at index i" (the independent
 * description of the regex) and a scanner returns the capture group of the
 * leftmost match, as `re.search(...).group(1)` does. None of the patterns needs
 * real backtracking: every greedy repetition is followed by a character its
 * class cannot contain, so the maximal run is the only run that can succeed.
 */
module Patterns {
  import opened Wrappers
  import opened Text

  /** The least position in `from..last` satisfying `m`, if any. */
  function FirstMatch(from: nat, last: nat, m: nat -> bool): (r: Option<nat>)
    ensures r.Some? ==> from <= r.value <= last && m(r.value)
    ensures r.Some? ==> forall j :: from <= j < r.value ==> !m(j)
    ensures r.None? ==> forall j :: from <= j <= last ==> !m(j)
    decreases last + 1 - from
  {
    if from > last then None
    else if m(from) then Some(from)
    else FirstMatch(from + 1, last, m)
  }

  /** A position that satisfies `m` with none before it is the one `FirstMatch` finds. */
  lemma FirstMatchUnique(last: nat, m: nat -> bool, i: nat)
    requires i <= last && m(i)
    requires forall j: nat :: j < i ==> !m(j)
    ensures FirstMatch(0, last, m) == Some(i)
  {
  }

  /** `p` occurs at `i` ignoring case; `p` is given in lower case. */
  predicate OccursAtIgnoreCase(s: string, i: nat, p: string) {
    i + |p| <= |s| && Lower(s[i..i + |p|]) == p
  }

  // ---------------------------------------------------------------------
  // inciCodigo=(\d+)

  const CodigoKey: string := "inciCodigo="

  predicate CodigoAt(s: string, i: nat) {
    OccursAt(s, i, CodigoKey) && RunLength(s, i + |CodigoKey|, IsDigit) > 0
  }

  /** The code pattern matches at `i` and nowhere before. */
  predicate LeftmostCodigo(s: string, i: nat) {
    CodigoAt(s, i) && forall j :: 0 <= j < i ==> !CodigoAt(s, j)
  }

  /** Group 1 of `re.search(r'inciCodigo=(\d+)', s)`: the digits of the leftmost match. */
  function SearchCodigo(s: string): (r: Option<string>)
    ensures r.None? <==> forall i :: 0 <= i <= |s| ==> !CodigoAt(s, i)
    ensures r.Some? ==> r.value != [] && AllDigits(r.value) && Contains(s, CodigoKey + r.value)
    ensures forall i :: LeftmostCodigo(s, i) ==> r == Some(CodigoGroup(s, i))
  {
    var m := (i: nat) => CodigoAt(s, i);
    match FirstMatch(0, |s|, m)
    case None =>
      forall i | 0 <= i <= |s| ensures !CodigoAt(s, i) {
        assert !m(i);
      }
      None
    case Some(i) =>
      assert m(i);
      forall i' | LeftmostCodigo(s, i') ensures i' == i {
        FirstMatchUnique(|s|, m, i');
      }
      Some(CodigoGroup(s, i))
  }

  /** The digits captured by a match of the code pattern at `i`: the whole digit run after the key. */
  function CodigoGroup(s: string, i: nat): (d: string)
    requires CodigoAt(s, i)
    ensures d != [] && AllDigits(d) && Contains(s, CodigoKey + d)
    ensures var start := i + |CodigoKey|;
      && start + |d| <= |s| && d == s[start..start + |d|]
      && (start + |d| == |s| || !IsDigit(s[start + |d|]))
  {
    var start := i + |CodigoKey|;
    var d := s[start..start + RunLength(s, start, IsDigit)];
    assert s[i..start] == CodigoKey;
    assert s[i..start + |d|] == s[i..start] + d;
    assert OccursAt(s, i, CodigoKey + d);
    d
  }

  // ---------------------------------------------------------------------
  // /(\d+)$   (`$` also matches just before a final newline)

  /** What `$` sees as the end: `s` without one final newline. */
  function EndOfText(s: string): (t: string)
    ensures t == s || (s == t + "\n")
  {
    if s != [] && s[|s| - 1] == '\n' then s[..|s| - 1] else s
  }

  /** Number of digits at the end of `t`. */
  function TrailingDigits(t: string): (k: nat)
    ensures k <= |t|
    ensures forall i :: |t| - k <= i < |t| ==> IsDigit(t[i])
    ensures k == |t| || !IsDigit(t[|t| - k - 1])
  {
    if t != [] && IsDigit(t[|t| - 1]) then 1 + TrailingDigits(t[..|t| - 1]) else 0
  }

  /** The pattern matches at `i`: a slash there, then only digits (at least one) up to the end. */
  predicate SlashCodeAt(t: string, i: nat) {
    i + 1 < |t| && t[i] == '/' && AllDigits(t[i + 1..])
  }

  /** `t` ends in a slash followed by `code`. */
  predicate EndsWithCode(t: string, code: string) {
    |code| < |t| && t[|t| - |code| - 1] == '/' && t[|t| - |code|..] == code
  }

  /** Group 1 of `re.search(r'/(\d+)$', s)`. */
  function SearchTrailingCode(s: string): (r: Option<string>)
    ensures r.None? <==> forall i :: 0 <= i < |EndOfText(s)| ==> !SlashCodeAt(EndOfText(s), i)
    ensures r.Some? ==> r.value != [] && AllDigits(r.value)
    ensures r.Some? ==> EndsWithCode(EndOfText(s), r.value)
  {
    var t := EndOfText(s);
    var k := TrailingDigits(t);
    if k > 0 && |t| > k && t[|t| - k - 1] == '/' then
      var code := t[|t| - k..];
      assert forall j :: 0 <= j < k ==> code[j] == t[|t| - k + j];
      assert SlashCodeAt(t, |t| - k - 1);
      Some(code)
    else
      forall i | 0 <= i < |t| && SlashCodeAt(t, i)
        ensures false
      {
      }
      None
  }

  // ---------------------------------------------------------------------
  // \d{2}/\d{2}/\d{4}

  predicate DateShaped(d: string) {
    && |d| == 10
    && IsDigit(d[0]) && IsDigit(d[1]) && d[2] == '/'
    && IsDigit(d[3]) && IsDigit(d[4]) && d[5] == '/'
    && IsDigit(d[6]) && IsDigit(d[7]) && IsDigit(d[8]) && IsDigit(d[9])
  }

  predicate DateAt(s: string, i: nat) {
    i + 10 <= |s| && DateShaped(s[i..i + 10])
  }

  /** The date pattern matches at `i` and nowhere before. */
  predicate LeftmostDate(s: string, i: nat) {
    DateAt(s, i) && forall j :: 0 <= j < i ==> !DateAt(s, j)
  }

  /** The whole match of `re.search(r'\d{2}/\d{2}/\d{4}', s)`. */
  function SearchDate(s: string): (r: Option<string>)
    ensures r.None? <==> forall i :: 0 <= i <= |s| ==> !DateAt(s, i)
    ensures r.Some? ==> DateShaped(r.value) && Contains(s, r.value)
    ensures forall i :: LeftmostDate(s, i) ==> r == Some(DateGroup(s, i))
  {
    var m := (i: nat) => DateAt(s, i);
    match FirstMatch(0, |s|, m)
    case None =>
      forall i | 0 <= i <= |s| ensures !DateAt(s, i) {
        assert !m(i);
      }
      None
    case Some(i) =>
      assert m(i);
      forall i' | LeftmostDate(s, i') ensures i' == i {
        FirstMatchUnique(|s|, m, i');
      }
      Some(DateGroup(s, i))
  }

  /** The text of a date match at `i`. */
  function DateGroup(s: string, i: nat): (d: string)
    requires DateAt(s, i)
    ensures DateShaped(d) && Contains(s, d)
    ensures d == s[i..i + 10]
  {
    assert OccursAt(s, i, s[i..i + 10]);
    s[i..i + 10]
  }

  // ---------------------------------------------------------------------
  // nivel_(\w+)\.gif

  const NivelPrefix: string := "nivel_"
  const GifSuffix: string := ".gif"

  predicate NivelAt(s: string, i: nat) {
    && OccursAt(s, i, NivelPrefix)
    && var w := RunLength(s, i + |NivelPrefix|, IsWordChar);
    && w > 0
    && OccursAt(s, i + |NivelPrefix| + w, GifSuffix)
  }

  /** The level pattern matches at `i` and nowhere before. */
  predicate LeftmostNivel(s: string, i: nat) {
    NivelAt(s, i) && forall j :: 0 <= j < i ==> !NivelAt(s, j)
  }

  /** Group 1 of `re.search(r'nivel_(\w+)\.gif', s)`. */
  function SearchNivel(s: string): (r: Option<string>)
    ensures r.None? <==> forall i :: 0 <= i <= |s| ==> !NivelAt(s, i)
    ensures r.Some? ==> r.value != [] && (forall k :: 0 <= k < |r.value| ==> IsWordChar(r.value[k]))
    ensures r.Some? ==> Contains(s, NivelPrefix + r.value + GifSuffix)
    ensures forall i :: LeftmostNivel(s, i) ==> r == Some(NivelGroup(s, i))
  {
    var m := (i: nat) => NivelAt(s, i);
    match FirstMatch(0, |s|, m)
    case None =>
      forall i | 0 <= i <= |s| ensures !NivelAt(s, i) {
        assert !m(i);
      }
      None
    case Some(i) =>
      assert m(i);
      forall i' | LeftmostNivel(s, i') ensures i' == i {
        FirstMatchUnique(|s|, m, i');
      }
      Some(NivelGroup(s, i))
  }

  /** The word captured by a match of the level pattern at `i`. */
  function NivelGroup(s: string, i: nat): (w: string)
    requires NivelAt(s, i)
    ensures w != [] && (forall k :: 0 <= k < |w| ==> IsWordChar(w[k]))
    ensures Contains(s, NivelPrefix + w + GifSuffix)
  {
    var start := i + |NivelPrefix|;
    var w := s[start..start + RunLength(s, start, IsWordChar)];
    assert s[i..start] == NivelPrefix;
    assert s[start + |w|..start + |w| + |GifSuffix|] == GifSuffix;
    assert s[i..start + |w| + |GifSuffix|] == s[i..start] + w + s[start + |w|..start + |w| + |GifSuffix|];
    assert OccursAt(s, i, NivelPrefix + w + GifSuffix);
    w
  }

  /** The capture is the whole run of `IsWordChar` characters after the keyword, not a prefix of it. */
  lemma NivelGroupMaximal(s: string, i: nat)
    requires NivelAt(s, i)
    ensures var w, start := NivelGroup(s, i), i + |NivelPrefix|;
      && start + |w| <= |s| && w == s[start..start + |w|]
      && (start + |w| == |s| || !IsWordChar(s[start + |w|]))
  {
  }

  // ---------------------------------------------------------------------
  // km\s*([\d.,]+)   with re.IGNORECASE

  /** The class `[\d.,]` of a kilometre marker. */
  predicate IsMarkerChar(c: char) {
    IsDigit(c) || c == '.' || c == ','
  }

  predicate KmAt(s: string, i: nat) {
    && OccursAtIgnoreCase(s, i, "km")
    && var sp := RunLength(s, i + 2, IsSpace);
    RunLength(s, i + 2 + sp, IsMarkerChar) > 0
  }

  /** The kilometre pattern matches at `i` and nowhere before. */
  predicate LeftmostKm(s: string, i: nat) {
    KmAt(s, i) && forall j :: 0 <= j < i ==> !KmAt(s, j)
  }

  /** Group 1 of `re.search(r'km\s*([\d.,]+)', s, re.IGNORECASE)`. */
  function SearchKm(s: string): (r: Option<string>)
    ensures r.None? <==> forall i :: 0 <= i <= |s| ==> !KmAt(s, i)
    ensures r.Some? ==> r.value != [] && (forall k :: 0 <= k < |r.value| ==> IsMarkerChar(r.value[k]))
    ensures r.Some? ==> Contains(s, r.value)
    ensures forall i :: LeftmostKm(s, i) ==> r == Some(KmGroup(s, i))
  {
    var m := (i: nat) => KmAt(s, i);
    match FirstMatch(0, |s|, m)
    case None =>
      forall i | 0 <= i <= |s| ensures !KmAt(s, i) {
        assert !m(i);
      }
      None
    case Some(i) =>
      assert m(i);
      forall i' | LeftmostKm(s, i') ensures i' == i {
        FirstMatchUnique(|s|, m, i');
      }
      Some(KmGroup(s, i))
  }

  /** The marker captured by a match of the kilometre pattern at `i`. */
  function KmGroup(s: string, i: nat): (w: string)
    requires KmAt(s, i)
    ensures w != [] && (forall k :: 0 <= k < |w| ==> IsMarkerChar(w[k]))
    ensures Contains(s, w)
  {
    var start := i + 2 + RunLength(s, i + 2, IsSpace);
    var n := RunLength(s, start, IsMarkerChar);
    assert OccursAt(s, start, s[start..start + n]);
    s[start..start + n]
  }

  /** The capture is the whole run of `IsMarkerChar` characters after the keyword, not a prefix of it. */
  lemma KmGroupMaximal(s: string, i: nat)
    requires KmAt(s, i)
    ensures var w, start := KmGroup(s, i), i + 2 + RunLength(s, i + 2, IsSpace);
      && start + |w| <= |s| && w == s[start..start + |w|]
      && (start + |w| == |s| || !IsMarkerChar(s[start + |w|]))
  {
  }

  // ---------------------------------------------------------------------
  // sentido\s+(\w+)   with re.IGNORECASE

  predicate SentidoAt(s: string, i: nat) {
    && OccursAtIgnoreCase(s, i, "sentido")
    && var sp := RunLength(s, i + 7, IsSpace);
    && sp > 0
    && RunLength(s, i + 7 + sp, IsWordChar) > 0
  }

  /** The direction pattern matches at `i` and nowhere before. */
  predicate LeftmostSentido(s: string, i: nat) {
    SentidoAt(s, i) && forall j :: 0 <= j < i ==> !SentidoAt(s, j)
  }

  /** Group 1 of `re.search(r'sentido\s+(\w+)', s, re.IGNORECASE)`. */
  function SearchSentido(s: string): (r: Option<string>)
    ensures r.None? <==> forall i :: 0 <= i <= |s| ==> !SentidoAt(s, i)
    ensures r.Some? ==> r.value != [] && (forall k :: 0 <= k < |r.value| ==> IsWordChar(r.value[k]))
    ensures r.Some? ==> Contains(s, r.value)
    ensures forall i :: LeftmostSentido(s, i) ==> r == Some(SentidoGroup(s, i))
  {
    var m := (i: nat) => SentidoAt(s, i);
    match FirstMatch(0, |s|, m)
    case None =>
      forall i | 0 <= i <= |s| ensures !SentidoAt(s, i) {
        assert !m(i);
      }
      None
    case Some(i) =>
      assert m(i);
      forall i' | LeftmostSentido(s, i') ensures i' == i {
        FirstMatchUnique(|s|, m, i');
      }
      Some(SentidoGroup(s, i))
  }

  /** The word captured by a match of the direction pattern at `i`. */
  function SentidoGroup(s: string, i: nat): (w: string)
    requires SentidoAt(s, i)
    ensures w != [] && (forall k :: 0 <= k < |w| ==> IsWordChar(w[k]))
    ensures Contains(s, w)
  {
    var start := i + 7 + RunLength(s, i + 7, IsSpace);
    var n := RunLength(s, start, IsWordChar);
    assert OccursAt(s, start, s[start..start + n]);
    s[start..start + n]
  }

  /** The capture is the whole run of `IsWordChar` characters after the keyword, not a prefix of it. */
  lemma SentidoGroupMaximal(s: string, i: nat)
    requires SentidoAt(s, i)
    ensures var w, start := SentidoGroup(s, i), i + 7 + RunLength(s, i + 7, IsSpace);
      && start + |w| <= |s| && w == s[start..start + |w|]
      && (start + |w| == |s| || !IsWordChar(s[start + |w|]))
  {
  }
}
