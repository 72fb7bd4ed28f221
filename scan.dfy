/**
 The three fixed patterns the icon loader matches against a fetched sprite
 sheet, written as direct scanners rather than through a regular-expression
 engine.  Each pattern is a literal followed by one or two captures of the
 shape `([^"]+)"`.  Because `[^"]+` is greedy and must be followed by a quote,
 such a capture is exactly the longest quote-free run at that position, and
 only when that run is non-empty and closed by a quote.  `String.match`
 without the global flag reports the leftmost position where the pattern
 matches; the scanners below are proved to return exactly that match.
 */
module Scan {

  datatype Option<+T> = None | Some(value: T)

  const QUOTE: char := '"'

  /** Literal that opens `<svg width="([^"]+)" height="([^"]+)"`. */
  const SVG_WIDTH_OPEN := "<svg width=\""
  /** Literal between the two captures of the width/height pattern; its first
      character is the quote that closes the width capture. */
  const HEIGHT_OPEN := "\" height=\""

  // ---------------------------------------------------------------------------
  // Reference definitions: what it means for a pattern to match at a position.
  // ---------------------------------------------------------------------------

  /** From position j, s holds the non-empty quote-free value v followed by a
      closing quote: what `([^"]+)"` matches at j, with v its capture. */
  predicate QuotedAt(s: string, j: nat, v: string) {
    0 < |v| && j + |v| < |s| && s[j..j + |v|] == v && s[j + |v|] == QUOTE && QUOTE !in v
  }

  /** The pattern `lit([^"]+)"` matches at position i with capture v. */
  predicate AttrAt(s: string, i: nat, lit: string, v: string) {
    i + |lit| <= |s| && s[i..i + |lit|] == lit && QuotedAt(s, i + |lit|, v)
  }

  /** `lit([^"]+)"` matches at i with capture v, and at no earlier position. */
  ghost predicate FirstAttr(s: string, lit: string, i: nat, v: string) {
    AttrAt(s, i, lit, v) && forall j: nat, u :: j < i ==> !AttrAt(s, j, lit, u)
  }

  /** `lit([^"]+)"` matches somewhere in s. */
  ghost predicate HasAttr(s: string, lit: string) {
    exists i: nat, v :: AttrAt(s, i, lit, v)
  }

  /** `<svg width="([^"]+)" height="([^"]+)"` matches at i with captures w, h. */
  predicate SizeAt(s: string, i: nat, w: string, h: string) {
    AttrAt(s, i, SVG_WIDTH_OPEN, w) && AttrAt(s, i + |SVG_WIDTH_OPEN| + |w|, HEIGHT_OPEN, h)
  }

  /** The width/height pattern matches at i with captures w, h, and at no
      earlier position. */
  ghost predicate FirstSize(s: string, i: nat, w: string, h: string) {
    SizeAt(s, i, w, h) && forall j: nat, w', h' :: j < i ==> !SizeAt(s, j, w', h')
  }

  /** The width/height pattern matches somewhere in s. */
  ghost predicate HasSize(s: string) {
    exists i: nat, w, h :: SizeAt(s, i, w, h)
  }

  // ---------------------------------------------------------------------------
  // Scanners.
  // ---------------------------------------------------------------------------

  /** Length of the longest run of quote-free characters of s starting at j. */
  function RunLength(s: string, j: nat): (n: nat)
    requires j <= |s|
    ensures j + n <= |s|
    ensures forall k :: j <= k < j + n ==> s[k] != QUOTE
    ensures j + n < |s| ==> s[j + n] == QUOTE
    decreases |s| - j
  {
    if j == |s| || s[j] == QUOTE then 0 else 1 + RunLength(s, j + 1)
  }

  /** Any value that `([^"]+)"` can capture at j is the longest quote-free run there. */
  lemma QuotedIsRun(s: string, j: nat, v: string)
    requires j <= |s| && QuotedAt(s, j, v)
    ensures v == s[j..j + RunLength(s, j)]
  {
  }

  /** The capture of `([^"]+)"` at position j, if that pattern matches there. */
  function QuotedValue(s: string, j: nat): (r: Option<string>)
    requires j <= |s|
    ensures forall v :: QuotedAt(s, j, v) <==> r == Some(v)
  {
    var n := RunLength(s, j);
    assert forall v :: QuotedAt(s, j, v) ==> v == s[j..j + n] by {
      forall v | QuotedAt(s, j, v) ensures v == s[j..j + n] {
        QuotedIsRun(s, j, v);
      }
    }
    if 0 < n && j + n < |s| then
      Some(s[j..j + n])
    else
      None
  }

  /** The capture of `lit([^"]+)"` at position i, if that pattern matches there. */
  function AttrValue(s: string, i: nat, lit: string): (r: Option<string>)
    ensures forall v :: AttrAt(s, i, lit, v) <==> r == Some(v)
  {
    if i + |lit| <= |s| && s[i..i + |lit|] == lit then QuotedValue(s, i + |lit|) else None
  }

  datatype Match = Match(pos: nat, text: string)

  /** The leftmost match of `lit([^"]+)"` at or after position `from`. */
  function FindAttr(s: string, lit: string, from: nat): (r: Option<Match>)
    requires from <= |s|
    ensures r.Some? ==> from <= r.value.pos && AttrAt(s, r.value.pos, lit, r.value.text)
    ensures r.Some? ==> forall i: nat, v :: from <= i < r.value.pos ==> !AttrAt(s, i, lit, v)
    ensures r.None? ==> forall i: nat, v :: from <= i ==> !AttrAt(s, i, lit, v)
    decreases |s| - from
  {
    match AttrValue(s, from, lit)
    case Some(v) => Some(Match(from, v))
    case None =>
      if from == |s| then None else FindAttr(s, lit, from + 1)
  }

  /** What `s.match(/lit([^"]+)"/)` finds: the scanner agrees with the
      reference definition of the leftmost match. */
  lemma FindAttrIsFirst(s: string, lit: string)
    ensures FindAttr(s, lit, 0).None? <==> !HasAttr(s, lit)
    ensures forall i: nat, v :: FirstAttr(s, lit, i, v) <==> FindAttr(s, lit, 0) == Some(Match(i, v))
  {
    var r := FindAttr(s, lit, 0);
    forall i: nat, v | FirstAttr(s, lit, i, v) ensures r == Some(Match(i, v)) {
      assert AttrValue(s, i, lit) == Some(v) == Some(r.value.text);
    }
  }

  datatype SizeMatch = SizeMatch(pos: nat, width: string, height: string)

  /** The captures of the width/height pattern at position i, if it matches there. */
  function SizeValue(s: string, i: nat): (r: Option<(string, string)>)
    ensures forall w, h :: SizeAt(s, i, w, h) <==> r == Some((w, h))
  {
    match AttrValue(s, i, SVG_WIDTH_OPEN)
    case None => None
    case Some(w) =>
      match AttrValue(s, i + |SVG_WIDTH_OPEN| + |w|, HEIGHT_OPEN)
      case None => None
      case Some(h) => Some((w, h))
  }

  /** The leftmost match of the width/height pattern at or after `from`. */
  function FindSize(s: string, from: nat): (r: Option<SizeMatch>)
    requires from <= |s|
    ensures r.Some? ==> from <= r.value.pos && SizeAt(s, r.value.pos, r.value.width, r.value.height)
    ensures r.Some? ==> forall i: nat, w, h :: from <= i < r.value.pos ==> !SizeAt(s, i, w, h)
    ensures r.None? ==> forall i: nat, w, h :: from <= i ==> !SizeAt(s, i, w, h)
    decreases |s| - from
  {
    match SizeValue(s, from)
    case Some((w, h)) => Some(SizeMatch(from, w, h))
    case None =>
      if from == |s| then None else FindSize(s, from + 1)
  }

  /** What `s.match(widthHeightRe)` finds: the scanner agrees with the
      reference definition of the leftmost match. */
  lemma FindSizeIsFirst(s: string)
    ensures FindSize(s, 0).None? <==> !HasSize(s)
    ensures forall i: nat, w, h :: FirstSize(s, i, w, h) <==> FindSize(s, 0) == Some(SizeMatch(i, w, h))
  {
    var r := FindSize(s, 0);
    forall i: nat, w, h | FirstSize(s, i, w, h) ensures r == Some(SizeMatch(i, w, h)) {
      assert SizeValue(s, i) == Some((w, h)) == Some((r.value.width, r.value.height));
    }
  }

  // ---------------------------------------------------------------------------
  // `str.replace('px', '')`: a string pattern replaces its first occurrence only.
  // ---------------------------------------------------------------------------

  /** "px" occurs in s at position k. */
  predicate PxAt(s: string, k: nat) {
    k + 1 < |s| && s[k] == 'p' && s[k + 1] == 'x'
  }

  /** Position of the first "px" in s, as `s.indexOf('px')` finds it. */
  function FirstPx(s: string): (k: Option<nat>)
    ensures k.None? ==> forall i: nat :: !PxAt(s, i)
    ensures k.Some? ==> PxAt(s, k.value) && forall i: nat :: i < k.value ==> !PxAt(s, i)
  {
    if |s| < 2 then None
    else if PxAt(s, 0) then Some(0)
    else
      var t := s[1..];
      assert forall i: nat :: 0 < i ==> PxAt(s, i) == PxAt(t, i - 1);
      match FirstPx(t)
      case None => None
      case Some(k) => Some(k + 1)
  }

  /** "px" occurs somewhere in s. */
  ghost predicate HasPx(s: string) {
    exists k: nat :: PxAt(s, k)
  }

  /** t is s with the two characters of its first "px" removed, or s itself
      when s has no "px". */
  ghost predicate PxRemoved(s: string, t: string) {
    if HasPx(s) then
      exists k: nat :: PxAt(s, k) && (forall j: nat :: j < k ==> !PxAt(s, j)) && t == s[..k] + s[k + 2..]
    else
      t == s
  }

  /** `s.replace('px', '')`: s with its first "px" removed, or s itself when it has none. */
  function StripFirstPx(s: string): (r: string)
    ensures (forall k: nat :: !PxAt(s, k)) ==> r == s
    ensures forall k: nat :: PxAt(s, k) && (forall j: nat :: j < k ==> !PxAt(s, j)) ==> r == s[..k] + s[k + 2..]
    ensures |r| == if HasPx(s) then |s| - 2 else |s|
    ensures PxRemoved(s, r)
  {
    match FirstPx(s)
    case None => s
    case Some(k) => s[..k] + s[k + 2..]
  }
}
