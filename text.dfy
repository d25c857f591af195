/** String helpers the components use: ECMAScript's `\s` class, `toLowerCase`,
    `includes`, and the slug expression `s.toLowerCase().replace(/\s+/g, sep)`
    that recurs across the site (element ids, analytics event names). */
module Text {

  /** A character of ECMAScript's `\s` class (white space and line terminators). */
  predicate IsSpace(c: char) {
    c == ' ' || c == '\t' || c == '\n' || c == '\r' || c == '\U{000B}' || c == '\U{000C}' ||
    c == '\U{00A0}' || c == '\U{1680}' || ('\U{2000}' <= c <= '\U{200A}') ||
    c == '\U{2028}' || c == '\U{2029}' || c == '\U{202F}' || c == '\U{205F}' ||
    c == '\U{3000}' || c == '\U{FEFF}'
  }

  predicate IsUpper(c: char) {
    'A' <= c <= 'Z'
  }

  /** The string contains no `\s` character. */
  predicate NoSpace(s: string) {
    forall i :: 0 <= i < |s| ==> !IsSpace(s[i])
  }

  /** The string contains no upper-case letter. */
  predicate AllLower(s: string) {
    forall i :: 0 <= i < |s| ==> !IsUpper(s[i])
  }

  /** `toLowerCase` on one character (ASCII letters; every other character is kept). */
  function LowerChar(c: char): (r: char)
    ensures !IsUpper(r)
    ensures IsSpace(r) <==> IsSpace(c)
    ensures !IsUpper(c) ==> r == c
    ensures IsUpper(c) ==> r as int == c as int + 32
  {
    if IsUpper(c) then (c as int + 32) as char else c
  }

  /** `s.toLowerCase()`. */
  function ToLower(s: string): (r: string)
    ensures |r| == |s| && AllLower(r)
    ensures AllLower(s) ==> r == s
    ensures forall i :: 0 <= i < |s| ==> r[i] == LowerChar(s[i])
  {
    seq(|s|, i requires 0 <= i < |s| => LowerChar(s[i]))
  }

  /** Lower-casing twice is lower-casing once. */
  lemma ToLowerIdempotent(s: string)
    ensures ToLower(ToLower(s)) == ToLower(s)
  {
  }

  /** `s` with its leading run of `\s` characters removed. */
  function DropSpaces(s: string): (r: string)
    ensures |r| <= |s| && r == s[|s| - |r|..]
    ensures r == [] || !IsSpace(r[0])
    ensures s != [] && IsSpace(s[0]) ==> |r| < |s|
  {
    if s != [] && IsSpace(s[0]) then DropSpaces(s[1..]) else s
  }

  /** `s.replace(/\s+/g, sep)`: every maximal run of `\s` characters becomes one `sep`. */
  function ReplaceSpaceRuns(s: string, sep: string): (r: string)
    ensures NoSpace(sep) ==> NoSpace(r)
    ensures AllLower(s) && AllLower(sep) ==> AllLower(r)
    ensures NoSpace(s) ==> r == s
    decreases |s|
  {
    if s == [] then []
    else if IsSpace(s[0]) then sep + ReplaceSpaceRuns(DropSpaces(s), sep)
    else
      assert s == [s[0]] + s[1..];
      [s[0]] + ReplaceSpaceRuns(s[1..], sep)
  }

  /** A string that is nothing but `\s` characters. */
  predicate AllSpace(w: string) {
    forall i :: 0 <= i < |w| ==> IsSpace(w[i])
  }

  /** Dropping the leading run of `w + y` removes exactly the run `w` when `y`
      does not itself start with white space. */
  lemma {:induction false} DropSpacesRun(w: string, y: string)
    requires AllSpace(w)
    requires y == [] || !IsSpace(y[0])
    ensures DropSpaces(w + y) == y
    decreases |w|
  {
    if w != [] {
      assert (w + y)[1..] == w[1..] + y;
      DropSpacesRun(w[1..], y);
    }
  }

  /** A leading character outside `\s` is kept as it is. */
  lemma ReplaceSpaceRunsKeep(c: char, t: string, sep: string)
    requires !IsSpace(c)
    ensures ReplaceSpaceRuns([c] + t, sep) == [c] + ReplaceSpaceRuns(t, sep)
  {
    assert ([c] + t)[1..] == t;
  }

  /** A leading run of white space becomes one `sep`. */
  lemma ReplaceSpaceRunsRun(w: string, y: string, sep: string)
    requires w != [] && AllSpace(w)
    requires y == [] || !IsSpace(y[0])
    ensures ReplaceSpaceRuns(w + y, sep) == sep + ReplaceSpaceRuns(y, sep)
  {
    assert (w + y)[0] == w[0];
    DropSpacesRun(w, y);
  }

  /** Peeling the first element off a concatenation. */
  lemma SplitHead<T>(x: seq<T>, u: seq<T>)
    requires x != []
    ensures x + u == [x[0]] + (x[1..] + u)
  {
  }

  /** One word character in front of a collapsed run is kept in front of it. */
  lemma ReplaceSpaceRunsCollapseStep(x: string, w: string, y: string, sep: string)
    requires x != [] && !IsSpace(x[0])
    requires ReplaceSpaceRuns(x[1..] + (w + y), sep) == x[1..] + (sep + ReplaceSpaceRuns(y, sep))
    ensures ReplaceSpaceRuns(x + (w + y), sep) == x + (sep + ReplaceSpaceRuns(y, sep))
  {
    SplitHead(x, w + y);
    SplitHead(x, sep + ReplaceSpaceRuns(y, sep));
    ReplaceSpaceRunsKeep(x[0], x[1..] + (w + y), sep);
  }

  /** The run collapse itself: a word `x`, then a non-empty run `w` of white
      space, then a rest `y` that does not start with white space, becomes `x`,
      one `sep`, and the replaced rest. */
  lemma {:induction false} ReplaceSpaceRunsCollapse(x: string, w: string, y: string, sep: string)
    requires NoSpace(x)
    requires w != [] && AllSpace(w)
    requires y == [] || !IsSpace(y[0])
    ensures ReplaceSpaceRuns(x + (w + y), sep) == x + (sep + ReplaceSpaceRuns(y, sep))
    decreases |x|
  {
    if x == [] {
      assert x + (w + y) == w + y;
      ReplaceSpaceRunsRun(w, y, sep);
    } else {
      ReplaceSpaceRunsCollapse(x[1..], w, y, sep);
      ReplaceSpaceRunsCollapseStep(x, w, y, sep);
    }
  }

  /** With a non-empty separator, a non-empty string never becomes empty: its
      first character or its first run of white space leaves something behind. */
  lemma ReplaceSpaceRunsNonEmpty(s: string, sep: string)
    requires s != [] && sep != []
    ensures ReplaceSpaceRuns(s, sep) != []
  {
    if IsSpace(s[0]) {
      assert |sep + ReplaceSpaceRuns(DropSpaces(s), sep)| >= |sep|;
    }
  }

  /** `s.toLowerCase().replace(/\s+/g, sep)`: the slug of a label. */
  function Slug(s: string, sep: string): (r: string)
    ensures NoSpace(sep) ==> NoSpace(r)
    ensures AllLower(sep) ==> AllLower(r)
    ensures NoSpace(s) ==> r == ToLower(s)
  {
    ReplaceSpaceRuns(ToLower(s), sep)
  }

  /** Lower-casing works character by character, so it distributes over `+`. */
  lemma ToLowerConcat(a: string, b: string)
    ensures ToLower(a + b) == ToLower(a) + ToLower(b)
  {
  }

  /** The slug of a word, a run of white space and a rest is the lower-cased
      word, one `sep`, and the slug of the rest. */
  lemma SlugCollapse(x: string, w: string, y: string, sep: string)
    requires NoSpace(x)
    requires w != [] && AllSpace(w)
    requires y == [] || !IsSpace(y[0])
    ensures Slug(x + (w + y), sep) == ToLower(x) + (sep + Slug(y, sep))
  {
    ToLowerConcat(x, w + y);
    ToLowerConcat(w, y);
    var lx, lw, ly := ToLower(x), ToLower(w), ToLower(y);
    assert NoSpace(lx);
    assert lw != [] && AllSpace(lw);
    assert ly == [] || !IsSpace(ly[0]);
    ReplaceSpaceRunsCollapse(lx, lw, ly, sep);
  }

  /** A slug is its own slug: with a separator free of white space and capitals,
      slugging an already slugged label changes nothing. */
  lemma SlugIdempotent(s: string, sep: string)
    requires NoSpace(sep) && AllLower(sep)
    ensures Slug(Slug(s, sep), sep) == Slug(s, sep)
  {
    var t := Slug(s, sep);
    assert ToLower(t) == t;
  }

  /** `needle` occurs in `hay` starting at position `i`. */
  predicate OccursAt(hay: string, needle: string, i: int) {
    0 <= i && i + |needle| <= |hay| && hay[i..i + |needle|] == needle
  }

  /** An occurrence in `hay[1..]` is an occurrence in `hay` one position later. */
  lemma OccursShift(hay: string, needle: string)
    requires hay != []
    ensures forall i :: 0 <= i ==> (OccursAt(hay[1..], needle, i) <==> OccursAt(hay, needle, i + 1))
  {
    forall i | 0 <= i ensures OccursAt(hay[1..], needle, i) <==> OccursAt(hay, needle, i + 1) {
      if 0 <= i && i + |needle| <= |hay[1..]| {
        assert hay[1..][i..i + |needle|] == hay[i + 1..i + 1 + |needle|];
      }
    }
  }

  /** `hay.includes(needle)`: `needle` occurs in `hay` at some position. */
  function Contains(hay: string, needle: string): (r: bool)
    ensures r <==> exists i :: OccursAt(hay, needle, i)
    decreases |hay|
  {
    if needle <= hay then
      assert OccursAt(hay, needle, 0);
      true
    else if hay == [] then false
    else
      var r := Contains(hay[1..], needle);
      OccursShift(hay, needle);
      assert !OccursAt(hay, needle, 0);
      assert forall i :: OccursAt(hay, needle, i) ==> OccursAt(hay[1..], needle, i - 1);
      r
  }

  /** Lower-casing keeps every occurrence: a needle found in `hay` is found, at the
      same position, once both are lower-cased. */
  lemma ContainsLower(hay: string, needle: string)
    ensures Contains(hay, needle) ==> Contains(ToLower(hay), ToLower(needle))
  {
    if Contains(hay, needle) {
      var i :| OccursAt(hay, needle, i);
      var lh, ln := ToLower(hay), ToLower(needle);
      assert lh[i..i + |needle|] == ln by {
        forall k | 0 <= k < |needle| ensures lh[i..i + |needle|][k] == ln[k] {
          assert hay[i..i + |needle|][k] == needle[k];
        }
      }
      assert OccursAt(lh, ln, i);
    }
  }
}
