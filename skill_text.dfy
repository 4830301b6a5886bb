/** Skill lists are stored as one comma-separated string. This module models
    the string operations that both the servers and the client apply to them:
    `str.split(sep)` / `String.split(sep)`, `strip()` / `trim()`, and
    `Array.join(",")`. */
module SkillText {

  /** Whose whitespace a strip removes: Python's `str.strip()` or
      JavaScript's `String.prototype.trim()`. */
  datatype Runtime = Python | JavaScript

  /** Whitespace both runtimes strip: the ASCII controls tab to carriage
      return, the space, and the Unicode space separators and line and
      paragraph separators. */
  predicate CommonSpace(c: char) {
    || '\t' <= c <= '\r' || c == ' ' || c == '\U{A0}' || c == '\U{1680}'
    || '\U{2000}' <= c <= '\U{200A}' || c == '\U{2028}' || c == '\U{2029}'
    || c == '\U{202F}' || c == '\U{205F}' || c == '\U{3000}'
  }

  /** `str.isspace()` also holds for the separators U+001C to U+001F and for
      U+0085; JavaScript's whitespace also has the byte order mark U+FEFF. */
  predicate IsSpace(c: char, rt: Runtime) {
    || CommonSpace(c)
    || (rt == Python && ('\U{1C}' <= c <= '\U{1F}' || c == '\U{85}'))
    || (rt == JavaScript && c == '\U{FEFF}')
  }

  /** Splits the rest of `s`, `cur` being the piece read so far; the separator
      is matched left to right without overlaps, as Python and JavaScript do. */
  function SplitFrom(s: string, sep: string, cur: string): (r: seq<string>)
    requires |sep| > 0
    ensures |r| > 0
    decreases |s|
  {
    if |s| < |sep| then [cur + s]
    else if s[..|sep|] == sep then [cur] + SplitFrom(s[|sep|..], sep, "")
    else SplitFrom(s[1..], sep, cur + [s[0]])
  }

  /** `s.split(sep)`: never empty; `"".split(",")` is `[""]`. */
  function Split(s: string, sep: string): (r: seq<string>)
    requires |sep| > 0
    ensures |r| > 0
  {
    SplitFrom(s, sep, "")
  }

  function StripLeft(s: string, rt: Runtime): string {
    if |s| > 0 && IsSpace(s[0], rt) then StripLeft(s[1..], rt) else s
  }

  /** `StripLeft` drops the leading whitespace and nothing else. */
  lemma {:induction false} StripLeftSpec(s: string, rt: Runtime)
    ensures |StripLeft(s, rt)| <= |s|
    ensures StripLeft(s, rt) == s[|s| - |StripLeft(s, rt)|..]
    ensures |StripLeft(s, rt)| > 0 ==> !IsSpace(StripLeft(s, rt)[0], rt)
    ensures forall i :: 0 <= i < |s| - |StripLeft(s, rt)| ==> IsSpace(s[i], rt)
    decreases |s|
  {
    if |s| > 0 && IsSpace(s[0], rt) {
      StripLeftSpec(s[1..], rt);
    }
  }

  function StripRight(s: string, rt: Runtime): string {
    if |s| > 0 && IsSpace(s[|s| - 1], rt) then StripRight(s[..|s| - 1], rt) else s
  }

  /** `StripRight` drops the trailing whitespace and nothing else. */
  lemma {:induction false} StripRightSpec(s: string, rt: Runtime)
    ensures |StripRight(s, rt)| <= |s|
    ensures StripRight(s, rt) == s[..|StripRight(s, rt)|]
    ensures |StripRight(s, rt)| > 0 ==> !IsSpace(StripRight(s, rt)[|StripRight(s, rt)| - 1], rt)
    ensures forall i :: |StripRight(s, rt)| <= i < |s| ==> IsSpace(s[i], rt)
    decreases |s|
  {
    if |s| > 0 && IsSpace(s[|s| - 1], rt) {
      StripRightSpec(s[..|s| - 1], rt);
    }
  }

  /** `s.strip()` in Python, `s.trim()` in JavaScript. */
  function Strip(s: string, rt: Runtime): string {
    StripRight(StripLeft(s, rt), rt)
  }

  /** Python's `strip()`, as a function of the string alone. */
  function PyStrip(s: string): string {
    Strip(s, Python)
  }

  /** A string without whitespace at either end is its own stripped form. */
  predicate Trimmed(s: string, rt: Runtime) {
    |s| == 0 || (!IsSpace(s[0], rt) && !IsSpace(s[|s| - 1], rt))
  }

  lemma StripTrimmed(s: string, rt: Runtime)
    requires Trimmed(s, rt)
    ensures Strip(s, rt) == s
  {
  }

  /** Stripping leaves no whitespace at either end, so it is idempotent. */
  lemma StripIsTrimmed(s: string, rt: Runtime)
    ensures Trimmed(Strip(s, rt), rt)
    ensures Strip(Strip(s, rt), rt) == Strip(s, rt)
  {
    var l := StripLeft(s, rt);
    var r := StripRight(l, rt);
    StripLeftSpec(s, rt);
    StripRightSpec(l, rt);
    if |r| > 0 {
      assert r[0] == l[0];
    }
    StripTrimmed(r, rt);
  }

  /** The two runtimes disagree at the edges: Python strips the unit
      separator U+001F, which JavaScript keeps, and JavaScript trims the byte
      order mark U+FEFF, which Python keeps. */
  lemma StripDiffers()
    ensures Strip("SQL\U{1F}", Python) == "SQL" && Strip("SQL\U{1F}", JavaScript) == "SQL\U{1F}"
    ensures Strip("\U{FEFF}SQL", Python) == "\U{FEFF}SQL" && Strip("\U{FEFF}SQL", JavaScript) == "SQL"
  {
    assert StripLeft("SQL\U{1F}", Python) == "SQL\U{1F}";
    assert StripRight("SQL\U{1F}", Python) == StripRight("SQL", Python);
    assert StripLeft("\U{FEFF}SQL", JavaScript) == StripLeft("SQL", JavaScript);
  }

  /** `xs.join(sep)`; the empty list joins to "". */
  function Join(xs: seq<string>, sep: string): string
  {
    if |xs| == 0 then ""
    else if |xs| == 1 then xs[0]
    else xs[0] + sep + Join(xs[1..], sep)
  }

  /** A piece without the separator character runs on to the end of the
      current piece. */
  lemma {:induction false} SplitFromPlain(x: string, c: char, cur: string)
    requires c !in x
    ensures SplitFrom(x, [c], cur) == [cur + x]
    decreases |x|
  {
    if |x| > 0 {
      assert x[..1] != [c] by { assert x[0] != c; }
      SplitFromPlain(x[1..], c, cur + [x[0]]);
      assert cur + [x[0]] + x[1..] == cur + x;
    } else {
      assert cur + x == cur;
    }
  }

  lemma {:induction false} SplitFromPiece(x: string, c: char, rest: string, cur: string)
    requires c !in x
    ensures SplitFrom(x + [c] + rest, [c], cur) == [cur + x] + SplitFrom(rest, [c], "")
    decreases |x|
  {
    var s := x + [c] + rest;
    if |x| == 0 {
      assert s[..1] == [c];
      assert s[1..] == rest;
      assert cur + x == cur;
    } else {
      assert s[..1] != [c] by { assert s[0] == x[0] != c; }
      assert s[1..] == x[1..] + [c] + rest;
      assert s[0] == x[0];
      SplitFromPiece(x[1..], c, rest, cur + [x[0]]);
      assert cur + [x[0]] + x[1..] == cur + x;
    }
  }

  /** Round trip: splitting the joined list on the one-character separator
      gives the list back, provided it is non-empty and no element holds the
      separator. */
  lemma {:induction false} SplitJoin(xs: seq<string>, c: char)
    requires |xs| > 0
    requires forall i :: 0 <= i < |xs| ==> c !in xs[i]
    ensures Split(Join(xs, [c]), [c]) == xs
    decreases |xs|
  {
    if |xs| == 1 {
      SplitFromPlain(xs[0], c, "");
      assert "" + xs[0] == xs[0];
    } else {
      SplitFromPiece(xs[0], c, Join(xs[1..], [c]), "");
      SplitJoin(xs[1..], c);
      assert "" + xs[0] == xs[0];
      assert [xs[0]] + xs[1..] == xs;
    }
  }

  lemma StripAllTrimmed(ps: seq<string>, rt: Runtime)
    ensures forall i :: 0 <= i < |ps| ==> Trimmed(Strip(ps[i], rt), rt)
  {
    forall i | 0 <= i < |ps| ensures Trimmed(Strip(ps[i], rt), rt) {
      StripIsTrimmed(ps[i], rt);
    }
  }

  /** The stripped pieces of a comma-separated string, in order: the server's
      `s.strip() for s in text.split(",")` and the client's skill badges
      `split(",").map(skill => skill.trim())`; each piece is left without
      edge whitespace. */
  function Pieces(s: string, rt: Runtime): (r: seq<string>)
    ensures |r| == |Split(s, ",")|
    ensures forall i :: 0 <= i < |r| ==> r[i] == Strip(Split(s, ",")[i], rt) && Trimmed(r[i], rt)
  {
    var ps := Split(s, ",");
    StripAllTrimmed(ps, rt);
    seq(|ps|, i requires 0 <= i < |ps| => Strip(ps[i], rt))
  }

  /** The set of stripped pieces: `set(s.strip() for s in text.split(","))`. */
  function SkillSet(s: string): (r: set<string>)
    ensures |r| > 0
    ensures forall x :: x in r <==> x in Pieces(s, Python)
  {
    var ps := Pieces(s, Python);
    var r := set x | x in ps;
    assert ps[0] in r;
    assert r != {};
    r
  }

  /** Joining skills with "," and reading them back with split and strip
      gives the skills back, when none holds a comma or edge whitespace. */
  lemma PiecesOfJoin(xs: seq<string>, rt: Runtime)
    requires |xs| > 0
    requires forall i :: 0 <= i < |xs| ==> ',' !in xs[i] && Trimmed(xs[i], rt)
    ensures Pieces(Join(xs, ","), rt) == xs
  {
    SplitJoin(xs, ',');
    var ps := Pieces(Join(xs, ","), rt);
    forall i | 0 <= i < |xs| ensures ps[i] == xs[i] {
      StripTrimmed(xs[i], rt);
    }
  }

  /** The set of the images of a list's elements under `f`. */
  function Image<A, B>(xs: seq<A>, f: A -> B): set<B> {
    set i | 0 <= i < |xs| :: f(xs[i])
  }

  /** The skill set of a joined list is the set of its stripped elements: the
      order, duplicates and whitespace around the commas do not matter. */
  lemma SkillSetOfJoin(xs: seq<string>)
    requires |xs| > 0
    requires forall i :: 0 <= i < |xs| ==> ',' !in xs[i]
    ensures SkillSet(Join(xs, ",")) == Image(xs, PyStrip)
  {
    SplitJoin(xs, ',');
    var ps := Pieces(Join(xs, ","), Python);
    forall x | x in Image(xs, PyStrip) ensures x in ps {
      var i :| 0 <= i < |xs| && x == PyStrip(xs[i]);
      assert ps[i] == x;
    }
  }

  /** The image of one list is contained in that of another when the image
      of every element of the first is among those of the second. */
  lemma ImageSubset<A, B>(xs: seq<A>, ys: seq<A>, f: A -> B)
    requires forall i :: 0 <= i < |xs| ==> f(xs[i]) in Image(ys, f)
    ensures Image(xs, f) <= Image(ys, f)
  {
  }

  /** Two skill lists whose elements strip to the same values have the same
      skill set once joined, whatever their order, repetitions or the
      whitespace around the commas: "Python, SQL" and "SQL,Python ,SQL". */
  lemma SkillSetIgnoresOrderRepeatsAndSpacing(xs: seq<string>, ys: seq<string>)
    requires |xs| > 0 && |ys| > 0
    requires forall i :: 0 <= i < |xs| ==> ',' !in xs[i]
    requires forall j :: 0 <= j < |ys| ==> ',' !in ys[j]
    requires forall i :: 0 <= i < |xs| ==> PyStrip(xs[i]) in Image(ys, PyStrip)
    requires forall j :: 0 <= j < |ys| ==> PyStrip(ys[j]) in Image(xs, PyStrip)
    ensures SkillSet(Join(xs, ",")) == SkillSet(Join(ys, ","))
  {
    SkillSetOfJoin(xs);
    SkillSetOfJoin(ys);
    ImageSubset(xs, ys, PyStrip);
    ImageSubset(ys, xs, PyStrip);
  }

  /** Subset cardinality: a subset is no larger, and only an equal set is as large. */
  lemma SubsetCardinality<A>(a: set<A>, b: set<A>)
    requires a <= b
    ensures |a| <= |b|
    ensures |a| == |b| ==> a == b
  {
    assert b == a + (b - a);
    assert a * (b - a) == {};
    if |a| == |b| {
      assert |b - a| == 0;
    }
  }
}
