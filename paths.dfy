/**
 * POSIX paths as Python's `pathlib` treats them: an optional root and a list
 * of components.  `Parse` is `Path(s)`, `Join` is the `/` operator and
 * `Render` is `str(path)`.
 */
module Paths {

  datatype Path = Path(absolute: bool, parts: seq<string>)

  /** A component is never empty, never `.` and never holds a slash. */
  predicate ValidPart(c: string) {
    c != "" && c != "." && '/' !in c
  }

  predicate Valid(p: Path) {
    forall i :: 0 <= i < |p.parts| ==> ValidPart(p.parts[i])
  }

  /** `child` is `parent / name` for a single component `name`. */
  predicate IsChild(child: Path, parent: Path) {
    && child.absolute == parent.absolute
    && |child.parts| == |parent.parts| + 1
    && child.parts[..|parent.parts|] == parent.parts
  }

  /** The pieces of `s` between slashes, empty pieces included. */
  function Segments(s: string): (r: seq<string>)
    ensures |r| >= 1
    ensures forall i :: 0 <= i < |r| ==> '/' !in r[i]
  {
    if s == [] then [""]
    else
      var init := Segments(s[..|s| - 1]);
      if s[|s| - 1] == '/' then init + [""]
      else init[..|init| - 1] + [init[|init| - 1] + [s[|s| - 1]]]
  }

  /** Drops the empty and `.` pieces, as pathlib does when it parses. */
  function Kept(segs: seq<string>): (r: seq<string>)
    requires forall i :: 0 <= i < |segs| ==> '/' !in segs[i]
    ensures forall i :: 0 <= i < |r| ==> ValidPart(r[i])
    ensures |r| <= |segs|
  {
    if segs == [] then []
    else
      var k := Kept(segs[..|segs| - 1]);
      var last := segs[|segs| - 1];
      if last == "" || last == "." then k else k + [last]
  }

  function Components(s: string): (r: seq<string>)
    ensures forall i :: 0 <= i < |r| ==> ValidPart(r[i])
  {
    Kept(Segments(s))
  }

  /** `Path(s)`; a leading slash makes the path absolute. */
  function Parse(s: string): (p: Path)
    ensures Valid(p)
    ensures p.absolute <==> |s| > 0 && s[0] == '/'
  {
    Path(|s| > 0 && s[0] == '/', Components(s))
  }

  /** `p / s`: an absolute `s` replaces `p`, otherwise its components are appended. */
  function Join(p: Path, s: string): (r: Path)
    ensures Valid(p) ==> Valid(r)
  {
    if |s| > 0 && s[0] == '/' then Parse(s)
    else Path(p.absolute, p.parts + Components(s))
  }

  function JoinParts(parts: seq<string>): string {
    if parts == [] then ""
    else if |parts| == 1 then parts[0]
    else JoinParts(parts[..|parts| - 1]) + "/" + parts[|parts| - 1]
  }

  /** `str(p)`: `.` for the empty relative path, `/` for the bare root. */
  function Render(p: Path): string {
    if p.absolute then "/" + JoinParts(p.parts)
    else if p.parts == [] then "."
    else JoinParts(p.parts)
  }

  lemma {:induction false} SegmentsNoSlash(s: string)
    requires '/' !in s
    ensures Segments(s) == [s]
  {
    if s != [] {
      var init := s[..|s| - 1];
      assert '/' !in init by {
        forall i | 0 <= i < |init| ensures init[i] != '/' { assert init[i] == s[i]; }
      }
      SegmentsNoSlash(init);
      assert s == init + [s[|s| - 1]];
    }
  }

  /** One more character either closes the last piece or extends it. */
  lemma SegmentsSnoc(s: string, c: char)
    ensures var init := Segments(s);
      Segments(s + [c]) ==
        if c == '/' then init + [""] else init[..|init| - 1] + [init[|init| - 1] + [c]]
  {
    assert (s + [c])[..|s + [c]| - 1] == s;
  }

  lemma {:induction false} SegmentsSlash(a: string, b: string)
    ensures Segments(a + "/" + b) == Segments(a) + Segments(b)
  {
    if b == [] {
      assert a + "/" + b == a + ['/'];
      SegmentsSnoc(a, '/');
    } else {
      var b', c := b[..|b| - 1], b[|b| - 1];
      var s := a + "/" + b';
      assert b == b' + [c];
      assert a + "/" + b == s + [c];
      SegmentsSlash(a, b');
      SegmentsSnoc(s, c);
      SegmentsSnoc(b', c);
      if c == '/' {
        SnocEmptyPiece(Segments(a), Segments(b'));
      } else {
        SnocExtendPiece(Segments(a), Segments(b'), c);
      }
    }
  }

  /** Closing the last piece of `x + y` closes the last piece of `y`. */
  lemma SnocEmptyPiece(x: seq<string>, y: seq<string>)
    ensures (x + y) + [""] == x + (y + [""])
  {
  }

  /** Extending the last piece of `x + y` extends the last piece of a non-empty `y`. */
  lemma SnocExtendPiece(x: seq<string>, y: seq<string>, c: char)
    requires |y| >= 1
    ensures var t := x + y;
      t[..|t| - 1] + [t[|t| - 1] + [c]] == x + (y[..|y| - 1] + [y[|y| - 1] + [c]])
  {
    var t := x + y;
    assert t[..|t| - 1] == x + y[..|y| - 1];
    assert t[|t| - 1] == y[|y| - 1];
  }

  lemma {:induction false} KeptAppend(x: seq<string>, y: seq<string>)
    requires forall i :: 0 <= i < |x| ==> '/' !in x[i]
    requires forall i :: 0 <= i < |y| ==> '/' !in y[i]
    ensures Kept(x + y) == Kept(x) + Kept(y)
  {
    if y == [] {
      assert x + y == x;
    } else {
      var y' := y[..|y| - 1];
      assert (x + y)[..|x + y| - 1] == x + y';
      KeptAppend(x, y');
    }
  }

  lemma ComponentsOfPart(c: string)
    requires ValidPart(c)
    ensures Components(c) == [c]
  {
    SegmentsNoSlash(c);
    assert Kept([c]) == Kept([]) + [c];
  }

  lemma ComponentsAfterRoot(s: string)
    ensures Components("/" + s) == Components(s)
  {
    SegmentsSlash("", s);
    assert "" + "/" + s == "/" + s;
    KeptAppend([""], Segments(s));
  }

  /** A slash separates the components of what comes before it from those after it. */
  lemma ComponentsSlash(a: string, b: string)
    ensures Components(a + "/" + b) == Components(a) + Components(b)
  {
    SegmentsSlash(a, b);
    KeptAppend(Segments(a), Segments(b));
  }

  /** Appending `/` and a plain component appends that component. */
  lemma ComponentsSnoc(s: string, init: seq<string>, last: string)
    requires Components(s) == init && ValidPart(last)
    ensures Components(s + "/" + last) == init + [last]
  {
    ComponentsOfPart(last);
    ComponentsSlash(s, last);
  }

  lemma {:induction false} ComponentsJoinParts(parts: seq<string>)
    requires forall i :: 0 <= i < |parts| ==> ValidPart(parts[i])
    ensures Components(JoinParts(parts)) == parts
  {
    if |parts| == 1 {
      ComponentsOfPart(parts[0]);
    } else if |parts| > 1 {
      var init, last := parts[..|parts| - 1], parts[|parts| - 1];
      ComponentsJoinParts(init);
      ComponentsSnoc(JoinParts(init), init, last);
      assert init + [last] == parts;
    }
  }

  /** `Path("./" + name)` is the relative path of the single component `name`. */
  lemma ParseDotSlash(name: string)
    requires ValidPart(name)
    ensures Parse("./" + name) == Path(false, [name])
  {
    var s := "./" + name;
    assert s == "." + "/" + name;
    ComponentsSlash(".", name);
    ComponentsDot();
    ComponentsOfPart(name);
    assert s[0] == '.';
  }

  /** `.` alone names no component. */
  lemma ComponentsDot()
    ensures Components(".") == []
  {
    SegmentsNoSlash(".");
    assert Kept(["."]) == Kept([]);
  }

  /** Reading back what `str` printed gives the same path. */
  lemma ParseRender(p: Path)
    requires Valid(p)
    ensures Parse(Render(p)) == p
  {
    ComponentsJoinParts(p.parts);
    if p.absolute {
      ComponentsAfterRoot(JoinParts(p.parts));
    } else if p.parts == [] {
      SegmentsNoSlash(".");
    } else {
      var s := JoinParts(p.parts);
      assert s != [] && s[0] != '/' by { JoinPartsHead(p.parts); }
    }
  }

  lemma {:induction false} JoinPartsHead(parts: seq<string>)
    requires parts != [] && forall i :: 0 <= i < |parts| ==> ValidPart(parts[i])
    ensures ValidPart(parts[0]) && |parts[0]| > 0 && JoinParts(parts) != [] && JoinParts(parts)[0] == parts[0][0]
  {
    if |parts| > 1 {
      JoinPartsHead(parts[..|parts| - 1]);
    }
  }

  /** `p` extended by one component. */
  function Child(p: Path, c: string): Path {
    Path(p.absolute, p.parts + [c])
  }

  /** Joining a plain component extends the path by exactly that component. */
  lemma JoinPart(p: Path, c: string)
    requires ValidPart(c)
    ensures Join(p, c) == Child(p, c)
    ensures IsChild(Join(p, c), p)
  {
    ComponentsOfPart(c);
    assert (p.parts + [c])[..|p.parts|] == p.parts;
  }
}
