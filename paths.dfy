/** Absolute paths as sequences of segments, and `os.path.abspath(os.path.join(cwd, p))`. */
module Paths {
  import opened Text

  /** An absolute path: `[]` is the root `/`, `["a", "b"]` is `/a/b`. */
  type Path = seq<string>

  /** A segment that `os.path.normpath` leaves in place. */
  predicate IsSegment(x: string) {
    x != "" && x != "." && x != ".." && '/' !in x
  }

  predicate IsCanonical(p: Path) {
    forall k :: 0 <= k < |p| ==> IsSegment(p[k])
  }

  predicate NoSlash(segs: seq<string>) {
    forall k :: 0 <= k < |segs| ==> '/' !in segs[k]
  }

  /** `s.split("/")`: the pieces between slashes, empty ones included. */
  function Split(s: string): (r: seq<string>)
    ensures |r| >= 1
    ensures NoSlash(r)
  {
    if s == [] then [""]
    else if s[0] == '/' then [""] + Split(s[1..])
    else
      var t := Split(s[1..]);
      [[s[0]] + t[0]] + t[1..]
  }

  /** One step of `normpath`: skip empty and `.` pieces, `..` goes up (never above the root). */
  function Step(base: Path, x: string): Path {
    if x == "" || x == "." then base
    else if x == ".." then (if base == [] then [] else base[..|base| - 1])
    else base + [x]
  }

  function Normalize(base: Path, segs: seq<string>): (r: Path)
    requires IsCanonical(base) && NoSlash(segs)
    ensures IsCanonical(r)
    decreases |segs|
  {
    if segs == [] then base
    else Normalize(Step(base, segs[0]), segs[1..])
  }

  predicate IsAbsolute(p: string) {
    |p| > 0 && p[0] == '/'
  }

  /** `_resolve_path`: `os.path.abspath(os.path.join(cwd, p))`. */
  function Resolve(cwd: Path, p: string): (r: Path)
    requires IsCanonical(cwd)
    ensures IsCanonical(r)
  {
    Normalize(if IsAbsolute(p) then [] else cwd, Split(p))
  }

  /** The string form that `pwd` prints and messages show. */
  function Render(p: Path): string {
    "/" + Join("/", p)
  }

  /** `os.path.basename` of a rendered path: the last segment, or "" for the root. */
  function BaseName(p: Path): string {
    if p == [] then "" else p[|p| - 1]
  }

  function Parent(p: Path): Path
    requires p != []
  {
    p[..|p| - 1]
  }

  predicate HasPrefix(q: Path, p: Path) {
    |p| <= |q| && q[..|p|] == p
  }

  /** An absolute argument does not depend on the working directory. */
  lemma ResolveAbsolute(c1: Path, c2: Path, p: string)
    requires IsCanonical(c1) && IsCanonical(c2) && IsAbsolute(p)
    ensures Resolve(c1, p) == Resolve(c2, p)
  {
  }

  /** Canonical segments are appended unchanged. */
  lemma {:induction false} NormalizeSegments(base: Path, segs: seq<string>)
    requires IsCanonical(base) && IsCanonical(segs)
    ensures NoSlash(segs) && Normalize(base, segs) == base + segs
    decreases |segs|
  {
    if segs != [] {
      assert IsCanonical(base + [segs[0]]);
      NormalizeSegments(base + [segs[0]], segs[1..]);
      assert base + [segs[0]] + segs[1..] == base + segs;
    }
  }

  lemma {:induction false} SplitNoSlash(a: string)
    requires '/' !in a
    ensures Split(a) == [a]
  {
    if a != [] {
      SplitNoSlash(a[1..]);
      assert [a[0]] + a[1..] == a;
    }
  }

  lemma {:induction false} SplitAt(a: string, b: string)
    requires '/' !in a
    ensures Split(a + "/" + b) == [a] + Split(b)
  {
    if a == [] {
      assert a + "/" + b == "/" + b;
      assert ("/" + b)[1..] == b;
    } else {
      assert (a + "/" + b)[1..] == a[1..] + "/" + b;
      SplitAt(a[1..], b);
      assert [a[0]] + a[1..] == a;
    }
  }

  lemma {:induction false} SplitJoin(q: Path)
    requires IsCanonical(q) && q != []
    ensures Split(Join("/", q)) == q
  {
    if |q| == 1 {
      SplitNoSlash(q[0]);
    } else {
      SplitAt(q[0], Join("/", q[1..]));
      SplitJoin(q[1..]);
      assert [q[0]] + q[1..] == q;
    }
  }

  /** `cd` into the printed form of a path lands on that path, from anywhere. */
  lemma RenderRoundTrip(cwd: Path, q: Path)
    requires IsCanonical(cwd) && IsCanonical(q)
    ensures Resolve(cwd, Render(q)) == q
  {
    var s := Render(q);
    assert IsAbsolute(s);
    assert s[1..] == Join("/", q);
    if q == [] {
      assert s == "/";
      assert Split(s) == ["", ""];
      assert Normalize([], ["", ""]) == Normalize([], [""]) == Normalize([], []);
    } else {
      SplitJoin(q);
      assert Split(s) == [""] + q;
      NormalizeSegments([], q);
    }
  }

  /** An empty argument resolves to the working directory itself. */
  lemma ResolveEmpty(cwd: Path)
    requires IsCanonical(cwd)
    ensures Resolve(cwd, "") == cwd
  {
    assert Split("") == [""];
    assert Normalize(cwd, [""]) == Normalize(cwd, []);
  }

  /** `..` is the parent, and the root is its own parent. */
  lemma ResolveUp(cwd: Path)
    requires IsCanonical(cwd)
    ensures Resolve(cwd, "..") == if cwd == [] then [] else Parent(cwd)
  {
    SplitNoSlash("..");
    assert Normalize(cwd, [".."]) == Normalize(Step(cwd, ".."), []);
  }

  /** A plain name is a child of the working directory. */
  lemma ResolveChild(cwd: Path, x: string)
    requires IsCanonical(cwd) && IsSegment(x)
    ensures Resolve(cwd, x) == cwd + [x]
  {
    SplitNoSlash(x);
    assert Normalize(cwd, [x]) == Normalize(cwd + [x], []);
  }
}
