/** POSIX path strings as Python's `pathlib.PurePosixPath` reads and prints
    them: a path is a root ("", "/" or "//") and a list of clean parts, where
    empty parts and "." parts are dropped. Used by the clone target choice and
    by the report generator's default output name. */
module Paths {
  import opened Common

  /** Python's `s.split('/')`: always at least one segment, none holding a '/'. */
  function Split(s: string): (r: seq<string>)
    ensures |r| >= 1
    ensures forall k :: 0 <= k < |r| ==> '/' !in r[k]
  {
    if |s| == 0 then [""]
    else if s[0] == '/' then [""] + Split(s[1..])
    else
      var rest := Split(s[1..]);
      [[s[0]] + rest[0]] + rest[1..]
  }

  /** Joining the segments back with '/' gives the original string. */
  lemma {:induction false} JoinSplit(s: string)
    ensures Join(Split(s), "/") == s
  {
    if |s| == 0 {
    } else if s[0] == '/' {
      JoinSplit(s[1..]);
      assert s == "/" + s[1..];
    } else {
      var rest := Split(s[1..]);
      JoinSplit(s[1..]);
      if |rest| == 1 {
        assert s == [s[0]] + s[1..];
      } else {
        assert Join(rest, "/") == rest[0] + "/" + Join(rest[1..], "/");
        assert s == [s[0]] + s[1..];
      }
    }
  }

  /** Splitting at a separator concatenates the segment lists. */
  lemma {:induction false} SplitAtSeparator(a: string, b: string)
    ensures Split(a + "/" + b) == Split(a) + Split(b)
    decreases |a|
  {
    if |a| == 0 {
      assert ("" + "/" + b)[1..] == b;
    } else if a[0] == '/' {
      assert (a + "/" + b)[1..] == a[1..] + "/" + b;
      SplitAtSeparator(a[1..], b);
    } else {
      assert (a + "/" + b)[1..] == a[1..] + "/" + b;
      SplitAtSeparator(a[1..], b);
    }
  }

  /** A string without '/' is a single segment. */
  lemma {:induction false} SplitNoSeparator(b: string)
    requires '/' !in b
    ensures Split(b) == [b]
  {
    if |b| > 0 {
      assert '/' !in b[1..];
      SplitNoSeparator(b[1..]);
      assert b == [b[0]] + b[1..];
    }
  }

  /** Splitting a '/'-join of separator-free pieces gives back the pieces. */
  lemma {:induction false} SplitJoin(ps: seq<string>)
    requires |ps| >= 1
    requires forall k :: 0 <= k < |ps| ==> '/' !in ps[k]
    ensures Split(Join(ps, "/")) == ps
  {
    if |ps| == 1 {
      SplitNoSeparator(ps[0]);
    } else {
      SplitJoin(ps[1..]);
      SplitAtSeparator(ps[0], Join(ps[1..], "/"));
      SplitNoSeparator(ps[0]);
      assert [ps[0]] + ps[1..] == ps;
    }
  }

  /** A part pathlib keeps: non-empty, not ".", no separator. */
  predicate CleanPart(p: string) {
    p != "" && p != "." && '/' !in p
  }

  /** Drops the empty and "." segments, keeping the others in order. */
  function Clean(segs: seq<string>): (r: seq<string>)
    ensures |r| <= |segs|
    ensures forall k :: 0 <= k < |r| ==> (CleanPart(r[k]) || '/' in r[k])
  {
    if |segs| == 0 then []
    else if segs[0] == "" || segs[0] == "." then Clean(segs[1..])
    else [segs[0]] + Clean(segs[1..])
  }

  lemma {:induction false} CleanAppend(x: seq<string>, y: seq<string>)
    ensures Clean(x + y) == Clean(x) + Clean(y)
  {
    if |x| > 0 {
      assert (x + y)[1..] == x[1..] + y;
      CleanAppend(x[1..], y);
    } else {
      assert x + y == y;
    }
  }

  lemma {:induction false} CleanOfClean(ps: seq<string>)
    requires forall k :: 0 <= k < |ps| ==> CleanPart(ps[k])
    ensures Clean(ps) == ps
  {
    if |ps| > 0 {
      CleanOfClean(ps[1..]);
    }
  }

  /** The parts of a path string, in order. */
  function Parts(s: string): (r: seq<string>)
    ensures forall k :: 0 <= k < |r| ==> CleanPart(r[k])
  {
    var segs := Split(s);
    assert forall k :: 0 <= k < |Clean(segs)| ==> '/' !in Clean(segs)[k] by {
      CleanKeepsSegments(segs);
    }
    Clean(segs)
  }

  lemma {:induction false} CleanKeepsSegments(segs: seq<string>)
    ensures forall k :: 0 <= k < |Clean(segs)| ==> Clean(segs)[k] in segs
  {
    if |segs| > 0 {
      CleanKeepsSegments(segs[1..]);
    }
  }

  /** The root pathlib reports: exactly two leading slashes are kept as "//",
      one or three or more collapse to "/". */
  function Root(s: string): (r: string)
    ensures r == "" || r == "/" || r == "//"
  {
    if |s| >= 2 && s[0] == '/' && s[1] == '/' && (|s| == 2 || s[2] != '/') then "//"
    else if |s| >= 1 && s[0] == '/' then "/"
    else ""
  }

  /** `str()` of a path with the given root and parts. */
  function Render(root: string, ps: seq<string>): string {
    if root == "" && |ps| == 0 then "." else root + Join(ps, "/")
  }

  /** `str(Path(s))`: the normalised spelling of `s`. */
  function Normalize(s: string): string {
    Render(Root(s), Parts(s))
  }

  /** `str(Path(base) / name)` for a single clean component `name`. */
  function Child(base: string, name: string): string
    requires CleanPart(name)
  {
    Render(Root(base), Parts(base) + [name])
  }

  /** `str(Path(s).parent)`. */
  function Parent(s: string): string {
    var ps := Parts(s);
    if |ps| == 0 then Normalize(s) else Render(Root(s), ps[..|ps| - 1])
  }

  /** `Path(s).name`: the last part, or "" for a path with no parts. */
  function Name(s: string): (r: string)
    ensures '/' !in r
  {
    var ps := Parts(s);
    if |ps| == 0 then "" else ps[|ps| - 1]
  }

  /** The clean parts of a '/'-join of clean parts are those parts. */
  lemma CleanSplitJoin(ps: seq<string>)
    requires forall k :: 0 <= k < |ps| ==> CleanPart(ps[k])
    ensures Clean(Split(Join(ps, "/"))) == ps
  {
    if |ps| > 0 {
      SplitJoin(ps);
      CleanOfClean(ps);
    }
  }

  /** A leading slash adds one empty segment in front. */
  lemma SplitLeadingSlash(body: string)
    ensures Split("/" + body) == [""] + Split(body)
  {
    assert ("/" + body)[1..] == body;
  }

  /** Rendering a root and clean parts and reading it back gives the same parts. */
  lemma PartsOfRender(root: string, ps: seq<string>)
    requires root == "" || root == "/" || root == "//"
    requires forall k :: 0 <= k < |ps| ==> CleanPart(ps[k])
    ensures Parts(Render(root, ps)) == ps
  {
    var body := Join(ps, "/");
    CleanSplitJoin(ps);
    if root == "" && |ps| == 0 {
      SplitNoSeparator(".");
    } else if root == "" {
      assert Render(root, ps) == body;
    } else if root == "/" {
      SplitLeadingSlash(body);
      assert Clean([""] + Split(body)) == Clean(Split(body));
    } else {
      SplitLeadingSlash(body);
      SplitLeadingSlash("/" + body);
      assert "//" + body == "/" + ("/" + body);
      assert Clean([""] + ([""] + Split(body))) == Clean([""] + Split(body));
      assert Clean([""] + Split(body)) == Clean(Split(body));
    }
  }

  /** The joined parts never begin with a separator. */
  lemma JoinStartsClean(ps: seq<string>)
    requires forall k :: 0 <= k < |ps| ==> CleanPart(ps[k])
    ensures |ps| > 0 ==> |Join(ps, "/")| > 0 && Join(ps, "/")[0] != '/'
  {
    if |ps| > 1 {
      assert Join(ps, "/") == ps[0] + "/" + Join(ps[1..], "/");
    }
  }

  /** Rendering keeps the root it is given. */
  lemma RootOfRender(root: string, ps: seq<string>)
    requires root == "" || root == "/" || root == "//"
    requires forall k :: 0 <= k < |ps| ==> CleanPart(ps[k])
    ensures Root(Render(root, ps)) == root
  {
    JoinStartsClean(ps);
    var body := Join(ps, "/");
    if root != "" || |ps| > 0 {
      var r := Render(root, ps);
      assert r == root + body;
      if |body| > 0 {
        assert r[|root|] == body[0];
      }
    }
  }

  /** Normalising does not change the parts (so `Name` is stable under it). */
  lemma NormalizeKeepsParts(s: string)
    ensures Parts(Normalize(s)) == Parts(s)
    ensures Root(Normalize(s)) == Root(s)
  {
    PartsOfRender(Root(s), Parts(s));
    RootOfRender(Root(s), Parts(s));
  }

  /** The child's name is the appended component and its parent's name is the
      base's name. */
  lemma ChildNames(base: string, name: string)
    requires CleanPart(name)
    ensures Name(Child(base, name)) == name
    ensures Name(Parent(Child(base, name))) == Name(base)
  {
    var ps := Parts(base) + [name];
    PartsOfRender(Root(base), ps);
    var c := Child(base, name);
    assert Parts(c) == ps;
    assert ps[..|ps| - 1] == Parts(base);
    PartsOfRender(Root(c), Parts(base));
  }

  /** The parts of `a + "/" + b` for a clean single component `b`. */
  lemma PartsAppend(a: string, b: string)
    requires CleanPart(b)
    ensures Parts(a + "/" + b) == Parts(a) + [b]
  {
    SplitAtSeparator(a, b);
    SplitNoSeparator(b);
    CleanAppend(Split(a), [b]);
  }

  /** Index of the last occurrence of `c` in `s`, or -1 (Python's `rfind`). */
  function LastIndexOf(s: string, c: char): (r: int)
    ensures -1 <= r < |s|
    ensures r >= 0 ==> s[r] == c
    ensures forall j :: r < j < |s| ==> s[j] != c
  {
    if |s| == 0 then -1
    else if s[|s| - 1] == c then |s| - 1
    else LastIndexOf(s[..|s| - 1], c)
  }

  /** `PurePath.suffix` of a final component `name`. */
  function Suffix(name: string): string {
    var i := LastIndexOf(name, '.');
    if 0 < i < |name| - 1 then name[i..] else ""
  }

  /** `PurePath.stem` of a final component `name`. */
  function Stem(name: string): string {
    var i := LastIndexOf(name, '.');
    if 0 < i < |name| - 1 then name[..i] else name
  }

  /** Stem and suffix split the name; the suffix is empty or a dot followed by
      at least one non-dot character; a non-empty name has a non-empty stem. */
  lemma StemSuffix(name: string)
    ensures Stem(name) + Suffix(name) == name
    ensures Suffix(name) == "" || (|Suffix(name)| >= 2 && Suffix(name)[0] == '.'
                                   && '.' !in Suffix(name)[1..])
    ensures |name| > 0 ==> |Stem(name)| > 0
  {
    var i := LastIndexOf(name, '.');
    if 0 < i < |name| - 1 {
      assert name[..i] + name[i..] == name;
      assert forall j :: 0 <= j < |name[i..][1..]| ==> name[i..][1..][j] == name[i + 1 + j];
    }
  }
}
