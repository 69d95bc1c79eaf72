/** POSIX paths: absolute paths as sequences of segments, and the texts that name them. */
module Paths {
  import opened Basics

  /** An absolute, normalized path. */
  type Path = seq<string>

  predicate Segment(s: string) { s != "" && s != "." && s != ".." && '/' !in s }

  predicate Normal(p: Path) { forall i :: 0 <= i < |p| ==> Segment(p[i]) }

  // ---------------------------------------------------------------- splitting and joining

  function Split(s: string, sep: char -> bool): (parts: seq<string>)
    ensures parts != []
  {
    if s == "" then [""]
    else
      var front, c := Split(s[..|s| - 1], sep), s[|s| - 1];
      if sep(c) then front + [""] else front[|front| - 1 := front[|front| - 1] + [c]]
  }

  function Slash(): char -> bool { (c: char) => c == '/' }

  function AnySlash(): char -> bool { (c: char) => c == '/' || c == '\\' }

  function Join(segs: seq<string>): string {
    if segs == [] then "" else if |segs| == 1 then segs[0] else Join(segs[..|segs| - 1]) + "/" + segs[|segs| - 1]
  }

  lemma {:induction false} PartsHaveNoSlash(s: string)
    ensures forall i :: 0 <= i < |Split(s, Slash())| ==> '/' !in Split(s, Slash())[i]
  {
    if s != "" {
      PartsHaveNoSlash(s[..|s| - 1]);
    }
  }

  /** Text without a separator extends the last part. */
  lemma {:induction false} SplitExtend(a: string, b: string, sep: char -> bool)
    requires forall c :: c in b ==> !sep(c)
    ensures var p := Split(a, sep); Split(a + b, sep) == p[|p| - 1 := p[|p| - 1] + b]
  {
    var p := Split(a, sep);
    if b == "" {
      assert a + b == a && p[|p| - 1] + b == p[|p| - 1];
    } else {
      var m := |b| - 1;
      SplitExtend(a, b[..m], sep);
      assert (a + b)[..|a + b| - 1] == a + b[..m];
      assert b[m] in b;
      assert p[|p| - 1] + b[..m] + [b[m]] == p[|p| - 1] + b;
    }
  }

  lemma SplitSlash(a: string)
    ensures Split(a + "/", Slash()) == Split(a, Slash()) + [""]
  {
    assert (a + "/")[..|a|] == a;
  }

  /** Splitting undoes joining. */
  lemma {:induction false} SplitJoin(segs: seq<string>)
    requires segs != [] && forall i :: 0 <= i < |segs| ==> '/' !in segs[i]
    ensures Split(Join(segs), Slash()) == segs
  {
    var n := |segs| - 1;
    assert "" + segs[n] == segs[n] && segs == segs[..n] + [segs[n]];
    if n == 0 {
      SplitExtend("", segs[0], Slash());
    } else {
      SplitJoin(segs[..n]);
      SplitSlash(Join(segs[..n]));
      SplitExtend(Join(segs[..n]) + "/", segs[n], Slash());
    }
  }

  lemma {:induction false} JoinSplit(s: string)
    ensures Join(Split(s, Slash())) == s
  {
    if s != "" {
      var front, c := Split(s[..|s| - 1], Slash()), s[|s| - 1];
      JoinSplit(s[..|s| - 1]);
      assert s == s[..|s| - 1] + [c];
      if c == '/' {
        assert (front + [""])[..|front|] == front;
      } else {
        var more := front[|front| - 1 := front[|front| - 1] + [c]];
        assert more[..|more| - 1] == front[..|front| - 1];
      }
    }
  }

  /** A separator splits the text in two. */
  lemma {:induction false} SplitAt(a: string, c: char, b: string, sep: char -> bool)
    requires sep(c)
    ensures Split(a + [c] + b, sep) == Split(a, sep) + Split(b, sep)
  {
    var s := a + [c] + b;
    if b == "" {
      assert s == a + [c] && s[..|s| - 1] == a;
    } else {
      var m := |b| - 1;
      SplitAt(a, c, b[..m], sep);
      assert s[..|s| - 1] == a + [c] + b[..m];
    }
  }

  /** The parts of all the texts. */
  function Flat(segs: seq<string>, sep: char -> bool): seq<string> {
    if segs == [] then [] else Flat(segs[..|segs| - 1], sep) + Split(segs[|segs| - 1], sep)
  }

  /** A finer splitting of a joined text splits the texts that were joined. */
  lemma {:induction false} SplitFlat(segs: seq<string>)
    requires segs != []
    ensures Split(Join(segs), AnySlash()) == Flat(segs, AnySlash())
  {
    var n := |segs| - 1;
    if n == 0 {
      assert Flat(segs[..0], AnySlash()) == [];
    } else {
      SplitFlat(segs[..n]);
      SplitAt(Join(segs[..n]), '/', segs[n], AnySlash());
    }
  }

  lemma {:induction false} FlatHas(segs: seq<string>, i: nat, part: string, sep: char -> bool)
    requires i < |segs| && part in Split(segs[i], sep)
    ensures part in Flat(segs, sep)
  {
    if i < |segs| - 1 {
      FlatHas(segs[..|segs| - 1], i, part, sep);
    }
  }

  // ---------------------------------------------------------------- resolving

  function Enter(p: Path, seg: string): Path {
    if seg == "" || seg == "." then p
    else if seg == ".." then (if p == [] then p else p[..|p| - 1])
    else p + [seg]
  }

  function Walk(base: Path, segs: seq<string>): Path {
    if segs == [] then base else Enter(Walk(base, segs[..|segs| - 1]), segs[|segs| - 1])
  }

  /** A relative text resolved against an absolute path. */
  function Resolve(base: Path, text: string): Path { Walk(base, Split(text, Slash())) }

  /** Where one more part of a text leads: nowhere for an empty part or a dot, up for two dots, but not
      above the top, and down for any other. */
  predicate Leads(p: Path, part: string, q: Path) {
    if part == "" || part == "." then q == p
    else if part == ".." then (p == [] ==> q == []) && (p != [] ==> |q| == |p| - 1 && q <= p)
    else |q| == |p| + 1 && p <= q && q[|p|] == part
  }

  lemma EnterLeads(p: Path, part: string)
    ensures Leads(p, part, Enter(p, part))
  {
  }

  /** A text of one part. */
  lemma ResolveOne(base: Path, part: string)
    requires '/' !in part
    ensures Leads(base, part, Resolve(base, part))
  {
    SplitExtend("", part, Slash());
    assert "" + part == part;
    assert Split(part, Slash()) == [part];
    assert Walk(base, [part]) == Enter(Walk(base, [part][..0]), part);
    EnterLeads(base, part);
  }

  /** The parts of a longer text lead on one after the other. */
  lemma ResolveStep(base: Path, text: string, part: string)
    requires '/' !in part
    ensures Leads(Resolve(base, text), part, Resolve(base, text + "/" + part))
  {
    var parts := Split(text, Slash());
    SplitSlash(text);
    SplitExtend(text + "/", part, Slash());
    assert "" + part == part && Split(text + "/" + part, Slash()) == parts + [part];
    assert (parts + [part])[..|parts|] == parts;
    EnterLeads(Resolve(base, text), part);
  }

  /** The segments that name something. */
  function Real(segs: seq<string>): seq<string> {
    if segs == [] then []
    else
      var s := segs[|segs| - 1];
      Real(segs[..|segs| - 1]) + (if s == "" || s == "." then [] else [s])
  }

  lemma {:induction false} WalkDown(base: Path, segs: seq<string>)
    requires forall i :: 0 <= i < |segs| ==> segs[i] != ".."
    ensures Walk(base, segs) == base + Real(segs)
  {
    if segs != [] {
      WalkDown(base, segs[..|segs| - 1]);
    } else {
      assert base + [] == base;
    }
  }

  lemma {:induction false} WalkIsNormal(base: Path, segs: seq<string>)
    requires Normal(base) && forall i :: 0 <= i < |segs| ==> '/' !in segs[i]
    ensures Normal(Walk(base, segs))
  {
    if segs != [] {
      WalkIsNormal(base, segs[..|segs| - 1]);
    }
  }

  lemma ResolveIsNormal(base: Path, text: string)
    requires Normal(base)
    ensures Normal(Resolve(base, text))
  {
    PartsHaveNoSlash(text);
    WalkIsNormal(base, Split(text, Slash()));
  }

  lemma {:induction false} RealOfNormal(p: Path)
    requires Normal(p)
    ensures Real(p) == p
  {
    if p != [] {
      RealOfNormal(p[..|p| - 1]);
      assert p == p[..|p| - 1] + [p[|p| - 1]];
    }
  }

  lemma {:induction false} FlatReal(segs: seq<string>, part: string, sep: char -> bool)
    requires part in Flat(Real(segs), sep)
    ensures part in Flat(segs, sep)
  {
    if segs != [] {
      var n := |segs| - 1;
      var r := Real(segs[..n]);
      if segs[n] == "" || segs[n] == "." {
        assert Real(segs) == r;
        FlatReal(segs[..n], part, sep);
      } else {
        assert Real(segs)[..|r|] == r;
        if part !in Split(segs[n], sep) {
          FlatReal(segs[..n], part, sep);
        }
      }
    }
  }

  // ---------------------------------------------------------------- relative texts

  /** Length of the common beginning. */
  function Common(a: Path, b: Path): (k: nat)
    ensures k <= |a| && k <= |b| && a[..k] == b[..k]
    ensures k == |a| <==> a <= b
  {
    if a == [] || b == [] || a[0] != b[0] then 0
    else
      var k := 1 + Common(a[1..], b[1..]);
      assert a[..k] == [a[0]] + a[1..][..k - 1] && b[..k] == [b[0]] + b[1..][..k - 1];
      k
  }

  function Ups(n: nat): seq<string> { seq(n, _ => "..") }

  /** How to get from one path to another. */
  function Relative(from: Path, to: Path): string {
    var k := Common(from, to);
    Join(Ups(|from| - k) + to[k..])
  }

  lemma RelativeBelow(from: Path, to: Path)
    requires from <= to
    ensures Relative(from, to) == Join(to[|from|..])
  {
    var k := Common(from, to);
    assert Ups(0) + to[k..] == to[k..];
  }

  lemma {:induction false} JoinStarts(segs: seq<string>)
    requires segs != []
    ensures segs[0] <= Join(segs)
  {
    if |segs| > 1 {
      JoinStarts(segs[..|segs| - 1]);
    }
  }

  /** A way that goes up starts with two dots. */
  lemma RelativeAbove(from: Path, to: Path)
    requires !(from <= to)
    ensures Relative(from, to) != "" && ".." <= Relative(from, to)
  {
    var k := Common(from, to);
    JoinStarts(Ups(|from| - k) + to[k..]);
  }

  lemma {:induction false} JoinEmpty(p: Path)
    requires Normal(p)
    ensures Join(p) == "" <==> p == []
  {
    if |p| == 1 {
      assert Segment(p[0]);
    }
  }

  /** The names in a text, joined again, are no longer than the text. */
  lemma {:induction false} RealIsShorter(segs: seq<string>)
    ensures |Join(Real(segs))| <= |Join(segs)|
    ensures Real(segs) != [] ==> segs != []
  {
    if |segs| == 1 {
      assert Real(segs[..0]) == [];
      assert Real(segs) == [] || Real(segs) == segs;
    } else if segs != [] {
      var n := |segs| - 1;
      RealIsShorter(segs[..n]);
      var r := Real(segs[..n]);
      if segs[n] == "" || segs[n] == "." {
        assert Real(segs) == r;
      } else {
        assert Real(segs) == r + [segs[n]];
        assert Real(segs)[..|r|] == r;
        if r == [] {
          assert Real(segs) == [segs[n]];
        }
      }
    }
  }
}
