/** The sandbox's path resolution: what a caller's text may name, and what is printed back. */
module SandboxFiles {
  import opened Basics
  import opened Paths

  datatype Refusal = WorkspaceEscapes | AbsoluteNotAllowed | PathEscapes | RootCannotBeDeleted

  // ---------------------------------------------------------------- texts

  /** The white space and line terminators that trimming removes. */
  predicate IsSpace(c: char) {
    var n := c as int;
    || 9 <= n <= 13 || n == 32 || n == 0xA0 || n == 0x1680 || 0x2000 <= n <= 0x200A
    || n == 0x2028 || n == 0x2029 || n == 0x202F || n == 0x205F || n == 0x3000 || n == 0xFEFF
  }

  function TrimLeft(s: string): string { if s != "" && IsSpace(s[0]) then TrimLeft(s[1..]) else s }

  function TrimRight(s: string): string {
    if s != "" && IsSpace(s[|s| - 1]) then TrimRight(s[..|s| - 1]) else s
  }

  function Trim(s: string): string { TrimRight(TrimLeft(s)) }

  function DropLeadingSlashes(s: string): string { if s != "" && s[0] == '/' then DropLeadingSlashes(s[1..]) else s }

  function DropTrailingSlashes(s: string): string {
    if s != "" && s[|s| - 1] == '/' then DropTrailingSlashes(s[..|s| - 1]) else s
  }

  predicate IsLetter(c: char) { 'a' <= c <= 'z' || 'A' <= c <= 'Z' }

  predicate IsAbsolute(s: string) {
    || (s != "" && (s[0] == '/' || s[0] == '\\'))
    || (|s| >= 3 && IsLetter(s[0]) && s[1] == ':' && (s[2] == '/' || s[2] == '\\'))
  }

  predicate HasDotDot(s: string) { ".." in Split(s, AnySlash()) }

  // ---------------------------------------------------------------- the service

  /** Reads the way from the root to the target: not up, and not looking absolute. */
  predicate IsInside(root: Path, target: Path) {
    var rel := Relative(root, target);
    rel == "" || (!(".." <= rel) && !IsAbsolute(rel))
  }

  function Root(mount: Path, workspace: string, full: bool): Result<Path, Refusal> {
    if full then Ok(mount)
    else
      var clean := DropTrailingSlashes(DropLeadingSlashes(Trim(workspace)));
      if clean == "" then Ok(mount)
      else
        var target := Resolve(mount, clean);
        if IsInside(mount, target) then Ok(target) else Err(WorkspaceEscapes)
  }

  function Clean(path: string): string { if Trim(path) == "" then "." else Trim(path) }

  function ResolvePath(mount: Path, path: string, workspace: string, full: bool): Result<Path, Refusal> {
    var clean := Clean(path);
    if IsAbsolute(clean) then Err(AbsoluteNotAllowed)
    else if HasDotDot(clean) then Err(PathEscapes)
    else
      match Root(mount, workspace, full)
      case Err(e) => Err(e)
      case Ok(root) =>
        var target := Resolve(root, clean);
        if IsInside(root, target) then Ok(target) else Err(PathEscapes)
  }

  /** What a target is called when it is printed. */
  function Printed(root: Path, target: Path): string {
    if Relative(root, target) == "" then "." else Relative(root, target)
  }

  function ToRelative(mount: Path, target: Path, workspace: string, full: bool): Result<string, Refusal> {
    match Root(mount, workspace, full)
    case Err(e) => Err(e)
    case Ok(root) => Ok(Printed(root, target))
  }

  /** The path a delete would remove. */
  function DeleteTarget(mount: Path, path: string, workspace: string, full: bool): Result<Path, Refusal> {
    match Root(mount, workspace, full)
    case Err(e) => Err(e)
    case Ok(root) =>
      match ResolvePath(mount, path, workspace, full)
      case Err(e) => Err(e)
      case Ok(target) => if target == root then Err(RootCannotBeDeleted) else Ok(target)
  }

  // ---------------------------------------------------------------- containment

  /** The inside check never lets anything out: whatever passes lies below the root. It is not exact:
      of what lies below, it refuses just what prints as if it went up or were absolute. */
  lemma InsideExactly(root: Path, target: Path)
    requires Normal(target)
    ensures IsInside(root, target) <==>
              root <= target &&
              (root == target || (!(".." <= Join(target[|root|..])) && !IsAbsolute(Join(target[|root|..]))))
  {
    if root <= target {
      RelativeBelow(root, target);
      JoinEmpty(target[|root|..]);
    } else {
      RelativeAbove(root, target);
    }
  }

  /** A name that begins with two dots lies inside and is refused all the same. */
  lemma DottedNamesAreRefused(root: Path)
    requires Normal(root)
    ensures root <= Resolve(root, "..notes") && !IsInside(root, Resolve(root, "..notes"))
  {
    SplitExtend("", "..notes", Slash());
    assert "" + "..notes" == "..notes";
    assert Split("..notes", Slash()) == ["..notes"];
    assert Walk(root, ["..notes"]) == Enter(Walk(root, ["..notes"][..0]), "..notes");
    var target := Resolve(root, "..notes");
    assert target == root + ["..notes"] && target[|root|..] == ["..notes"];
    assert Normal(target);
    InsideExactly(root, target);
    assert ".." <= Join(["..notes"]);
  }

  lemma RootInside(mount: Path, workspace: string, full: bool)
    requires Normal(mount) && Root(mount, workspace, full).Ok?
    ensures mount <= Root(mount, workspace, full).value && Normal(Root(mount, workspace, full).value)
  {
    var clean := DropTrailingSlashes(DropLeadingSlashes(Trim(workspace)));
    ResolveIsNormal(mount, clean);
    InsideExactly(mount, Resolve(mount, clean));
  }

  /** Which root a workspace gives: the mount for full access or an empty name, and otherwise the mount
      followed by the names of the workspace, unless it leaves the mount or would look as if it did. */
  lemma RootExactly(mount: Path, workspace: string, full: bool)
    requires Normal(mount)
    ensures var clean := DropTrailingSlashes(DropLeadingSlashes(Trim(workspace)));
            var names, r := Real(Split(clean, Slash())), Root(mount, workspace, full);
            && (full || clean == "" ==> r == Ok(mount))
            && (!full && clean != "" ==>
                  && (r.Ok? <==> Names(mount, Resolve(mount, clean)))
                  && (r.Ok? ==> r.value == Resolve(mount, clean)))
            && (!full && ".." !in Split(clean, Slash()) ==>
                  && (r.Ok? <==> names == [] || (!(".." <= Join(names)) && !IsAbsolute(Join(names))))
                  && (r.Ok? ==> r.value == mount + names))
  {
    var clean := DropTrailingSlashes(DropLeadingSlashes(Trim(workspace)));
    var parts := Split(clean, Slash());
    ResolveIsNormal(mount, clean);
    InsideExactly(mount, Resolve(mount, clean));
    if ".." !in parts {
      assert forall i :: 0 <= i < |parts| ==> parts[i] in parts;
      WalkDown(mount, parts);
      assert (mount + Real(parts))[|mount|..] == Real(parts);
    }
    if clean == "" {
      assert Real([""]) == Real([""][..0]) + [];
      assert mount + [] == mount;
    }
  }

  /** A path at or below the mount whose names, printed, neither go up nor look absolute. */
  predicate Names(mount: Path, target: Path) {
    && mount <= target
    && (mount == target || (!(".." <= Join(target[|mount|..])) && !IsAbsolute(Join(target[|mount|..]))))
  }

  lemma {:induction false} TrimLeftExactly(s: string) returns (i: nat)
    ensures i <= |s| && TrimLeft(s) == s[i..] && (forall k :: 0 <= k < i ==> IsSpace(s[k]))
    ensures i < |s| ==> !IsSpace(s[i])
  {
    if s != "" && IsSpace(s[0]) {
      i := TrimLeftExactly(s[1..]);
      i := i + 1;
    } else {
      i := 0;
    }
  }

  lemma {:induction false} TrimRightExactly(s: string) returns (j: nat)
    ensures j <= |s| && TrimRight(s) == s[..j] && (forall k :: j <= k < |s| ==> IsSpace(s[k]))
    ensures j > 0 ==> !IsSpace(s[j - 1])
  {
    if s != "" && IsSpace(s[|s| - 1]) {
      j := TrimRightExactly(s[..|s| - 1]);
    } else {
      j := |s|;
    }
  }

  /** Trimming takes away the white space at both ends and nothing else. */
  lemma TrimExactly(s: string) returns (i: nat, j: nat)
    ensures i <= j <= |s| && Trim(s) == s[i..j]
    ensures (forall k :: 0 <= k < i ==> IsSpace(s[k])) && (forall k :: j <= k < |s| ==> IsSpace(s[k]))
    ensures i < j ==> !IsSpace(s[i]) && !IsSpace(s[j - 1])
  {
    i := TrimLeftExactly(s);
    j := TrimRightExactly(s[i..]);
    j := i + j;
  }

  lemma {:induction false} LeadingSlashesExactly(s: string) returns (i: nat)
    ensures i <= |s| && DropLeadingSlashes(s) == s[i..] && (forall k :: 0 <= k < i ==> s[k] == '/')
    ensures i < |s| ==> s[i] != '/'
  {
    if s != "" && s[0] == '/' {
      i := LeadingSlashesExactly(s[1..]);
      i := i + 1;
    } else {
      i := 0;
    }
  }

  lemma {:induction false} TrailingSlashesExactly(s: string) returns (j: nat)
    ensures j <= |s| && DropTrailingSlashes(s) == s[..j] && (forall k :: j <= k < |s| ==> s[k] == '/')
    ensures j > 0 ==> s[j - 1] != '/'
  {
    if s != "" && s[|s| - 1] == '/' {
      j := TrailingSlashesExactly(s[..|s| - 1]);
    } else {
      j := |s|;
    }
  }

  /** Every accepted path lies below its root, which lies below the mount; its segments are names. */
  lemma AcceptedIsContained(mount: Path, path: string, workspace: string, full: bool)
    requires Normal(mount) && ResolvePath(mount, path, workspace, full).Ok?
    ensures Root(mount, workspace, full).Ok?
    ensures var root, target := Root(mount, workspace, full).value, ResolvePath(mount, path, workspace, full).value;
            mount <= root <= target && Normal(target)
  {
    RootInside(mount, workspace, full);
    var root := Root(mount, workspace, full).value;
    ResolveIsNormal(root, Clean(path));
    InsideExactly(root, Resolve(root, Clean(path)));
  }

  /** What is deleted lies strictly below the root. */
  lemma RootIsNeverDeleted(mount: Path, path: string, workspace: string, full: bool)
    requires Normal(mount) && DeleteTarget(mount, path, workspace, full).Ok?
    ensures var root, target := Root(mount, workspace, full).value, DeleteTarget(mount, path, workspace, full).value;
            mount <= root < target
  {
    AcceptedIsContained(mount, path, workspace, full);
  }

  // ---------------------------------------------------------------- the text of an accepted path

  lemma DotDotSplit()
    ensures Split("..", AnySlash()) == [".."]
  {
    SplitExtend("", "..", AnySlash());
    assert "" + ".." == "..";
  }

  /** Without a ".." part the text only goes down. */
  lemma ResolvesDown(root: Path, clean: string)
    requires !HasDotDot(clean)
    ensures Resolve(root, clean) == root + Real(Split(clean, Slash()))
  {
    var parts := Split(clean, Slash());
    JoinSplit(clean);
    SplitFlat(parts);
    DotDotSplit();
    forall i | 0 <= i < |parts| ensures parts[i] != ".." {
      if parts[i] == ".." {
        FlatHas(parts, i, "..", AnySlash());
      }
    }
    WalkDown(root, parts);
  }

  /** Nor has what it is printed as. */
  lemma PrintedHasNoDotDot(clean: string)
    requires !HasDotDot(clean) && Real(Split(clean, Slash())) != []
    ensures !HasDotDot(Join(Real(Split(clean, Slash()))))
  {
    var parts := Split(clean, Slash());
    JoinSplit(clean);
    SplitFlat(parts);
    SplitFlat(Real(parts));
    if ".." in Flat(Real(parts), AnySlash()) {
      FlatReal(parts, "..", AnySlash());
    }
  }

  /** What is accepted, exactly, and what it means: the root followed by the names in the text. A
      text is refused only for looking absolute, for a ".." part, for its workspace, or because its
      names, printed, would look as if they went up or were absolute. */
  lemma AcceptedExactly(mount: Path, path: string, workspace: string, full: bool)
    requires Normal(mount)
    ensures var clean, root := Clean(path), Root(mount, workspace, full);
            var names := Real(Split(clean, Slash()));
            && (ResolvePath(mount, path, workspace, full).Ok? <==>
                  && !IsAbsolute(clean) && !HasDotDot(clean) && root.Ok?
                  && (names == [] || (!(".." <= Join(names)) && !IsAbsolute(Join(names)))))
            && (ResolvePath(mount, path, workspace, full).Ok? ==>
                  ResolvePath(mount, path, workspace, full).value == root.value + names)
  {
    var clean := Clean(path);
    if !IsAbsolute(clean) && !HasDotDot(clean) && Root(mount, workspace, full).Ok? {
      var root := Root(mount, workspace, full).value;
      var names := Real(Split(clean, Slash()));
      RootInside(mount, workspace, full);
      ResolvesDown(root, clean);
      ResolveIsNormal(root, clean);
      InsideExactly(root, root + names);
      assert (root + names)[|root|..] == names;
    }
  }

  /** Begins at the root of a file system: with a slash, a backslash, or a drive. */
  predicate Rooted(s: string) {
    || "/" <= s || "\\" <= s
    || exists c :: ('a' <= c <= 'z' || 'A' <= c <= 'Z') && ([c] + ":/" <= s || [c] + ":\\" <= s)
  }

  lemma RootedExactly(s: string)
    ensures IsAbsolute(s) <==> Rooted(s)
  {
    if IsAbsolute(s) && s[0] != '/' && s[0] != '\\' {
      assert [s[0]] + ":/" <= s || [s[0]] + ":\\" <= s;
    }
  }

  /** Why a text is refused: because it looks absolute, and otherwise for a ".." part before its workspace,
      and for its names after it. The root itself may be named but not deleted. */
  lemma RefusedExactly(mount: Path, path: string, workspace: string, full: bool)
    requires Normal(mount)
    ensures var clean, root, r := Clean(path), Root(mount, workspace, full), ResolvePath(mount, path, workspace, full);
            var names, d := Real(Split(clean, Slash())), DeleteTarget(mount, path, workspace, full);
            && (Rooted(clean) ==> r == Err(AbsoluteNotAllowed))
            && (!Rooted(clean) && HasDotDot(clean) ==> r == Err(PathEscapes))
            && (!Rooted(clean) && !HasDotDot(clean) && root.Err? ==> r == Err(WorkspaceEscapes))
            && (!Rooted(clean) && !HasDotDot(clean) && root.Ok? ==>
                  if names != [] && (".." <= Join(names) || Rooted(Join(names))) then r == Err(PathEscapes)
                  else r == Ok(root.value + names))
            && d == if root.Err? then Err(WorkspaceEscapes)
                    else if r == Ok(root.value) then Err(RootCannotBeDeleted) else r
  {
    RootedExactly(Clean(path));
    RootedExactly(Join(Real(Split(Clean(path), Slash()))));
    AcceptedExactly(mount, path, workspace, full);
  }

  // ---------------------------------------------------------------- round trips

  lemma {:induction false} TrimLeftShortens(s: string)
    ensures |TrimLeft(s)| <= |s| && (|TrimLeft(s)| == |s| ==> TrimLeft(s) == s)
  {
    if s != "" && IsSpace(s[0]) {
      TrimLeftShortens(s[1..]);
    }
  }

  lemma {:induction false} TrimRightShortens(s: string)
    ensures |TrimRight(s)| <= |s| && (|TrimRight(s)| == |s| ==> TrimRight(s) == s)
  {
    if s != "" && IsSpace(s[|s| - 1]) {
      TrimRightShortens(s[..|s| - 1]);
    }
  }

  lemma TrimShortens(s: string)
    ensures |Trim(s)| <= |s| && (|Trim(s)| == |s| ==> Trim(s) == s)
  {
    TrimLeftShortens(s);
    TrimRightShortens(TrimLeft(s));
  }

  /** The names of a path come back from its text. */
  lemma NamesComeBack(root: Path, rest: Path)
    requires Normal(rest) && rest != []
    ensures Resolve(root, Join(rest)) == root + rest
  {
    SplitJoin(rest);
    RealOfNormal(rest);
    assert forall i :: 0 <= i < |rest| ==> Segment(rest[i]);
    WalkDown(root, rest);
  }

  /** A text that resolves to a path is at least as long as the path's own text. */
  lemma NoShorterText(root: Path, rest: Path, clean: string)
    requires !HasDotDot(clean) && Resolve(root, clean) == root + rest
    ensures |Join(rest)| <= |clean|
  {
    var parts := Split(clean, Slash());
    ResolvesDown(root, clean);
    assert (root + rest)[|root|..] == rest && (root + Real(parts))[|root|..] == Real(parts);
    RealIsShorter(parts);
    JoinSplit(clean);
  }

  /** Any path below the root, printed and resolved again: it is the same path exactly when its
      text has no edge whitespace, does not look absolute, has no ".." part between slashes or
      backslashes, and does not begin with two dots. */
  lemma RoundTripExactly(mount: Path, target: Path, workspace: string, full: bool)
    requires Normal(mount) && Normal(target) && Root(mount, workspace, full).Ok?
    requires Root(mount, workspace, full).value < target
    ensures var rel := Printed(Root(mount, workspace, full).value, target);
            ResolvePath(mount, rel, workspace, full) == Ok(target) <==>
              Trim(rel) == rel && !IsAbsolute(rel) && !HasDotDot(rel) && !(".." <= rel)
  {
    var root := Root(mount, workspace, full).value;
    var rest := target[|root|..];
    var rel := Printed(root, target);
    RelativeBelow(root, target);
    JoinEmpty(rest);
    assert rel == Join(rest) && target == root + rest;
    InsideExactly(root, target);
    TrimShortens(rel);
    if Trim(rel) == rel && !IsAbsolute(rel) && !HasDotDot(rel) && !(".." <= rel) {
      NamesComeBack(root, rest);
    }
    if ResolvePath(mount, rel, workspace, full) == Ok(target) {
      var clean := Clean(rel);
      NoShorterText(root, rest, clean);
      if Trim(rel) == "" {
        DotIsNothing(root);
      }
    }
  }

  lemma DotIsNothing(root: Path)
    ensures Resolve(root, ".") == root
  {
    SplitExtend("", ".", Slash());
    assert "" + "." == ".";
    assert Walk(root, ["."]) == Enter(Walk(root, ["."][..0]), ".");
  }

  /** For the target of an accepted path only the edge whitespace is left to ask for; the root itself
      always comes back. */
  lemma AcceptedRoundTrip(mount: Path, path: string, workspace: string, full: bool)
    requires Normal(mount) && ResolvePath(mount, path, workspace, full).Ok?
    ensures var target := ResolvePath(mount, path, workspace, full).value;
            var printed := ToRelative(mount, target, workspace, full);
            && printed.Ok?
            && (ResolvePath(mount, printed.value, workspace, full) == Ok(target) <==>
                 Trim(printed.value) == printed.value)
  {
    AcceptedIsContained(mount, path, workspace, full);
    var root, target := Root(mount, workspace, full).value, ResolvePath(mount, path, workspace, full).value;
    var rel, rest := Printed(root, target), target[|root|..];
    ResolvesDown(root, Clean(path));
    assert rest == Real(Split(Clean(path), Slash()));
    RelativeBelow(root, target);
    JoinEmpty(rest);
    InsideExactly(root, target);
    if rest == [] {
      RootComesBack(mount, workspace, full);
      assert target == root;
    } else {
      PrintedHasNoDotDot(Clean(path));
      RoundTripExactly(mount, target, workspace, full);
    }
  }

  lemma RootComesBack(mount: Path, workspace: string, full: bool)
    requires Normal(mount) && Root(mount, workspace, full).Ok?
    ensures Trim(".") == "." && ResolvePath(mount, ".", workspace, full) == Root(mount, workspace, full)
  {
    var root := Root(mount, workspace, full).value;
    assert Trim(".") == ".";
    SplitExtend("", ".", AnySlash());
    assert "" + "." == ".";
    DotIsNothing(root);
    RelativeBelow(root, root);
    assert root[|root|..] == [];
  }
}
