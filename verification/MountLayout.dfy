/**
 Mount layout of a Sandbox pod (internal/controller/agentrun_controller.go): the string-prefix
 collision check on cleaned paths means containment of path segments, so no two mounts of the
 agent container are equal or nested.
 */
module MountLayout {
  import opened Common

  // ---------------------------------------------------------------- paths and segments

  predicate Segment(s: string) {
    s != "" && '/' !in s
  }

  predicate Segments(ss: seq<string>) {
    forall i :: 0 <= i < |ss| ==> Segment(ss[i])
  }

  /** strings.Split(p, "/") */
  function Split(p: string): (parts: seq<string>)
    ensures parts != [] && forall i :: 0 <= i < |parts| ==> '/' !in parts[i]
  {
    if p == "" then [""]
    else
      var rest := Split(p[1..]);
      if p[0] == '/' then [""] + rest else [[p[0]] + rest[0]] + rest[1..]
  }

  /** Resolve "", "." and ".." lexically; above the root there is only the root. */
  function Normalize(parts: seq<string>, acc: seq<string>): (r: seq<string>)
    requires (forall i :: 0 <= i < |parts| ==> '/' !in parts[i]) && Segments(acc)
    ensures Segments(r)
  {
    if parts == [] then acc
    else if parts[0] == "" || parts[0] == "." then Normalize(parts[1..], acc)
    else if parts[0] == ".." then Normalize(parts[1..], if acc == [] then [] else acc[..|acc| - 1])
    else Normalize(parts[1..], acc + [parts[0]])
  }

  function PathSegments(p: string): (r: seq<string>)
    ensures Segments(r)
  {
    Normalize(Split(p), [])
  }

  function Body(ss: seq<string>): string {
    if ss == [] then "" else "/" + ss[0] + Body(ss[1..])
  }

  function Render(ss: seq<string>): string {
    if ss == [] then "/" else Body(ss)
  }

  /** path.Clean on an absolute path. */
  function Clean(p: string): string {
    Render(PathSegments(p))
  }

  predicate IsAbs(p: string) {
    p != "" && p[0] == '/'
  }

  predicate HasPrefix(p: string, prefix: string) {
    prefix <= p
  }

  /** isAncestorOrEqual */
  predicate IsAncestorOrEqual(ancestor: string, p: string) {
    ancestor == p || ancestor == "/" || HasPrefix(p, ancestor + "/")
  }

  predicate PathsCollide(a: string, b: string) {
    IsAncestorOrEqual(a, b) || IsAncestorOrEqual(b, a)
  }

  /** One path's segments begin the other's. */
  predicate Nested(a: seq<string>, b: seq<string>) {
    a <= b || b <= a
  }

  lemma {:induction false} BodyAppend(a: seq<string>, b: seq<string>)
    ensures Body(a + b) == Body(a) + Body(b)
  {
    if a == [] {
      assert a + b == b;
    } else {
      assert (a + b)[1..] == a[1..] + b;
      BodyAppend(a[1..], b);
    }
  }

  /** A segment ends at the first slash, so a common prefix cannot cut one short. */
  lemma SegmentBoundary(s: string, x: string, t: string, y: string)
    requires '/' !in s && '/' !in t
    requires x != "" && x[0] == '/' && y != "" && y[0] == '/'
    requires s + x <= t + y
    ensures s == t && x <= y
  {
    var u, v := s + x, t + y;
    assert forall k :: 0 <= k < |s| ==> u[k] == s[k] && u[k] != '/';
    assert forall k :: 0 <= k < |t| ==> v[k] == t[k] && v[k] != '/';
    assert u[|s|] == '/' && v[|t|] == '/';
    assert |s| == |t|;
    assert s == u[..|s|] && t == v[..|t|];
    assert x == u[|s|..] && y == v[|t|..];
  }

  lemma {:induction false} ClosedBodyPrefix(a: seq<string>, b: seq<string>)
    requires Segments(a) && Segments(b)
    requires Body(a) + "/" <= Body(b) + "/"
    ensures a <= b
  {
    assert a != [] ==> |Body(a)| > 0;
    if a != [] {
      var x, y := Body(a[1..]) + "/", Body(b[1..]) + "/";
      assert Body(a) + "/" == "/" + (a[0] + x);
      assert Body(b) + "/" == "/" + (b[0] + y);
      assert (Body(a) + "/")[1..] == a[0] + x && (Body(b) + "/")[1..] == b[0] + y;
      SegmentBoundary(a[0], x, b[0], y);
      ClosedBodyPrefix(a[1..], b[1..]);
    }
  }

  /** On cleaned paths the string test is exactly segment-wise containment. */
  lemma AncestorMeansSegmentPrefix(a: seq<string>, b: seq<string>)
    requires Segments(a) && Segments(b)
    ensures IsAncestorOrEqual(Render(a), Render(b)) <==> a <= b
    ensures PathsCollide(Render(a), Render(b)) <==> Nested(a, b)
  {
    AncestorOneWay(a, b);
    AncestorOneWay(b, a);
  }

  lemma AncestorOneWay(a: seq<string>, b: seq<string>)
    requires Segments(a) && Segments(b)
    ensures IsAncestorOrEqual(Render(a), Render(b)) <==> a <= b
  {
    if a <= b {
      var c := b[|a|..];
      assert b == a + c;
      BodyAppend(a, c);
      if a != [] && c != [] {
        assert Body(b) == (Body(a) + "/") + (c[0] + Body(c[1..]));
      }
    } else {
      assert |a[0]| > 0 && |Body(a)| > 1;
      if IsAncestorOrEqual(Render(a), Render(b)) {
        assert b != [] && Body(a) + "/" <= Body(b) + "/";
        ClosedBodyPrefix(a, b);
      }
    }
  }

  // ---------------------------------------------------------------- cleaning

  lemma {:induction false} SplitConcat(a: string, b: string)
    ensures Split(a + "/" + b) == Split(a) + Split(b)
  {
    if a == "" {
      assert (a + "/" + b)[1..] == b;
    } else {
      var t := a + "/" + b;
      assert t[1..] == a[1..] + "/" + b;
      SplitConcat(a[1..], b);
      if a[0] != '/' {
        var rest := Split(a[1..]);
        assert (rest + Split(b))[1..] == rest[1..] + Split(b);
      }
    }
  }

  lemma {:induction false} NormalizeConcat(x: seq<string>, y: seq<string>, acc: seq<string>)
    requires (forall i :: 0 <= i < |x| ==> '/' !in x[i]) && (forall i :: 0 <= i < |y| ==> '/' !in y[i]) && Segments(acc)
    ensures Normalize(x + y, acc) == Normalize(y, Normalize(x, acc))
    decreases |x|
  {
    if x == [] {
      assert x + y == y;
    } else {
      assert (x + y)[1..] == x[1..] + y;
      var next := if x[0] == "" || x[0] == "." then acc
                  else if x[0] == ".." then (if acc == [] then [] else acc[..|acc| - 1])
                  else acc + [x[0]];
      NormalizeConcat(x[1..], y, next);
    }
  }

  lemma {:induction false} SplitSegment(s: string)
    requires '/' !in s
    ensures Split(s) == [s]
  {
    if s != "" {
      assert forall c :: c in s[1..] ==> c in s;
      SplitSegment(s[1..]);
      assert [s[0]] + s[1..] == s;
    }
  }

  /** One more component: a name goes down, two dots go up, but not above the root, and an empty one or a dot stays. */
  lemma CleanStep(p: string, s: string)
    requires '/' !in s
    ensures var before, after := PathSegments(p), PathSegments(p + "/" + s);
      && (s in {"", "."} ==> after == before)
      && (s == ".." ==> after == if before == [] then [] else before[..|before| - 1])
      && (s !in {"", ".", ".."} ==> after == before + [s])
  {
    SplitConcat(p, s);
    SplitSegment(s);
    NormalizeConcat(Split(p), [s], []);
  }

  lemma CleanRoot()
    ensures PathSegments("") == [] && Clean("") == "/" && Clean("/") == "/"
  {
    assert "/"[1..] == "";
    assert Split("/") == ["", ""];
    assert ["", ""][1..] == [""] && [""][1..] == [];
  }

  /** A cleaned path is clean. */
  lemma {:induction false} CleanIsIdempotent(ss: seq<string>)
    requires Segments(ss) && forall i :: 0 <= i < |ss| ==> ss[i] !in {".", ".."}
    ensures PathSegments(Body(ss)) == ss
  {
    if ss == [] {
      CleanRoot();
    } else {
      var front, last := ss[..|ss| - 1], ss[|ss| - 1];
      assert ss == front + [last];
      BodyAppend(front, [last]);
      assert Body([last]) == "/" + last;
      assert Body(ss) == Body(front) + "/" + last;
      CleanIsIdempotent(front);
      CleanStep(Body(front), last);
    }
  }

  // ---------------------------------------------------------------- validateFileMounts

  datatype FileMount = FileMount(secretName: string, configMapName: string, mountPath: string, items: seq<string>)

  const SKILLS := ["opt", "skills"]
  const SKILLS_SRC := ["opt", "skills-src"]
  const PARAMS := ["run", "konveyor"]
  const WORKSPACE := ["workspace"]
  const TMP := ["tmp"]
  const SERVICE_ACCOUNT := ["var", "run", "secrets", "kubernetes.io", "serviceaccount"]

  /** reservedMountPaths, as segments: /opt/skills, /opt/skills-src, /run/konveyor, and so on. */
  const RESERVED: seq<seq<string>> := [SKILLS, SKILLS_SRC, PARAMS, WORKSPACE, TMP, SERVICE_ACCOUNT]

  lemma ReservedSegments()
    ensures forall i :: 0 <= i < |RESERVED| ==> Segments(RESERVED[i])
  {
    assert Segment("opt") && Segment("skills") && Segment("skills-src");
    assert Segment("run") && Segment("konveyor") && Segment("workspace") && Segment("tmp");
    assert Segment("var") && Segment("secrets") && Segment("kubernetes.io") && Segment("serviceaccount");
    assert Segments(SKILLS) && Segments(SKILLS_SRC) && Segments(PARAMS);
    assert Segments(WORKSPACE) && Segments(TMP) && Segments(SERVICE_ACCOUNT);
  }

  predicate ExactlyOneSource(m: FileMount) {
    (m.secretName == "") != (m.configMapName == "")
  }

  /** validateFileMountRelativePath */
  predicate RelativePath(p: string) {
    !IsAbs(p) && ".." !in Split(p)
  }

  /** Exactly one of the two names is set; an absolute path starts with a slash. */
  lemma SourceTable(m: FileMount, p: string)
    ensures ExactlyOneSource(m) <==>
      (m.secretName != "" && m.configMapName == "") || (m.secretName == "" && m.configMapName != "")
    ensures IsAbs(p) <==> "/" <= p
    ensures RelativePath(p) <==> !("/" <= p) && ".." !in Split(p)
  {
    assert IsAbs(p) <==> "/" <= p;
  }

  /** Item paths pass exactly if none is empty, starts with a slash or has a component of two dots. */
  lemma ItemsExactly(items: seq<string>)
    ensures ItemsOk(items) <==> forall p :: p in items ==> p != "" && !("/" <= p) && ".." !in Split(p)
  {
    forall p | p in items
      ensures (p != "" && !("/" <= p) && ".." !in Split(p)) <==> (p != "" && RelativePath(p))
    {
      SlashExactly(p);
    }
    assert ItemsOk(items) <==> forall p :: p in items ==> p != "" && RelativePath(p) by {
      assert forall i :: 0 <= i < |items| ==> items[i] in items;
    }
  }

  lemma SlashExactly(p: string)
    ensures IsAbs(p) <==> "/" <= p
  {
    assert IsAbs(p) ==> p[..1] == "/";
  }

  /** An accepted item path cannot lead out of where it is mounted. */
  lemma ItemStaysBelow(base: string, item: string)
    requires RelativePath(item)
    ensures PathSegments(base) <= PathSegments(base + "/" + item)
  {
    SplitConcat(base, item);
    NormalizeConcat(Split(base), Split(item), []);
    NoUpStaysBelow(Split(item), PathSegments(base));
  }

  lemma {:induction false} NoUpStaysBelow(parts: seq<string>, acc: seq<string>)
    requires (forall i :: 0 <= i < |parts| ==> '/' !in parts[i]) && Segments(acc) && ".." !in parts
    ensures acc <= Normalize(parts, acc)
    decreases |parts|
  {
    if parts != [] {
      assert forall s :: s in parts[1..] ==> s in parts;
      NoUpStaysBelow(parts[1..], if parts[0] == "" || parts[0] == "." then acc else acc + [parts[0]]);
    }
  }

  predicate ItemsOk(items: seq<string>) {
    forall i :: 0 <= i < |items| ==> items[i] != "" && RelativePath(items[i])
  }

  /** The mounts a pod can carry: well-formed, clear of every reserved path and of each other. */
  ghost predicate Acceptable(ms: seq<FileMount>) {
    && (forall i :: 0 <= i < |ms| ==> AcceptableAlone(ms[i]))
    && (forall i, j :: 0 <= i < j < |ms| ==> !Nested(PathSegments(ms[i].mountPath), PathSegments(ms[j].mountPath)))
  }

  ghost predicate AcceptableAlone(m: FileMount) {
    && ExactlyOneSource(m) && IsAbs(m.mountPath) && ItemsOk(m.items)
    && ClearOfReserved(m.mountPath)
  }

  ghost predicate ClearOfReserved(mountPath: string) {
    forall r :: 0 <= r < |RESERVED| ==> !Nested(PathSegments(mountPath), RESERVED[r])
  }

  datatype MountError = SourceCount | NotAbsolute | Collides(previous: string) | BadItem | Reserved(path: string)

  /**
   The first thing wrong with a mount, in the order the controller looks: its source, its path, its
   neighbours, its items, reserved paths.
   */
  ghost predicate Refuses(m: FileMount, earlier: seq<FileMount>, e: MountError) {
    match e
    case SourceCount => (m.secretName == "") == (m.configMapName == "")
    case NotAbsolute => ExactlyOneSource(m) && (m.mountPath == "" || m.mountPath[0] != '/')
    case Collides(previous) =>
      && ExactlyOneSource(m) && IsAbs(m.mountPath)
      && exists j :: 0 <= j < |earlier| && previous == Clean(earlier[j].mountPath)
                     && Nested(PathSegments(earlier[j].mountPath), PathSegments(m.mountPath))
    case BadItem =>
      && ExactlyOneSource(m) && IsAbs(m.mountPath) && ClearOf(earlier, m.mountPath)
      && exists i :: 0 <= i < |m.items| && (m.items[i] == "" || m.items[i][0] == '/' || ".." in Split(m.items[i]))
    case Reserved(path) =>
      && ExactlyOneSource(m) && IsAbs(m.mountPath) && ClearOf(earlier, m.mountPath) && ItemsOk(m.items)
      && exists r :: 0 <= r < |RESERVED| && path == Render(RESERVED[r]) && Nested(PathSegments(m.mountPath), RESERVED[r])
  }

  method ValidateFileMounts(mounts: seq<FileMount>) returns (r: Result<nat, (nat, MountError)>)
    ensures r.Ok? <==> Acceptable(mounts)
    ensures r.Err? ==> r.error.0 < |mounts| && Refuses(mounts[r.error.0], mounts[..r.error.0], r.error.1)
    ensures r.Err? ==> r.error.0 < |mounts| && Acceptable(mounts[..r.error.0]) && !Acceptable(mounts[..r.error.0 + 1])
  {
    var seen: seq<string> := [];
    for i := 0 to |mounts|
      invariant Seen(seen, mounts[..i]) && Acceptable(mounts[..i])
    {
      AcceptableSnoc(mounts, i);
      var problem := CheckMount(mounts[i], seen, mounts[..i]);
      if problem.Some? { return Err((i, problem.value)); }
      seen := seen + [Clean(mounts[i].mountPath)];
    }
    assert mounts[..|mounts|] == mounts;
    return Ok(|mounts|);
  }

  ghost predicate Seen(seen: seq<string>, earlier: seq<FileMount>) {
    |seen| == |earlier| && forall k :: 0 <= k < |seen| ==> seen[k] == Clean(earlier[k].mountPath)
  }

  ghost predicate ClearOf(earlier: seq<FileMount>, mountPath: string) {
    forall j :: 0 <= j < |earlier| ==> !Nested(PathSegments(earlier[j].mountPath), PathSegments(mountPath))
  }

  method CheckMount(m: FileMount, seen: seq<string>, ghost earlier: seq<FileMount>) returns (r: Option<MountError>)
    requires Seen(seen, earlier)
    ensures r.None? <==> AcceptableAlone(m) && ClearOf(earlier, m.mountPath)
    ensures r.Some? ==> Refuses(m, earlier, r.value)
  {
    if (m.secretName == "") == (m.configMapName == "") { return Some(SourceCount); }
    if !IsAbs(m.mountPath) { return Some(NotAbsolute); }
    var previous := FindEarlier(m.mountPath, seen, earlier);
    if previous.Some? { return Some(Collides(previous.value)); }
    var itemsOk := CheckItems(m.items);
    if !itemsOk { return Some(BadItem); }
    var reserved := FindReserved(m.mountPath);
    if reserved.Some? { return Some(Reserved(reserved.value)); }
    return None;
  }

  /** The first earlier mount, by its cleaned path, that conflicts with this one. */
  method FindEarlier(mountPath: string, seen: seq<string>, ghost earlier: seq<FileMount>) returns (r: Option<string>)
    requires Seen(seen, earlier)
    ensures r.None? <==> ClearOf(earlier, mountPath)
    ensures r.Some? ==>
      exists j :: 0 <= j < |earlier| && r.value == Clean(earlier[j].mountPath)
                  && Nested(PathSegments(earlier[j].mountPath), PathSegments(mountPath))
  {
    ghost var theirs := seq(|earlier|, k requires 0 <= k < |earlier| => PathSegments(earlier[k].mountPath));
    r := FindCollision(Clean(mountPath), PathSegments(mountPath), seen, theirs);
    assert forall j :: 0 <= j < |earlier| ==> theirs[j] == PathSegments(earlier[j].mountPath);
  }

  /** The first of `others` that conflicts with a path; `theirs` are their segments. */
  method FindCollision(path: string, ghost segs: seq<string>, others: seq<string>, ghost theirs: seq<seq<string>>)
    returns (r: Option<string>)
    requires Segments(segs) && path == Render(segs) && |others| == |theirs|
    requires forall i :: 0 <= i < |others| ==> Segments(theirs[i]) && others[i] == Render(theirs[i])
    ensures r.None? <==> forall i :: 0 <= i < |others| ==> !Nested(segs, theirs[i])
    ensures r.Some? ==> exists i :: 0 <= i < |others| && r.value == others[i] && Nested(segs, theirs[i])
                                    && forall j :: 0 <= j < i ==> !Nested(segs, theirs[j])
  {
    for k := 0 to |others|
      invariant forall i :: 0 <= i < k ==> !Nested(segs, theirs[i])
    {
      AncestorMeansSegmentPrefix(segs, theirs[k]);
      if PathsCollide(path, others[k]) { return Some(others[k]); }
    }
    return None;
  }

  method FindReserved(mountPath: string) returns (r: Option<string>)
    ensures r.None? <==> ClearOfReserved(mountPath)
    ensures r.Some? ==>
      exists i :: 0 <= i < |RESERVED| && r.value == Render(RESERVED[i]) && Nested(PathSegments(mountPath), RESERVED[i])
  {
    ReservedSegments();
    r := FindCollision(Clean(mountPath), PathSegments(mountPath),
                       seq(|RESERVED|, i requires 0 <= i < |RESERVED| => Render(RESERVED[i])), RESERVED);
  }

  method CheckItems(items: seq<string>) returns (ok: bool)
    ensures ok <==> ItemsOk(items)
  {
    for k := 0 to |items|
      invariant ItemsOk(items[..k])
    {
      if items[k] == "" || !RelativePath(items[k]) { return false; }
    }
    return true;
  }

  lemma AcceptableSnoc(ms: seq<FileMount>, i: nat)
    requires i < |ms| && Acceptable(ms[..i])
    ensures Acceptable(ms[..i + 1]) <==> AcceptableAlone(ms[i]) && ClearOf(ms[..i], ms[i].mountPath)
    ensures !Acceptable(ms[..i + 1]) ==> !Acceptable(ms)
  {
    var a, b := ms[..i], ms[..i + 1];
    assert forall j :: 0 <= j < i ==> a[j] == b[j] == ms[j];
    assert b[i] == ms[i];
  }

  // ---------------------------------------------------------------- the pod's mounts

  /** fileMountVolumes: the user mounts' paths as emitted. */
  method FileMountPaths(mounts: seq<FileMount>) returns (paths: seq<string>)
    ensures |paths| == |mounts| && forall i :: 0 <= i < |mounts| ==> paths[i] == Clean(mounts[i].mountPath)
  {
    paths := [];
    for i := 0 to |mounts|
      invariant |paths| == i && forall k :: 0 <= k < i ==> paths[k] == Clean(mounts[k].mountPath)
    {
      paths := paths + [Clean(mounts[i].mountPath)];
    }
  }

  /** createSandbox: skills, params, workspace, tmp, then the user's. */
  function AgentMountSegments(mounts: seq<FileMount>): seq<seq<string>> {
    [SKILLS, PARAMS, WORKSPACE, TMP]
      + seq(|mounts|, i requires 0 <= i < |mounts| => PathSegments(mounts[i].mountPath))
  }

  function AgentMountPath(mounts: seq<FileMount>, i: nat): string
    requires i < |AgentMountSegments(mounts)|
  {
    Render(AgentMountSegments(mounts)[i])
  }

  lemma OwnMountsDisjoint()
    ensures !Nested(SKILLS, PARAMS) && !Nested(SKILLS, WORKSPACE) && !Nested(SKILLS, TMP)
    ensures !Nested(PARAMS, WORKSPACE) && !Nested(PARAMS, TMP) && !Nested(WORKSPACE, TMP)
    ensures !Nested(SKILLS, SKILLS_SRC)
  {
    assert "opt" != "run" && "opt" != "workspace" && "opt" != "tmp";
    assert "run" != "workspace" && "run" != "tmp" && "workspace" != "tmp";
    assert SKILLS[0] == "opt" && PARAMS[0] == "run" && WORKSPACE[0] == "workspace" && TMP[0] == "tmp";
    assert SKILLS[1] != SKILLS_SRC[1];
  }

  /** No agent-container mount of an accepted run equals, contains or is contained in another. */
  lemma MountsAreDisjoint(mounts: seq<FileMount>, i: nat, j: nat)
    requires Acceptable(mounts) && i < j < |AgentMountSegments(mounts)|
    ensures !PathsCollide(AgentMountPath(mounts, i), AgentMountPath(mounts, j))
  {
    var segs := AgentMountSegments(mounts);
    ReservedSegments();
    assert SKILLS == RESERVED[0] && PARAMS == RESERVED[2] && WORKSPACE == RESERVED[3] && TMP == RESERVED[4];
    if j >= 4 {
      assert AcceptableAlone(mounts[j - 4]);
    } else {
      OwnMountsDisjoint();
    }
    assert !Nested(segs[i], segs[j]);
    AncestorMeansSegmentPrefix(segs[i], segs[j]);
  }
}
