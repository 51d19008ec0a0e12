/**
 Copying a skill out of its source (internal/skills/load.go: copyTree, copyDir,
 resolveWithin).  Symlinks are resolved into their content, but only while they stay inside
 the source; whatever the links do, the copy ends.
 */
module SkillCopy {
  import opened Common

  /** A path from the file system's root, one name per component. */
  type Path = seq<string>

  datatype Node =
    | Directory
    | Regular(bytes: string)
    | Symlink(absolute: bool, target: seq<string>)
    | Special                       // a socket, a device

  type Tree = map<Path, Node>

  const DOT_DOT := ".."

  ghost predicate ValidTree(fs: Tree) {
    && [] in fs && fs[[]] == Directory
    && (forall p :: p in fs && p != [] ==> p[..|p| - 1] in fs && fs[p[..|p| - 1]] == Directory)
    && (forall p, i :: p in fs && 0 <= i < |p| ==> p[i] != DOT_DOT)
  }

  // ---------------------------------------------------------------- filepath.EvalSymlinks

  const MAX_LINKS := 255

  datatype WalkError = NotExist | NotDirectory | TooManyLinks

  function Parent(p: Path): Path {
    if p == [] then [] else p[..|p| - 1]
  }

  /** Resolve `todo` from the already resolved directory `done`, having followed `links` links. */
  function Walk(fs: Tree, done: Path, todo: seq<string>, links: nat): Result<Path, WalkError>
    requires links <= MAX_LINKS
    decreases MAX_LINKS - links, |todo|
  {
    if todo == [] then Ok(done)
    else
      var name, rest := todo[0], todo[1..];
      if name == "" || name == "." then Walk(fs, done, rest, links)
      else if name == DOT_DOT then Walk(fs, Parent(done), rest, links)
      else
        var p := done + [name];
        if p !in fs then Err(NotExist)
        else match fs[p]
          case Symlink(absolute, target) =>
            if links + 1 > MAX_LINKS then Err(TooManyLinks)
            else Walk(fs, if absolute then [] else done, target + rest, links + 1)
          case Directory => Walk(fs, p, rest, links)
          case _ => if rest == [] then Ok(p) else Err(NotDirectory)
  }

  function EvalSymlinks(fs: Tree, p: Path): Result<Path, WalkError> {
    Walk(fs, [], p, 0)
  }

  /** A path that passes through no link: every proper prefix is a directory, and it is not a link itself. */
  ghost predicate Real(fs: Tree, p: Path) {
    && p in fs && !fs[p].Symlink?
    && forall k :: 0 <= k < |p| ==> p[..k] in fs && fs[p[..k]] == Directory
  }

  lemma RealParent(fs: Tree, p: Path)
    requires ValidTree(fs) && Real(fs, p)
    ensures Real(fs, Parent(p)) && fs[Parent(p)] == Directory
  {
    if p != [] {
      var q := Parent(p);
      assert forall k :: 0 <= k < |q| ==> q[..k] == p[..k];
    }
  }

  lemma RealChild(fs: Tree, p: Path, name: string)
    requires Real(fs, p) && fs[p] == Directory && p + [name] in fs && !fs[p + [name]].Symlink?
    ensures Real(fs, p + [name])
  {
    var q := p + [name];
    forall k | 0 <= k < |q| ensures q[..k] in fs && fs[q[..k]] == Directory {
      assert q[..k] == if k < |p| then p[..k] else p;
    }
  }

  /** What EvalSymlinks returns passes through no link. */
  lemma {:induction false} WalkIsReal(fs: Tree, done: Path, todo: seq<string>, links: nat)
    requires ValidTree(fs) && links <= MAX_LINKS
    requires Real(fs, done) && fs[done] == Directory
    ensures var r := Walk(fs, done, todo, links); r.Ok? ==> Real(fs, r.value)
    decreases MAX_LINKS - links, |todo|
  {
    if todo != [] {
      var name, rest := todo[0], todo[1..];
      if name == "" || name == "." {
        WalkIsReal(fs, done, rest, links);
      } else if name == DOT_DOT {
        RealParent(fs, done);
        WalkIsReal(fs, Parent(done), rest, links);
      } else if done + [name] in fs {
        var p := done + [name];
        if fs[p].Symlink? {
          if links + 1 <= MAX_LINKS {
            WalkIsReal(fs, if fs[p].absolute then [] else done, fs[p].target + rest, links + 1);
          }
        } else {
          RealChild(fs, done, name);
          if fs[p].Directory? { WalkIsReal(fs, p, rest, links); }
        }
      }
    }
  }

  /** A path through no link is where it leads. */
  lemma {:induction false} RealStays(fs: Tree, done: Path, todo: seq<string>, links: nat)
    requires Real(fs, done + todo) && links <= MAX_LINKS
    requires forall i :: 0 <= i < |todo| ==> todo[i] !in {"", ".", ".."}
    ensures Walk(fs, done, todo, links) == Ok(done + todo)
    decreases |todo|
  {
    if todo == [] {
      assert done + todo == done;
    } else {
      var p := done + [todo[0]];
      assert done + todo == p + todo[1..];
      assert p == (done + todo)[..|p|];
      if todo[1..] == [] {
        assert p == done + todo;
      } else {
        assert fs[p] == Directory;
      }
      if fs[p] == Directory { RealStays(fs, p, todo[1..], links); }
    }
  }

  /**
   Where a step leads: nowhere, into a directory, to a file that must be the end, or on along a
   link, of which there may be 255.
   */
  lemma WalkStep(fs: Tree, done: Path, name: string, rest: seq<string>, links: nat)
    requires links <= 255 && name !in {"", ".", ".."}
    ensures var r := Walk(fs, done, [name] + rest, links);
      if done + [name] !in fs then r == Err(NotExist)
      else match fs[done + [name]]
        case Directory => r == Walk(fs, done + [name], rest, links)
        case Regular(_) => r == if rest == [] then Ok(done + [name]) else Err(NotDirectory)
        case Special => r == if rest == [] then Ok(done + [name]) else Err(NotDirectory)
        case Symlink(absolute, target) =>
          r == if links == 255 then Err(TooManyLinks)
               else Walk(fs, if absolute then [] else done, target + rest, links + 1)
  {
    assert ([name] + rest)[1..] == rest;
  }

  /** An empty or dot component stays, and two dots go up. */
  lemma WalkDots(fs: Tree, done: Path, rest: seq<string>, links: nat)
    requires links <= MAX_LINKS
    ensures Walk(fs, done, [""] + rest, links) == Walk(fs, done, ["."] + rest, links) == Walk(fs, done, rest, links)
    ensures Walk(fs, done, [".."] + rest, links) ==
      Walk(fs, if done == [] then [] else done[..|done| - 1], rest, links)
  {
    assert ([""] + rest)[1..] == rest && (["."] + rest)[1..] == rest && ([".."] + rest)[1..] == rest;
  }

  // ---------------------------------------------------------------- resolveWithin

  /** filepath.Rel on clean absolute paths: up out of what `base` does not share, then down. */
  function Rel(base: Path, target: Path): seq<string> {
    if base == [] then target
    else if target != [] && base[0] == target[0] then Rel(base[1..], target[1..])
    else seq(|base|, _ => DOT_DOT) + target
  }

  /** The containment test: relative to the root, the path does not start by going up. */
  predicate Outside(root: Path, p: Path) {
    var rel := Rel(root, p);
    rel != [] && rel[0] == DOT_DOT
  }

  lemma {:induction false} OutsideExactly(root: Path, p: Path)
    requires forall i :: 0 <= i < |p| ==> p[i] != DOT_DOT
    ensures Outside(root, p) <==> !(root <= p)
  {
    if root != [] && p != [] && root[0] == p[0] {
      OutsideExactly(root[1..], p[1..]);
      assert root == [root[0]] + root[1..] && p == [p[0]] + p[1..];
      assert root[1..] <= p[1..] <==> root <= p;
    }
  }

  datatype Resolution = Resolved(path: Path) | Dangling | Refused

  /** Follow one directory entry, refusing to leave the root. */
  function ResolveWithin(fs: Tree, root: Path, dir: Path, name: string): Resolution
    requires dir + [name] in fs
  {
    var p := dir + [name];
    if !fs[p].Symlink? then Resolved(p)
    else match EvalSymlinks(fs, p)
      case Err(e) => if e == NotExist then Dangling else Refused
      case Ok(r) => if Outside(root, r) || r !in fs then Refused else Resolved(r)
  }

  /** The kubelet's bookkeeping and clone metadata are never copied. */
  predicate Skipped(name: string) {
    DOT_DOT <= name || name == ".git"
  }

  /** A directory inside the root, reached through no link. */
  ghost predicate Inside(fs: Tree, root: Path, p: Path) {
    ValidTree(fs) && root <= p && Real(fs, p)
  }

  lemma ResolvedIsInside(fs: Tree, root: Path, dir: Path, name: string)
    requires Inside(fs, root, dir) && fs[dir] == Directory && dir + [name] in fs
    ensures var r := ResolveWithin(fs, root, dir, name); r.Resolved? ==> Inside(fs, root, r.path)
  {
    var p := dir + [name];
    if !fs[p].Symlink? {
      RealChild(fs, dir, name);
    } else {
      WalkIsReal(fs, [], p, 0);
      var r := EvalSymlinks(fs, p);
      if r.Ok? { OutsideExactly(root, r.value); }
    }
  }

  /**
   What is no link is where it appears to be; a link leads to nothing, out of the source, or to
   something inside it.
   */
  lemma ResolveTable(fs: Tree, root: Path, dir: Path, name: string)
    requires Inside(fs, root, dir) && fs[dir] == Directory && dir + [name] in fs
    ensures var r, end := ResolveWithin(fs, root, dir, name), EvalSymlinks(fs, dir + [name]);
      if !fs[dir + [name]].Symlink? then r == Resolved(dir + [name])
      else
        && (r.Dangling? <==> end == Err(NotExist))
        && (r.Refused? <==> (end.Err? && end != Err(NotExist)) || (end.Ok? && !(root <= end.value)))
        && (r.Resolved? ==> end == Ok(r.path) && root <= r.path)
  {
    if fs[dir + [name]].Symlink? {
      WalkIsReal(fs, [], dir + [name], 0);
      var end := EvalSymlinks(fs, dir + [name]);
      if end.Ok? { OutsideExactly(root, end.value); }
    }
  }

  // ---------------------------------------------------------------- what a copy should hold

  datatype Entry = DirEntry | FileEntry(bytes: string)

  /** Where following `rel` from `dir` leads, entry by entry, the way the copier does. */
  function Reach(fs: Tree, root: Path, dir: Path, rel: Path): Option<Path>
    decreases |rel|
  {
    if rel == [] then Some(dir)
    else if dir !in fs || fs[dir] != Directory || Skipped(rel[0]) || dir + [rel[0]] !in fs then None
    else match ResolveWithin(fs, root, dir, rel[0])
      case Resolved(p) => Reach(fs, root, p, rel[1..])
      case _ => None
  }

  function EntryOf(fs: Tree, p: Option<Path>): Option<Entry> {
    if p.None? || p.value !in fs then None
    else match fs[p.value]
      case Directory => Some(DirEntry)
      case Regular(bytes) => Some(FileEntry(bytes))
      case _ => None
  }

  /** The entry a complete copy of `dir` holds at `rel`. */
  function Expected(fs: Tree, root: Path, dir: Path, rel: Path): Option<Entry> {
    EntryOf(fs, Reach(fs, root, dir, rel))
  }

  lemma {:induction false} ReachIsInside(fs: Tree, root: Path, dir: Path, rel: Path)
    requires Inside(fs, root, dir)
    ensures var r := Reach(fs, root, dir, rel); r.Some? ==> Inside(fs, root, r.value)
    ensures Reach(fs, root, dir, rel).Some? ==> forall i :: 0 <= i < |rel| ==> !Skipped(rel[i])
    decreases |rel|
  {
    if rel != [] && Reach(fs, root, dir, rel).Some? {
      ResolvedIsInside(fs, root, dir, rel[0]);
      ReachIsInside(fs, root, ResolveWithin(fs, root, dir, rel[0]).path, rel[1..]);
      assert forall i :: 0 < i < |rel| ==> rel[i] == rel[1..][i - 1];
    }
  }

  /** Everything a copy may hold: the bytes of a regular file really inside the source, under no forbidden name. */
  lemma CopiedIsContained(fs: Tree, root: Path, dir: Path, rel: Path)
    requires Inside(fs, root, dir) && Expected(fs, root, dir, rel).Some?
    ensures exists p :: root <= p && Real(fs, p) && Some(Expected(fs, root, dir, rel).value) == EntryOf(fs, Some(p))
    ensures forall i :: 0 <= i < |rel| ==> rel[i] != ".git" && !(DOT_DOT <= rel[i])
  {
    ReachIsInside(fs, root, dir, rel);
    var p := Reach(fs, root, dir, rel).value;
    assert root <= p && Real(fs, p);
  }

  // ---------------------------------------------------------------- the copier

  const MAX_COPY_DEPTH := 32

  datatype CopyError = TooDeep | NotADirectory | Escapes | IoError

  type Entries = map<Path, Entry>

  /** Nothing outside `dst` changed. */
  ghost predicate Frame(m: Entries, was: Entries, dst: Path) {
    forall q :: !(dst <= q) ==> (q in m <==> q in was) && (q in was ==> q in m && m[q] == was[q])
  }

  /** Everything under `dst` belongs to the copy of `dir`. */
  ghost predicate Sound(m: Entries, fs: Tree, root: Path, dir: Path, dst: Path) {
    forall rel :: dst + rel in m ==> Expected(fs, root, dir, rel) == Some(m[dst + rel])
  }

  /** ... and all of that copy is there, no directory nesting deeper than the limit. */
  ghost predicate Complete(m: Entries, fs: Tree, root: Path, dir: Path, dst: Path, depth: nat) {
    forall rel :: Expected(fs, root, dir, rel).Some? ==> Placed(m, dst, rel, depth)
  }

  ghost predicate Placed(m: Entries, dst: Path, rel: Path, depth: nat) {
    dst + rel in m && (m[dst + rel] == DirEntry ==> depth + |rel| <= MAX_COPY_DEPTH)
  }

  /** Whether a directory can be listed and a file's bytes be read and written down. */
  type Access = Path -> bool

  /** What is at `rel` keeps `dir` from being copied, for this reason. */
  ghost predicate Blames(fs: Tree, root: Path, dir: Path, depth: nat, access: Access, rel: Path, e: CopyError) {
    var at := Reach(fs, root, dir, rel);
    && at.Some? && at.value in fs
    && match e
       case NotADirectory => rel == [] && fs[at.value] != Directory
       case TooDeep => fs[at.value] == Directory && depth + |rel| > MAX_COPY_DEPTH
       case IoError => (fs[at.value] == Directory || fs[at.value].Regular?) && !access(at.value)
       case Escapes => fs[at.value] == Directory && exists name :: Leaves(fs, root, at.value, name)
  }

  /** Something at or below `dir` gives this reason. */
  ghost predicate Blamed(fs: Tree, root: Path, dir: Path, depth: nat, access: Access, e: CopyError) {
    exists rel :: Blames(fs, root, dir, depth, access, rel, e)
  }

  /** A link in this directory cannot be followed inside the root, though something is at its other end. */
  ghost predicate Leaves(fs: Tree, root: Path, dir: Path, name: string) {
    !Skipped(name) && dir + [name] in fs && ResolveWithin(fs, root, dir, name).Refused?
  }

  /** Only the entries in `todo` may still be to blame. */
  ghost predicate BlamesTodo(fs: Tree, root: Path, dir: Path, depth: nat, access: Access, todo: set<string>) {
    forall rel, e :: Blames(fs, root, dir, depth, access, rel, e) ==>
      || (rel != [] && rel[0] in todo)
      || (rel == [] && e.Escapes? && exists name :: name in todo && Leaves(fs, root, dir, name))
  }

  /** Nothing in the source keeps it from being copied. */
  ghost predicate Copyable(fs: Tree, root: Path, dir: Path, depth: nat, access: Access) {
    forall rel, e :: !Blames(fs, root, dir, depth, access, rel, e)
  }

  /** ... or only that it is no directory. */
  ghost predicate Passes(fs: Tree, root: Path, p: Path, depth: nat, access: Access) {
    forall rel, e :: Blames(fs, root, p, depth, access, rel, e) ==> e.NotADirectory?
  }

  /** What is to blame below an entry is to blame below what it resolves to. */
  lemma BlamesVia(fs: Tree, root: Path, dir: Path, depth: nat, access: Access, name: string, rel: Path, e: CopyError)
    requires dir in fs && fs[dir] == Directory && !Skipped(name) && dir + [name] in fs && !e.NotADirectory?
    requires ResolveWithin(fs, root, dir, name).Resolved?
    ensures var p := ResolveWithin(fs, root, dir, name).path;
      Blames(fs, root, dir, depth, access, [name] + rel, e) <==> Blames(fs, root, p, depth + 1, access, rel, e)
  {
    assert ([name] + rel)[1..] == rel;
  }

  /** Nothing is behind an entry that does not resolve, or to something that is not copied. */
  lemma BlamelessEntry(fs: Tree, root: Path, dir: Path, depth: nat, access: Access, todo: set<string>, name: string)
    requires BlamesTodo(fs, root, dir, depth, access, todo) && !Leaves(fs, root, dir, name)
    requires Skipped(name) || dir + [name] !in fs || !ResolveWithin(fs, root, dir, name).Resolved?
             || (var p := ResolveWithin(fs, root, dir, name).path; p !in fs || fs[p] == Special)
    ensures BlamesTodo(fs, root, dir, depth, access, todo - {name})
  {
    forall rel, e | Blames(fs, root, dir, depth, access, rel, e)
      ensures || (rel != [] && rel[0] in todo - {name})
              || (rel == [] && e.Escapes? && exists x :: x in todo - {name} && Leaves(fs, root, dir, x))
    {
      if rel != [] && rel[0] == name { NothingBehind(fs, root, dir, rel); }
    }
  }

  lemma NothingBehind(fs: Tree, root: Path, dir: Path, rel: Path)
    requires rel != []
    requires Skipped(rel[0]) || dir + [rel[0]] !in fs || !ResolveWithin(fs, root, dir, rel[0]).Resolved?
             || (var p := ResolveWithin(fs, root, dir, rel[0]).path; p !in fs || fs[p] == Special)
    ensures var at := Reach(fs, root, dir, rel); at.None? || at.value !in fs || fs[at.value] == Special
  {
  }

  lemma CopiedEntry(fs: Tree, root: Path, dir: Path, depth: nat, access: Access, todo: set<string>, name: string)
    requires BlamesTodo(fs, root, dir, depth, access, todo)
    requires dir in fs && fs[dir] == Directory && !Skipped(name) && dir + [name] in fs
    requires ResolveWithin(fs, root, dir, name).Resolved?
    requires Passes(fs, root, ResolveWithin(fs, root, dir, name).path, depth + 1, access)
    ensures BlamesTodo(fs, root, dir, depth, access, todo - {name})
  {
    var p := ResolveWithin(fs, root, dir, name).path;
    forall rel, e | Blames(fs, root, dir, depth, access, rel, e)
      ensures || (rel != [] && rel[0] in todo - {name})
              || (rel == [] && e.Escapes? && exists x :: x in todo - {name} && Leaves(fs, root, dir, x))
    {
      if rel != [] && rel[0] == name {
        assert rel == [name] + rel[1..];
        BlamesVia(fs, root, dir, depth, access, name, rel[1..], e);
      }
    }
  }

  /** The copying loop, with the entries named in `todo` still to come. */
  ghost predicate Progress(m: Entries, was: Entries, fs: Tree, root: Path, dir: Path, dst: Path, depth: nat, todo: set<string>) {
    && Frame(m, was, dst) && Sound(m, fs, root, dir, dst)
    && (forall rel :: rel != [] && rel[0] in todo ==> dst + rel !in m)
    && (forall rel :: Expected(fs, root, dir, rel).Some? && (rel == [] || rel[0] !in todo) ==> Placed(m, dst, rel, depth))
  }

  /** Following an entry means following what it resolves to. */
  lemma ExpectedVia(fs: Tree, root: Path, dir: Path, rel: Path)
    requires rel != []
    ensures Expected(fs, root, dir, rel).Some? ==>
      && dir in fs && fs[dir] == Directory && !Skipped(rel[0]) && dir + [rel[0]] in fs
      && ResolveWithin(fs, root, dir, rel[0]).Resolved?
      && Expected(fs, root, dir, rel) == Expected(fs, root, ResolveWithin(fs, root, dir, rel[0]).path, rel[1..])
    ensures
      && dir in fs && fs[dir] == Directory && !Skipped(rel[0]) && dir + [rel[0]] in fs
      && ResolveWithin(fs, root, dir, rel[0]).Resolved? ==>
        Expected(fs, root, dir, rel) == Expected(fs, root, ResolveWithin(fs, root, dir, rel[0]).path, rel[1..])
  {
  }

  lemma ProgressSkip(m: Entries, was: Entries, fs: Tree, root: Path, dir: Path, dst: Path, depth: nat,
                     todo: set<string>, name: string)
    requires Progress(m, was, fs, root, dir, dst, depth, todo)
    requires Skipped(name) || dir + [name] !in fs || !ResolveWithin(fs, root, dir, name).Resolved?
             || (var p := ResolveWithin(fs, root, dir, name).path; p !in fs || fs[p] == Special)
    ensures Progress(m, was, fs, root, dir, dst, depth, todo - {name})
  {
    forall rel | Expected(fs, root, dir, rel).Some? && (rel == [] || rel[0] !in todo - {name})
      ensures Placed(m, dst, rel, depth)
    {
      if rel != [] && rel[0] == name { ExpectedVia(fs, root, dir, rel); }
    }
  }

  lemma Joined(dst: Path, name: string, rel: Path)
    ensures rel != [] && rel[0] == name ==> dst + rel == (dst + [name]) + rel[1..]
    ensures dst + [name] <= dst + rel <==> rel != [] && rel[0] == name
  {
    if rel != [] {
      assert rel == [rel[0]] + rel[1..];
      assert (dst + rel)[|dst|] == rel[0];
      if dst + [name] <= dst + rel { assert (dst + [name])[|dst|] == (dst + rel)[|dst|]; }
    }
  }

  /** A sub-copy under dst/name belongs to the copy under dst. */
  lemma SubCopySound(m: Entries, n: Entries, was: Entries, fs: Tree, root: Path, dir: Path, dst: Path, depth: nat,
                     todo: set<string>, name: string)
    requires Progress(m, was, fs, root, dir, dst, depth, todo) && name in todo
    requires dir in fs && fs[dir] == Directory && !Skipped(name) && dir + [name] in fs
    requires ResolveWithin(fs, root, dir, name).Resolved?
    requires var p := ResolveWithin(fs, root, dir, name).path;
      Frame(n, m, dst + [name]) && Sound(n, fs, root, p, dst + [name])
    ensures Frame(n, was, dst) && Sound(n, fs, root, dir, dst)
    ensures forall rel :: rel != [] && rel[0] in todo - {name} ==> dst + rel !in n
  {
    var p := ResolveWithin(fs, root, dir, name).path;
    forall q | !(dst <= q)
      ensures (q in n <==> q in was) && (q in was ==> q in n && n[q] == was[q])
    {
      assert dst + [name] <= q ==> dst <= q;
    }
    forall rel | dst + rel in n ensures Expected(fs, root, dir, rel) == Some(n[dst + rel]) {
      Joined(dst, name, rel);
      if rel != [] && rel[0] == name {
        ExpectedVia(fs, root, dir, rel);
        assert (dst + [name]) + rel[1..] in n;
      } else {
        assert dst + rel in m && n[dst + rel] == m[dst + rel];
      }
    }
    forall rel | rel != [] && rel[0] in todo - {name} ensures dst + rel !in n {
      Joined(dst, name, rel);
    }
  }

  lemma ProgressSub(m: Entries, n: Entries, was: Entries, fs: Tree, root: Path, dir: Path, dst: Path, depth: nat,
                    todo: set<string>, name: string)
    requires Progress(m, was, fs, root, dir, dst, depth, todo) && name in todo
    requires dir in fs && fs[dir] == Directory && !Skipped(name) && dir + [name] in fs
    requires ResolveWithin(fs, root, dir, name).Resolved?
    requires var p := ResolveWithin(fs, root, dir, name).path;
      Frame(n, m, dst + [name]) && Sound(n, fs, root, p, dst + [name])
      && Complete(n, fs, root, p, dst + [name], depth + 1)
    ensures Progress(n, was, fs, root, dir, dst, depth, todo - {name})
  {
    SubCopySound(m, n, was, fs, root, dir, dst, depth, todo, name);
    var p := ResolveWithin(fs, root, dir, name).path;
    forall rel | Expected(fs, root, dir, rel).Some? && (rel == [] || rel[0] !in todo - {name})
      ensures Placed(n, dst, rel, depth)
    {
      Joined(dst, name, rel);
      if rel != [] && rel[0] == name {
        ExpectedVia(fs, root, dir, rel);
        assert Placed(n, dst + [name], rel[1..], depth + 1);
      } else {
        assert Placed(m, dst, rel, depth);
      }
    }
  }

  /** A copied file is a complete copy of what it was read from. */
  lemma FileIsCopy(m: Entries, fs: Tree, root: Path, p: Path, dst: Path, depth: nat)
    requires p in fs && fs[p].Regular?
    requires forall q :: q in m ==> !(dst <= q)
    ensures var n := m[dst := FileEntry(fs[p].bytes)];
      Frame(n, m, dst) && Sound(n, fs, root, p, dst) && Complete(n, fs, root, p, dst, depth)
  {
    var n := m[dst := FileEntry(fs[p].bytes)];
    assert dst + [] == dst;
    forall rel | dst + rel in n ensures Expected(fs, root, p, rel) == Some(n[dst + rel]) {
      assert dst <= dst + rel;
      assert rel == [];
    }
    forall rel | Expected(fs, root, p, rel).Some? ensures Placed(n, dst, rel, depth) {
      assert rel == [];
    }
  }

  /** The loop of copyDir, as far as the destination and as far as what is to blame are concerned. */
  ghost predicate Going(m: Entries, was: Entries, fs: Tree, root: Path, dir: Path, dst: Path, depth: nat,
                        access: Access, todo: set<string>)
  {
    Progress(m, was, fs, root, dir, dst, depth, todo) && BlamesTodo(fs, root, dir, depth, access, todo)
  }

  lemma EntrySkipped(m: Entries, was: Entries, fs: Tree, root: Path, dir: Path, dst: Path, depth: nat,
                     access: Access, todo: set<string>, name: string)
    requires Going(m, was, fs, root, dir, dst, depth, access, todo) && !Leaves(fs, root, dir, name)
    requires Skipped(name) || dir + [name] !in fs || !ResolveWithin(fs, root, dir, name).Resolved?
             || (var p := ResolveWithin(fs, root, dir, name).path; p !in fs || fs[p] == Special)
    ensures Going(m, was, fs, root, dir, dst, depth, access, todo - {name})
  {
    ProgressSkip(m, was, fs, root, dir, dst, depth, todo, name);
    BlamelessEntry(fs, root, dir, depth, access, todo, name);
  }

  lemma EntryCopied(m: Entries, n: Entries, was: Entries, fs: Tree, root: Path, dir: Path, dst: Path, depth: nat,
                    access: Access, todo: set<string>, name: string)
    requires Going(m, was, fs, root, dir, dst, depth, access, todo) && name in todo
    requires dir in fs && fs[dir] == Directory && !Skipped(name) && dir + [name] in fs
    requires ResolveWithin(fs, root, dir, name).Resolved?
    requires var p := ResolveWithin(fs, root, dir, name).path;
      && Frame(n, m, dst + [name]) && Sound(n, fs, root, p, dst + [name])
      && Complete(n, fs, root, p, dst + [name], depth + 1)
      && Passes(fs, root, p, depth + 1, access)
    ensures Going(n, was, fs, root, dir, dst, depth, access, todo - {name})
  {
    CopiedEntry(fs, root, dir, depth, access, todo, name);
    ProgressSub(m, n, was, fs, root, dir, dst, depth, todo, name);
  }

  lemma NothingLeft(m: Entries, was: Entries, fs: Tree, root: Path, dir: Path, dst: Path, depth: nat, access: Access)
    requires Going(m, was, fs, root, dir, dst, depth, access, {})
    ensures Complete(m, fs, root, dir, dst, depth) && Copyable(fs, root, dir, depth, access)
  {
  }

  lemma DirIsBlamed(fs: Tree, root: Path, dir: Path, depth: nat, access: Access)
    requires dir in fs
    ensures fs[dir] == Directory && depth > MAX_COPY_DEPTH ==> Blamed(fs, root, dir, depth, access, TooDeep)
    ensures fs[dir] != Directory ==> Blamed(fs, root, dir, depth, access, NotADirectory)
    ensures fs[dir] == Directory && !access(dir) ==> Blamed(fs, root, dir, depth, access, IoError)
  {
    assert Reach(fs, root, dir, []) == Some(dir);
    assert Blames(fs, root, dir, depth, access, [], TooDeep) <==> fs[dir] == Directory && depth > MAX_COPY_DEPTH;
    assert Blames(fs, root, dir, depth, access, [], NotADirectory) <==> fs[dir] != Directory;
    assert fs[dir] == Directory && !access(dir) ==> Blames(fs, root, dir, depth, access, [], IoError);
  }

  lemma EscapeIsBlamed(fs: Tree, root: Path, dir: Path, depth: nat, access: Access, name: string)
    requires dir in fs && fs[dir] == Directory && Leaves(fs, root, dir, name)
    ensures Blamed(fs, root, dir, depth, access, Escapes)
  {
    assert Blames(fs, root, dir, depth, access, [], Escapes);
  }

  /** Below a file there is nothing, so only reading it can fail; below anything else there is nothing to copy. */
  lemma FileBlames(fs: Tree, root: Path, p: Path, dst: Path, depth: nat, access: Access, m: Entries)
    requires p in fs && fs[p] != Directory && forall q :: q in m ==> !(dst <= q)
    ensures fs[p].Regular? && !access(p) ==> Blamed(fs, root, p, depth, access, IoError)
    ensures fs[p].Special? || (fs[p].Regular? && access(p)) ==> Passes(fs, root, p, depth, access)
    ensures Frame(m, m, dst) && Sound(m, fs, root, p, dst)
    ensures fs[p].Special? ==> Complete(m, fs, root, p, dst, depth)
  {
    assert Reach(fs, root, p, []) == Some(p);
    if fs[p].Regular? && !access(p) { assert Blames(fs, root, p, depth, access, [], IoError); }
    Untouched(m, fs, root, p, dst);
  }

  /** The source resolves, and nothing in it keeps it from being copied. */
  ghost predicate TreeCopyable(fs: Tree, src: Path, access: Access) {
    EvalSymlinks(fs, src).Ok? && Copyable(fs, EvalSymlinks(fs, src).value, EvalSymlinks(fs, src).value, 0, access)
  }

  lemma StartBlame(fs: Tree, root: Path, dir: Path, depth: nat, access: Access, todo: set<string>)
    requires dir in fs && fs[dir] == Directory && depth <= MAX_COPY_DEPTH && access(dir)
    requires todo == set p | p in fs && |p| == |dir| + 1 && dir <= p :: p[|dir|]
    ensures BlamesTodo(fs, root, dir, depth, access, todo)
  {
    forall name | dir + [name] in fs ensures name in todo { assert (dir + [name])[|dir|] == name; }
    forall rel, e | Blames(fs, root, dir, depth, access, rel, e)
      ensures || (rel != [] && rel[0] in todo)
              || (rel == [] && e.Escapes? && exists name :: name in todo && Leaves(fs, root, dir, name))
    {
    }
  }

  /** What is to blame for a sub-copy is to blame for the copy. */
  lemma SubBlame(fs: Tree, root: Path, dir: Path, depth: nat, access: Access, name: string, e: CopyError)
    requires dir in fs && fs[dir] == Directory && !Skipped(name) && dir + [name] in fs
    requires ResolveWithin(fs, root, dir, name).Resolved?
    requires var p := ResolveWithin(fs, root, dir, name).path;
      p in fs && !e.NotADirectory? && Blamed(fs, root, p, depth + 1, access, e)
    ensures Blamed(fs, root, dir, depth, access, e)
  {
    var rel :| Blames(fs, root, ResolveWithin(fs, root, dir, name).path, depth + 1, access, rel, e);
    BlamesVia(fs, root, dir, depth, access, name, rel, e);
  }

  /** The copy of a directory has got on to `todo`, or stopped for a reason. */
  ghost predicate GoesOn(m: Entries, was: Entries, fs: Tree, root: Path, dir: Path, dst: Path, depth: nat,
                         access: Access, todo: set<string>, r: Result<(), CopyError>)
  {
    if r.Ok? then Going(m, was, fs, root, dir, dst, depth, access, todo)
    else
      && Frame(m, was, dst) && Sound(m, fs, root, dir, dst)
      && !r.error.NotADirectory? && Blamed(fs, root, dir, depth, access, r.error)
  }

  /** What the entry resolves to has been copied whole, or something in it is to blame. */
  ghost predicate EntryDone(m: Entries, was: Entries, fs: Tree, root: Path, p: Path, dst: Path, depth: nat,
                            access: Access, r: Result<(), CopyError>)
  {
    && Frame(m, was, dst) && Sound(m, fs, root, p, dst)
    && if r.Ok? then Complete(m, fs, root, p, dst, depth) && Passes(fs, root, p, depth, access)
       else !r.error.NotADirectory? && Blamed(fs, root, p, depth, access, r.error)
  }

  lemma EntryEnds(m: Entries, n: Entries, was: Entries, fs: Tree, root: Path, dir: Path, dst: Path, depth: nat,
                  access: Access, todo: set<string>, name: string, r: Result<(), CopyError>)
    requires Going(m, was, fs, root, dir, dst, depth, access, todo) && name in todo
    requires Inside(fs, root, dir) && fs[dir] == Directory && !Skipped(name) && dir + [name] in fs
    requires ResolveWithin(fs, root, dir, name).Resolved?
    requires var p := ResolveWithin(fs, root, dir, name).path;
      Inside(fs, root, p) && EntryDone(n, m, fs, root, p, dst + [name], depth + 1, access, r)
    ensures GoesOn(n, was, fs, root, dir, dst, depth, access, todo - {name}, r)
  {
    if r.Ok? {
      EntryCopied(m, n, was, fs, root, dir, dst, depth, access, todo, name);
    } else {
      SubCopySound(m, n, was, fs, root, dir, dst, depth, todo, name);
      SubBlame(fs, root, dir, depth, access, name, r.error);
    }
  }

  lemma EntryEscapes(m: Entries, was: Entries, fs: Tree, root: Path, dir: Path, dst: Path, depth: nat,
                     access: Access, todo: set<string>, name: string)
    requires Going(m, was, fs, root, dir, dst, depth, access, todo)
    requires dir in fs && fs[dir] == Directory && Leaves(fs, root, dir, name)
    ensures GoesOn(m, was, fs, root, dir, dst, depth, access, todo - {name}, Err(Escapes))
  {
    EscapeIsBlamed(fs, root, dir, depth, access, name);
  }

  /** The destination file system. */
  class Dest {
    var entries: Entries

    constructor ()
      ensures entries == map[]
    {
      entries := map[];
    }

    method RemoveAll(dst: Path)
      modifies this
      ensures entries == map q | q in old(entries) && !(dst <= q) :: old(entries)[q]
    {
      entries := map q | q in entries && !(dst <= q) :: entries[q];
    }

    method CopyTree(fs: Tree, src: Path, dst: Path, access: Access) returns (r: Result<Path, CopyError>)
      requires ValidTree(fs)
      requires forall q :: q in entries ==> !(dst <= q)
      modifies this
      ensures Frame(entries, old(entries), dst)
      ensures r.Ok? ==> EvalSymlinks(fs, src) == Ok(r.value) && Inside(fs, r.value, r.value) && fs[r.value] == Directory
      ensures r.Ok? ==> Sound(entries, fs, r.value, r.value, dst) && Complete(entries, fs, r.value, r.value, dst, 0)
      ensures r.Err? && EvalSymlinks(fs, src).Ok? ==>
        Sound(entries, fs, EvalSymlinks(fs, src).value, EvalSymlinks(fs, src).value, dst)
      ensures r.Ok? <==> TreeCopyable(fs, src, access)
      ensures r.Err? && EvalSymlinks(fs, src).Ok? ==>
        Blamed(fs, EvalSymlinks(fs, src).value, EvalSymlinks(fs, src).value, 0, access, r.error)
    {
      var root := EvalSymlinks(fs, src);
      if root.Err? { return Err(IoError); }
      WalkIsReal(fs, [], src, 0);
      var copied := CopyDir(fs, root.value, root.value, dst, 0, access);
      if copied.Err? { return Err(copied.error); }
      return Ok(root.value);
    }

    /**
     copyDir.  However it ends, nothing but proper content is under `dst`; when it succeeds,
     all of it is, and no directory nests deeper than the limit.  It succeeds exactly if nothing in
     the source is to blame, and otherwise names a reason that something in the source gives.
     */
    method CopyDir(fs: Tree, root: Path, dir: Path, dst: Path, depth: nat, access: Access)
      returns (r: Result<(), CopyError>)
      requires Inside(fs, root, dir) && depth <= MAX_COPY_DEPTH + 1 && (depth == 0 || fs[dir] == Directory)
      requires forall q :: q in entries ==> !(dst <= q)
      modifies this
      ensures Frame(entries, old(entries), dst) && Sound(entries, fs, root, dir, dst)
      ensures r.Ok? ==> Complete(entries, fs, root, dir, dst, depth) && fs[dir] == Directory
      ensures r.Ok? ==> Copyable(fs, root, dir, depth, access)
      ensures r.Err? ==> Blamed(fs, root, dir, depth, access, r.error)
      ensures r.Err? && fs[dir] == Directory ==> !r.error.NotADirectory?
      decreases MAX_COPY_DEPTH + 1 - depth, 0
    {
      ghost var was := entries;
      Untouched(was, fs, root, dir, dst);
      DirIsBlamed(fs, root, dir, depth, access);
      if depth > MAX_COPY_DEPTH { return Err(TooDeep); }
      if fs[dir] != Directory { return Err(NotADirectory); }
      if !access(dir) { return Err(IoError); }
      var todo := set p | p in fs && |p| == |dir| + 1 && dir <= p :: p[|dir|];
      entries := entries[dst := DirEntry];
      StartProgress(was, fs, root, dir, dst, depth, todo);
      StartBlame(fs, root, dir, depth, access, todo);
      while todo != {}
        invariant Going(entries, was, fs, root, dir, dst, depth, access, todo)
        invariant forall name :: name in todo ==> dir + [name] in fs
        decreases todo
      {
        var name :| name in todo;
        var sub := CopyNamed(fs, root, dir, name, dst, depth, access, was, todo);
        if sub.Err? { return sub; }
        todo := todo - {name};
      }
      NothingLeft(entries, was, fs, root, dir, dst, depth, access);
      return Ok(());
    }

    /** One entry of the directory: skipped, refused, or copied from where it resolves to. */
    method CopyNamed(fs: Tree, root: Path, dir: Path, name: string, dst: Path, depth: nat, access: Access,
                     ghost was: Entries, ghost todo: set<string>) returns (r: Result<(), CopyError>)
      requires Inside(fs, root, dir) && fs[dir] == Directory && depth <= MAX_COPY_DEPTH
      requires Going(entries, was, fs, root, dir, dst, depth, access, todo) && name in todo && dir + [name] in fs
      modifies this
      ensures GoesOn(entries, was, fs, root, dir, dst, depth, access, todo - {name}, r)
      decreases MAX_COPY_DEPTH + 1 - depth - 1, 2
    {
      if Skipped(name) {
        EntrySkipped(entries, was, fs, root, dir, dst, depth, access, todo, name);
        return Ok(());
      }
      var resolved := ResolveWithin(fs, root, dir, name);
      if resolved.Dangling? {
        EntrySkipped(entries, was, fs, root, dir, dst, depth, access, todo, name);
        return Ok(());
      }
      if resolved.Refused? {
        EntryEscapes(entries, was, fs, root, dir, dst, depth, access, todo, name);
        return Err(Escapes);
      }
      ResolvedIsInside(fs, root, dir, name);
      NothingUnder(entries, was, fs, root, dir, dst, depth, todo, name);
      ghost var m := entries;
      r := CopyEntry(fs, root, resolved.path, dst + [name], depth + 1, access);
      EntryEnds(m, entries, was, fs, root, dir, dst, depth, access, todo, name, r);
    }

    /** What an entry of a directory resolves to: a directory, a file, or nothing that is skill content. */
    method CopyEntry(fs: Tree, root: Path, p: Path, dst: Path, depth: nat, access: Access) returns (r: Result<(), CopyError>)
      requires Inside(fs, root, p) && 0 < depth <= MAX_COPY_DEPTH + 1
      requires forall q :: q in entries ==> !(dst <= q)
      modifies this
      ensures EntryDone(entries, old(entries), fs, root, p, dst, depth, access, r)
      decreases MAX_COPY_DEPTH + 1 - depth, 1
    {
      match fs[p] {
        case Directory =>
          r := CopyDir(fs, root, p, dst, depth, access);
        case Regular(bytes) =>
          FileBlames(fs, root, p, dst, depth, access, entries);
          if !access(p) { return Err(IoError); }
          FileIsCopy(entries, fs, root, p, dst, depth);
          entries := entries[dst := FileEntry(bytes)];
          return Ok(());
        case Special =>
          FileBlames(fs, root, p, dst, depth, access, entries);
          return Ok(());
        case Symlink(_, _) =>
          assert false;
      }
    }
  }

  lemma Untouched(was: Entries, fs: Tree, root: Path, dir: Path, dst: Path)
    requires forall q :: q in was ==> !(dst <= q)
    ensures Frame(was, was, dst) && Sound(was, fs, root, dir, dst)
  {
    forall rel ensures dst + rel !in was {
      assert dst <= dst + rel;
    }
  }

  lemma StartProgress(was: Entries, fs: Tree, root: Path, dir: Path, dst: Path, depth: nat, todo: set<string>)
    requires forall q :: q in was ==> !(dst <= q)
    requires dir in fs && fs[dir] == Directory && depth <= MAX_COPY_DEPTH
    requires todo == set p | p in fs && |p| == |dir| + 1 && dir <= p :: p[|dir|]
    ensures Progress(was[dst := DirEntry], was, fs, root, dir, dst, depth, todo)
    ensures forall name :: name in todo ==> dir + [name] in fs
  {
    var m := was[dst := DirEntry];
    assert dst + [] == dst;
    forall rel | dst + rel in m ensures rel == [] {
      assert dst <= dst + rel;
    }
    forall name | dir + [name] in fs ensures name in todo {
      assert (dir + [name])[|dir|] == name;
    }
    forall rel | Expected(fs, root, dir, rel).Some? && (rel == [] || rel[0] !in todo) ensures Placed(m, dst, rel, depth) {
      if rel != [] { ExpectedVia(fs, root, dir, rel); }
    }
    forall name | name in todo ensures dir + [name] in fs {
      var p :| p in fs && |p| == |dir| + 1 && dir <= p && p[|dir|] == name;
      assert p == dir + [name];
    }
  }

  lemma NothingUnder(m: Entries, was: Entries, fs: Tree, root: Path, dir: Path, dst: Path, depth: nat,
                     todo: set<string>, name: string)
    requires Progress(m, was, fs, root, dir, dst, depth, todo) && name in todo
    ensures forall q :: q in m ==> !(dst + [name] <= q)
  {
    forall q | dst + [name] <= q ensures q !in m {
      var rel := q[|dst|..];
      assert q == dst + rel && rel[0] == (dst + [name])[|dst|] == name;
    }
  }

  // ---------------------------------------------------------------- cycles

  /** Going round a cycle n times. */
  function Repeat(rel: Path, n: nat): Path {
    if n == 0 then [] else rel + Repeat(rel, n - 1)
  }

  lemma {:induction false} ReachAppend(fs: Tree, root: Path, dir: Path, a: Path, b: Path)
    ensures var mid := Reach(fs, root, dir, a);
      mid.Some? ==> Reach(fs, root, dir, a + b) == Reach(fs, root, mid.value, b)
    decreases |a|
  {
    if a == [] {
      assert a + b == b;
    } else if Reach(fs, root, dir, a).Some? {
      assert (a + b)[1..] == a[1..] + b;
      ReachAppend(fs, root, ResolveWithin(fs, root, dir, a[0]).path, a[1..], b);
    }
  }

  lemma {:induction false} CycleRepeats(fs: Tree, root: Path, dir: Path, rel: Path, n: nat)
    requires Reach(fs, root, dir, rel) == Some(dir)
    ensures Reach(fs, root, dir, Repeat(rel, n)) == Some(dir) && |Repeat(rel, n)| == n * |rel|
  {
    if n > 0 {
      CycleRepeats(fs, root, dir, rel, n - 1);
      ReachAppend(fs, root, dir, rel, Repeat(rel, n - 1));
      assert n * |rel| == |rel| + (n - 1) * |rel|;
    }
  }

  /** No complete copy of a source with a directory cycle exists, so copying one always ends in an error. */
  lemma CycleHasNoCopy(m: Entries, fs: Tree, root: Path, way: Path, rel: Path, dst: Path)
    requires Reach(fs, root, root, way).Some?
    requires var dir := Reach(fs, root, root, way).value;
      rel != [] && Reach(fs, root, dir, rel) == Some(dir) && dir in fs && fs[dir] == Directory
    ensures !(Sound(m, fs, root, root, dst) && Complete(m, fs, root, root, dst, 0))
  {
    var dir := Reach(fs, root, root, way).value;
    var n := MAX_COPY_DEPTH + 1;
    CycleRepeats(fs, root, dir, rel, n);
    ReachAppend(fs, root, root, way, Repeat(rel, n));
    var long := way + Repeat(rel, n);
    assert Expected(fs, root, root, long) == Some(DirEntry);
    assert |long| >= n * |rel| >= n;
    assert Sound(m, fs, root, root, dst) ==> !Placed(m, dst, long, 0);
  }
}
