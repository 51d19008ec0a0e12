/**
 Assembling the skills root (internal/skills/load.go: Load, check, prune, writeManifest).

 Everything is validated before anything is written; afterwards the root holds one directory
 per candidate and the manifest that describes them, or no manifest at all.
 */
module SkillLoad {
  import opened Common
  import opened SkillCopy
  import FM = Frontmatter

  datatype Policy = Unset | SkillPolicy | RulePolicy | OtherPolicy(text: string)

  /** A skill directory found in a source; `policy` is what its SkillCard imposes. */
  datatype Candidate = Candidate(dir: Path, source: string, sourcePath: string, policy: Policy)

  datatype Frontmatter = Frontmatter(name: string, description: string)

  datatype Kind = SkillKind | RuleKind

  datatype Loaded = Loaded(name: string, description: string, kind: Kind, source: string, sourcePath: string)

  datatype Manifest = Manifest(skills: seq<Loaded>, rules: seq<string>)

  /** What reading and validating a SKILL.md yields. */
  type Reader = Path -> Option<Frontmatter>

  /** readFrontmatter only returns frontmatter that passed validation. */
  ghost predicate Validating(read: Reader) {
    forall p: Path :: read(p).Some? ==> FM.ValidName(read(p).value.name)
  }

  // ---------------------------------------------------------------- check

  predicate KnownPolicy(p: Policy) {
    !p.OtherPolicy?
  }

  ghost predicate UsableAlone(c: Candidate, read: Reader) {
    read(c.dir).Some? && KnownPolicy(c.policy)
  }

  ghost predicate SameName(a: Candidate, b: Candidate, read: Reader) {
    read(a.dir).Some? && read(b.dir).Some? && read(a.dir).value.name == read(b.dir).value.name
  }

  /** The first n candidates: every one readable, under a policy that exists, and no name twice. */
  ghost predicate UsableUpTo(cs: seq<Candidate>, n: nat, read: Reader)
    requires n <= |cs|
  {
    && (forall i :: 0 <= i < n ==> UsableAlone(cs[i], read))
    && (forall i, j :: 0 <= i < j < n ==> !SameName(cs[i], cs[j], read))
  }

  ghost predicate Usable(cs: seq<Candidate>, read: Reader) {
    UsableUpTo(cs, |cs|, read)
  }

  /** A skill keeps its frontmatter's name and its candidate's source, and is a rule exactly if its card says so. */
  function LoadedFrom(c: Candidate, fm: Frontmatter): (l: Loaded)
    ensures l.name == fm.name && l.description == fm.description && l.source == c.source && l.sourcePath == c.sourcePath
    ensures l.kind == RuleKind <==> c.policy.RulePolicy?
  {
    Loaded(fm.name, fm.description, if c.policy == RulePolicy then RuleKind else SkillKind, c.source, c.sourcePath)
  }

  ghost predicate Checked(cs: seq<Candidate>, n: nat, read: Reader, loaded: seq<Loaded>, byName: map<string, Candidate>)
    requires n <= |cs|
  {
    && |loaded| == n
    && (forall i :: 0 <= i < n ==> read(cs[i].dir).Some? && loaded[i] == LoadedFrom(cs[i], read(cs[i].dir).value))
    && (forall i :: 0 <= i < n ==> loaded[i].name in byName && byName[loaded[i].name] == cs[i])
    && (forall m :: m in byName ==> exists i :: 0 <= i < n && loaded[i].name == m)
  }

  datatype Problem = Unreadable | Duplicate | BadPolicy

  /** Candidate i can be read, and so can an earlier one of the same name. */
  ghost predicate Repeats(cs: seq<Candidate>, i: nat, read: Reader)
    requires i < |cs|
  {
    exists j :: 0 <= j < i && SameName(cs[j], cs[i], read)
  }

  /** This is what is wrong with candidate i. */
  ghost predicate Faulty(cs: seq<Candidate>, i: nat, read: Reader, p: Problem)
    requires i < |cs|
  {
    match p
    case Unreadable => read(cs[i].dir).None?
    case Duplicate => Repeats(cs, i, read)
    case BadPolicy => read(cs[i].dir).Some? && !Repeats(cs, i, read) && cs[i].policy.OtherPolicy?
  }

  /** Every faulty one of the first n candidates is reported once, in order, and nothing else is. */
  ghost predicate Reports(cs: seq<Candidate>, n: nat, read: Reader, problems: seq<(nat, Problem)>)
    requires n <= |cs|
  {
    && (forall a, b :: 0 <= a < b < |problems| ==> problems[a].0 < problems[b].0)
    && (forall a :: 0 <= a < |problems| ==> problems[a].0 < n && Faulty(cs, problems[a].0, read, problems[a].1))
    && (forall i, p :: 0 <= i < n && Faulty(cs, i, read, p) ==> (i, p) in problems)
  }

  /** The names met so far, each with the candidate it was first met in. */
  ghost predicate NamesMet(cs: seq<Candidate>, n: nat, read: Reader, byName: map<string, Candidate>)
    requires n <= |cs|
  {
    forall m :: m in byName <==> exists i :: 0 <= i < n && read(cs[i].dir).Some? && read(cs[i].dir).value.name == m
  }

  lemma JudgeNamesFault(cs: seq<Candidate>, i: nat, read: Reader, byName: map<string, Candidate>)
    requires i < |cs| && NamesMet(cs, i, read, byName)
    ensures var problem := Judge(cs[i], read, byName);
      forall p :: Faulty(cs, i, read, p) <==> problem == Some(p)
  {
    if read(cs[i].dir).Some? && read(cs[i].dir).value.name in byName {
      var j :| 0 <= j < i && read(cs[j].dir).Some? && read(cs[j].dir).value.name == read(cs[i].dir).value.name;
      assert SameName(cs[j], cs[i], read);
    }
  }

  lemma ReportsSnoc(cs: seq<Candidate>, i: nat, read: Reader, problems: seq<(nat, Problem)>, byName: map<string, Candidate>)
    requires i < |cs| && NamesMet(cs, i, read, byName) && Reports(cs, i, read, problems)
    ensures var problem := Judge(cs[i], read, byName);
      Reports(cs, i + 1, read, if problem.Some? then problems + [(i, problem.value)] else problems)
  {
    JudgeNamesFault(cs, i, read, byName);
    var problem := Judge(cs[i], read, byName);
    if problem.Some? {
      var all := problems + [(i, problem.value)];
      assert forall a :: 0 <= a < |problems| ==> all[a] == problems[a];
      assert all[|problems|] == (i, problem.value);
    }
  }

  lemma NamesMetSnoc(cs: seq<Candidate>, i: nat, read: Reader, byName: map<string, Candidate>, next: map<string, Candidate>)
    requires i < |cs| && NamesMet(cs, i, read, byName)
    requires var fm := read(cs[i].dir);
      next == if fm.Some? && fm.value.name !in byName then byName[fm.value.name := cs[i]] else byName
    ensures NamesMet(cs, i + 1, read, next)
  {
  }

  method Check(cs: seq<Candidate>, read: Reader)
    returns (loaded: seq<Loaded>, byName: map<string, Candidate>, problems: seq<(nat, Problem)>)
    ensures problems == [] <==> Usable(cs, read)
    ensures problems == [] ==> Checked(cs, |cs|, read, loaded, byName)
    ensures Reports(cs, |cs|, read, problems)
  {
    loaded, byName, problems := [], map[], [];
    for i := 0 to |cs|
      invariant CheckedSoFar(cs, i, read, loaded, byName, problems)
    {
      ghost var loadedBefore, namesBefore, problemsBefore := loaded, byName, problems;
      var problem := Judge(cs[i], read, byName);
      if problem.Some? {
        problems := problems + [(i, problem.value)];
      }
      var fm := read(cs[i].dir);
      if fm.Some? && fm.value.name !in byName {
        byName := byName[fm.value.name := cs[i]];
        if KnownPolicy(cs[i].policy) { loaded := loaded + [LoadedFrom(cs[i], fm.value)]; }
      }
      CheckedOneMore(cs, i, read, loadedBefore, namesBefore, problemsBefore, loaded, byName, problems);
    }
  }

  /** What the checking loop keeps. */
  ghost predicate CheckedSoFar(cs: seq<Candidate>, n: nat, read: Reader, loaded: seq<Loaded>,
                               byName: map<string, Candidate>, problems: seq<(nat, Problem)>)
    requires n <= |cs|
  {
    && (problems == [] <==> UsableUpTo(cs, n, read)) && (problems == [] ==> Checked(cs, n, read, loaded, byName))
    && Reports(cs, n, read, problems) && NamesMet(cs, n, read, byName)
  }

  lemma CheckedOneMore(cs: seq<Candidate>, i: nat, read: Reader,
                       loaded: seq<Loaded>, byName: map<string, Candidate>, problems: seq<(nat, Problem)>,
                       loaded': seq<Loaded>, byName': map<string, Candidate>, problems': seq<(nat, Problem)>)
    requires i < |cs| && CheckedSoFar(cs, i, read, loaded, byName, problems)
    requires var fm, problem := read(cs[i].dir), Judge(cs[i], read, byName);
      && problems' == (if problem.Some? then problems + [(i, problem.value)] else problems)
      && byName' == (if fm.Some? && fm.value.name !in byName then byName[fm.value.name := cs[i]] else byName)
      && (problem.None? ==> loaded' == loaded + [LoadedFrom(cs[i], fm.value)])
    ensures CheckedSoFar(cs, i + 1, read, loaded', byName', problems')
  {
    ReportsSnoc(cs, i, read, problems, byName);
    NamesMetSnoc(cs, i, read, byName, byName');
    if problems == [] {
      JudgeIsRight(cs, i, read, loaded, byName);
      if problems' == [] { CheckedSnoc(cs, i, read, loaded, byName); }
    }
  }

  /** The first thing wrong with a candidate, given the names already taken. */
  function Judge(c: Candidate, read: Reader, byName: map<string, Candidate>): Option<Problem> {
    var fm := read(c.dir);
    if fm.None? then Some(Unreadable)
    else if fm.value.name in byName then Some(Duplicate)
    else if c.policy.OtherPolicy? then Some(BadPolicy)
    else None
  }

  lemma JudgeIsRight(cs: seq<Candidate>, i: nat, read: Reader, loaded: seq<Loaded>, byName: map<string, Candidate>)
    requires i < |cs| && UsableUpTo(cs, i, read) && Checked(cs, i, read, loaded, byName)
    ensures Judge(cs[i], read, byName).None? <==> UsableUpTo(cs, i + 1, read)
  {
    if Judge(cs[i], read, byName) == Some(Duplicate) {
      var k :| 0 <= k < i && loaded[k].name == read(cs[i].dir).value.name;
      assert SameName(cs[k], cs[i], read);
    }
  }

  lemma CheckedSnoc(cs: seq<Candidate>, i: nat, read: Reader, loaded: seq<Loaded>, byName: map<string, Candidate>)
    requires i < |cs| && UsableUpTo(cs, i, read) && Checked(cs, i, read, loaded, byName)
    requires Judge(cs[i], read, byName).None?
    ensures read(cs[i].dir).Some?
    ensures var fm := read(cs[i].dir).value;
      Checked(cs, i + 1, read, loaded + [LoadedFrom(cs[i], fm)], byName[fm.name := cs[i]])
  {
    var fm := read(cs[i].dir).value;
    var loaded' := loaded + [LoadedFrom(cs[i], fm)];
    assert forall k :: 0 <= k < i ==> loaded'[k] == loaded[k];
    assert loaded'[i].name == fm.name;
  }

  // ---------------------------------------------------------------- the assembled root

  function RuleNames(loaded: seq<Loaded>): seq<string> {
    if loaded == [] then []
    else RuleNames(loaded[..|loaded| - 1])
         + if loaded[|loaded| - 1].kind == RuleKind then [loaded[|loaded| - 1].name] else []
  }

  /** The skill directories directly under the root. */
  function TopDirs(m: Entries): set<string> {
    set q | q in m && |q| == 1 && m[q] == DirEntry :: q[0]
  }

  function NamesOf(loaded: seq<Loaded>): set<string> {
    set i | 0 <= i < |loaded| :: loaded[i].name
  }

  /** The directory of one skill is a whole copy of where it came from. */
  ghost predicate Assembled(m: Entries, fs: Tree, c: Candidate, name: string) {
    && EvalSymlinks(fs, c.dir).Ok?
    && var root := EvalSymlinks(fs, c.dir).value;
       root in fs && fs[root] == Directory && Sound(m, fs, root, root, [name]) && Complete(m, fs, root, root, [name], 0)
  }

  ghost predicate AllAssembled(m: Entries, fs: Tree, cs: seq<Candidate>, loaded: seq<Loaded>)
    requires |cs| == |loaded|
  {
    AssembledUpTo(m, fs, cs, loaded, |cs|)
  }

  ghost predicate AssembledUpTo(m: Entries, fs: Tree, cs: seq<Candidate>, loaded: seq<Loaded>, n: nat)
    requires n <= |cs| == |loaded|
  {
    forall i :: 0 <= i < n ==> Assembled(m, fs, cs[i], loaded[i].name)
  }

  datatype LoadError = Invalid(problems: seq<(nat, Problem)>) | ClearFailed | PruneFailed | CopyFailed | ManifestFailed

  const MANIFEST_FILE := ".konveyor-skills.json"

  const MANIFEST: Path := [MANIFEST_FILE]

  /** The manifest file cannot be mistaken for a skill, nor a skill for it. */
  lemma ManifestIsNoSkill(name: string)
    requires FM.ValidName(name)
    ensures name != MANIFEST_FILE && !([name] <= MANIFEST)
  {
    FM.ValidNameIsSegment(name);
    assert MANIFEST_FILE[0] == '.';
    assert [name][0] != MANIFEST[0];
  }

  ghost predicate NamesValid(loaded: seq<Loaded>) {
    forall i :: 0 <= i < |loaded| ==> FM.ValidName(loaded[i].name)
  }

  /** Whatever is neither a stale directory nor in one is as it was. */
  ghost predicate OnlyPruned(m: Entries, was: Entries, keep: set<string>) {
    forall q :: q in was && (q == [] || q[0] in keep || q[0] !in TopDirs(was)) ==> q in m && m[q] == was[q]
  }

  /** What the manifest's path holds is no directory with something in it. */
  ghost predicate ManifestIsLeaf(m: Entries) {
    forall q :: q in m ==> !(MANIFEST < q)
  }

  /**
   What the file systems allow: removing the manifest, listing the root, removing a skill's directory,
   reading the sources, and writing the manifest (else what a failed write leaves in it).
   */
  datatype IO = IO(removable: bool, listable: bool, stuck: set<string>, access: Access, writable: bool, left: string)

  /** Candidate i's directory can be cleared and its source copied. */
  ghost predicate Assembles(fs: Tree, c: Candidate, name: string, io: IO) {
    name !in io.stuck && TreeCopyable(fs, c.dir, io.access)
  }

  /** The skills root: what is under it, the manifest file included. */
  class SkillsRoot {
    const dest: Dest

    constructor ()
      ensures dest.entries == map[] && fresh(dest)
    {
      dest := new Dest();
    }

    /** os.Remove of the manifest: no file there is fine, a directory with something in it is not. */
    method ClearManifest(removable: bool) returns (ok: bool)
      modifies dest
      ensures ok <==> removable && ManifestIsLeaf(old(dest.entries))
      ensures dest.entries == if ok then old(dest.entries) - {MANIFEST} else old(dest.entries)
    {
      if !removable || exists q | q in dest.entries :: MANIFEST < q { return false; }
      dest.entries := dest.entries - {MANIFEST};
      return true;
    }

    /** os.WriteFile: a failing write may leave anything in the file. */
    method WriteManifest(bytes: string, writable: bool, left: string) returns (ok: bool)
      modifies dest
      ensures ok == writable
      ensures Frame(dest.entries, old(dest.entries), MANIFEST)
      ensures MANIFEST in dest.entries && dest.entries[MANIFEST].FileEntry?
      ensures forall q :: MANIFEST < q ==> (q in dest.entries <==> q in old(dest.entries))
      ensures ok ==> dest.entries[MANIFEST] == FileEntry(bytes)
    {
      ok := writable;
      dest.entries := dest.entries[MANIFEST := FileEntry(if ok then bytes else left)];
    }

    /** Remove the directories a previous run left that this one does not keep. */
    method Prune(keep: set<string>, listable: bool, stuck: set<string>) returns (ok: bool)
      modifies dest
      ensures ok <==> listable && forall name :: name in TopDirs(old(dest.entries)) && name !in keep ==> name !in stuck
      ensures TopDirs(dest.entries) <= TopDirs(old(dest.entries)) && dest.entries.Keys <= old(dest.entries).Keys
      ensures ok ==> TopDirs(dest.entries) <= keep
      ensures OnlyPruned(dest.entries, old(dest.entries), keep)
    {
      if !listable { return false; }
      var todo := TopDirs(dest.entries);
      while todo != {}
        invariant todo <= TopDirs(old(dest.entries))
        invariant TopDirs(dest.entries) <= TopDirs(old(dest.entries)) && dest.entries.Keys <= old(dest.entries).Keys
        invariant TopDirs(dest.entries) <= keep + todo
        invariant forall name :: name in TopDirs(old(dest.entries)) - todo && name !in keep ==> name !in stuck
        invariant OnlyPruned(dest.entries, old(dest.entries), keep)
        decreases todo
      {
        var name :| name in todo;
        if name !in keep {
          if name in stuck { return false; }
          ghost var before := dest.entries;
          dest.RemoveAll([name]);
          RemovedDir(before, dest.entries, name);
        }
        todo := todo - {name};
      }
      return true;
    }

    /**
     Load, for a non-empty candidate list.  A validation failure leaves the root untouched; a
     failure while pruning or copying leaves no manifest, since no skill can be named like one;
     success leaves exactly one directory per candidate, each a whole copy, and the manifest in
     candidate order.  It fails only for a reason, and then for the first one there is.  `encode` is
     how a manifest is written as JSON.
     */
    method Load(fs: Tree, cs: seq<Candidate>, read: Reader, encode: Manifest -> string, io: IO)
      returns (r: Result<Manifest, LoadError>)
      requires ValidTree(fs) && Validating(read) && cs != []
      modifies dest
      ensures r.Ok? ==>
        && Usable(cs, read) && |r.value.skills| == |cs|
        && (forall i :: 0 <= i < |cs| ==> r.value.skills[i] == LoadedFrom(cs[i], read(cs[i].dir).value))
        && r.value.rules == RuleNames(r.value.skills)
        && MANIFEST in dest.entries && dest.entries[MANIFEST] == FileEntry(encode(r.value))
        && TopDirs(dest.entries) == NamesOf(r.value.skills)
        && AllAssembled(dest.entries, fs, cs, r.value.skills)
      ensures r.Err? && r.error.Invalid? <==> !Usable(cs, read)
      ensures r.Err? && (r.error.Invalid? || r.error.ClearFailed?) ==> dest.entries == old(dest.entries)
      ensures r.Err? && (r.error.PruneFailed? || r.error.CopyFailed?) ==> MANIFEST !in dest.entries
      ensures r.Err? && r.error.Invalid? ==> Reports(cs, |cs|, read, r.error.problems)
      ensures Usable(cs, read) ==>
        if !Clears(old(dest.entries), io) then r == Err(ClearFailed)
        else if !Prunes(old(dest.entries), cs, read, io) then r == Err(PruneFailed)
        else if !Copies(fs, cs, read, io) then r == Err(CopyFailed)
        else if !io.writable then r == Err(ManifestFailed)
        else r.Ok?
    {
      var loaded, byName, problems := Check(cs, read);
      if problems != [] { return Err(Invalid(problems)); }
      r := Install(fs, cs, loaded, byName, read, encode, io);
    }

    /** What Load does once every candidate has passed. */
    method Install(fs: Tree, cs: seq<Candidate>, loaded: seq<Loaded>, byName: map<string, Candidate>, read: Reader,
                   encode: Manifest -> string, io: IO) returns (r: Result<Manifest, LoadError>)
      requires ValidTree(fs) && Usable(cs, read) && Checked(cs, |cs|, read, loaded, byName) && NamesValid(loaded)
      modifies dest
      ensures r.Ok? ==>
        && r.value == Manifest(loaded, RuleNames(loaded))
        && MANIFEST in dest.entries && dest.entries[MANIFEST] == FileEntry(encode(r.value))
        && TopDirs(dest.entries) == NamesOf(loaded)
        && AllAssembled(dest.entries, fs, cs, loaded)
      ensures r == Err(ClearFailed) ==> dest.entries == old(dest.entries)
      ensures r == Err(PruneFailed) || r == Err(CopyFailed) ==> MANIFEST !in dest.entries
      ensures
        if !Clears(old(dest.entries), io) then r == Err(ClearFailed)
        else if !Prunes(old(dest.entries), cs, read, io) then r == Err(PruneFailed)
        else if !Copies(fs, cs, read, io) then r == Err(CopyFailed)
        else if !io.writable then r == Err(ManifestFailed)
        else r.Ok?
    {
      var cleared := ClearManifest(io.removable);
      if !cleared { return Err(ClearFailed); }
      PrunesExactly(old(dest.entries), cs, read, loaded, byName, io);
      var pruned := Prune(set i | 0 <= i < |loaded| :: loaded[i].name, io.listable, io.stuck);
      if !pruned { return Err(PruneFailed); }
      CopiesExactly(fs, cs, read, loaded, byName, io);
      var copied := CopyAll(fs, cs, loaded, byName, read, io);
      if !copied { return Err(CopyFailed); }
      var rules := CollectRules(loaded);
      ghost var before := dest.entries;
      var written := WriteManifest(encode(Manifest(loaded, rules)), io.writable, io.left);
      ManifestKeepsSkills(before, dest.entries, fs, cs, loaded);
      if !written { return Err(ManifestFailed); }
      return Ok(Manifest(loaded, rules));
    }

    method CopyAll(fs: Tree, cs: seq<Candidate>, loaded: seq<Loaded>, byName: map<string, Candidate>, read: Reader,
                   io: IO) returns (ok: bool)
      requires ValidTree(fs) && Usable(cs, read) && Checked(cs, |cs|, read, loaded, byName) && NamesValid(loaded)
      requires TopDirs(dest.entries) <= NamesOf(loaded) && MANIFEST !in dest.entries
      modifies dest
      ensures ok <==> AssemblesUpTo(fs, cs, loaded, |cs|, io)
      ensures ok ==> AllAssembled(dest.entries, fs, cs, loaded)
      ensures TopDirs(dest.entries) <= NamesOf(loaded) && MANIFEST !in dest.entries
    {
      for i := 0 to |loaded|
        invariant Built(dest.entries, fs, cs, loaded, i, io)
      {
        ghost var before := dest.entries;
        ByItsName(cs, read, loaded, byName, i);
        var copied := Replace(fs, byName[loaded[i].name], loaded[i].name, io);
        ReplacedKeeps(before, dest.entries, loaded, i);
        if !copied { return false; }
        OneMore(before, dest.entries, fs, cs, loaded, byName, read, io, i);
      }
      return true;
    }

    /** Clear one skill's directory, then copy its source there. */
    method Replace(fs: Tree, c: Candidate, name: string, io: IO) returns (ok: bool)
      requires ValidTree(fs)
      modifies dest
      ensures ok <==> Assembles(fs, c, name, io)
      ensures Frame(dest.entries, old(dest.entries), [name])
      ensures ok ==> Assembled(dest.entries, fs, c, name)
    {
      if name in io.stuck { return false; }
      dest.RemoveAll([name]);
      var copied := dest.CopyTree(fs, c.dir, [name], io.access);
      return copied.Ok?;
    }
  }

  ghost predicate AssemblesUpTo(fs: Tree, cs: seq<Candidate>, loaded: seq<Loaded>, n: nat, io: IO)
    requires n <= |cs| == |loaded|
  {
    forall i :: 0 <= i < n ==> Assembles(fs, cs[i], loaded[i].name, io)
  }

  /** The first n skills are there and could be assembled; no foreign directory is, and no manifest. */
  ghost predicate Built(m: Entries, fs: Tree, cs: seq<Candidate>, loaded: seq<Loaded>, n: nat, io: IO)
    requires n <= |cs| == |loaded|
  {
    && AssembledUpTo(m, fs, cs, loaded, n) && AssemblesUpTo(fs, cs, loaded, n, io)
    && TopDirs(m) <= NamesOf(loaded) && MANIFEST !in m
  }

  lemma ByItsName(cs: seq<Candidate>, read: Reader, loaded: seq<Loaded>, byName: map<string, Candidate>, i: nat)
    requires i < |cs| && Checked(cs, |cs|, read, loaded, byName)
    ensures loaded[i].name in byName && byName[loaded[i].name] == cs[i]
  {
  }

  /** The previous manifest can be removed. */
  ghost predicate Clears(m: Entries, io: IO) {
    io.removable && ManifestIsLeaf(m)
  }

  /** Every stale directory can be removed. */
  ghost predicate Prunes(m: Entries, cs: seq<Candidate>, read: Reader, io: IO) {
    io.listable && forall name :: Stale(m - {MANIFEST}, cs, read, name) ==> name !in io.stuck
  }

  /** Every candidate can be assembled. */
  ghost predicate Copies(fs: Tree, cs: seq<Candidate>, read: Reader, io: IO) {
    forall i :: 0 <= i < |cs| && read(cs[i].dir).Some? ==> Assembles(fs, cs[i], read(cs[i].dir).value.name, io)
  }

  lemma PrunesExactly(m: Entries, cs: seq<Candidate>, read: Reader, loaded: seq<Loaded>, byName: map<string, Candidate>, io: IO)
    requires Usable(cs, read) && Checked(cs, |cs|, read, loaded, byName)
    ensures var keep := set i | 0 <= i < |loaded| :: loaded[i].name;
      && keep == NamesOf(loaded)
      && (Prunes(m, cs, read, io) <==>
            io.listable && forall name :: name in TopDirs(m - {MANIFEST}) && name !in keep ==> name !in io.stuck)
  {
    StaleNames(m - {MANIFEST}, cs, read, loaded, byName);
  }

  lemma CopiesExactly(fs: Tree, cs: seq<Candidate>, read: Reader, loaded: seq<Loaded>, byName: map<string, Candidate>, io: IO)
    requires Usable(cs, read) && Checked(cs, |cs|, read, loaded, byName)
    ensures Copies(fs, cs, read, io) <==> AssemblesUpTo(fs, cs, loaded, |cs|, io)
  {
    forall i | 0 <= i < |cs| ensures read(cs[i].dir).Some? && loaded[i].name == read(cs[i].dir).value.name {
      assert UsableAlone(cs[i], read);
    }
  }

  /** A directory of the root that no candidate is named after. */
  ghost predicate Stale(m: Entries, cs: seq<Candidate>, read: Reader, name: string) {
    name in TopDirs(m) && forall i :: 0 <= i < |cs| && read(cs[i].dir).Some? ==> read(cs[i].dir).value.name != name
  }

  lemma StaleNames(m: Entries, cs: seq<Candidate>, read: Reader, loaded: seq<Loaded>, byName: map<string, Candidate>)
    requires Usable(cs, read) && Checked(cs, |cs|, read, loaded, byName)
    ensures forall name :: Stale(m, cs, read, name) <==> name in TopDirs(m) && name !in NamesOf(loaded)
    ensures NamesOf(loaded) == set i | 0 <= i < |loaded| :: loaded[i].name
  {
    forall name ensures (exists i :: 0 <= i < |cs| && read(cs[i].dir).Some? && read(cs[i].dir).value.name == name)
                        <==> name in NamesOf(loaded) {
      if i :| 0 <= i < |cs| && read(cs[i].dir).Some? && read(cs[i].dir).value.name == name {
        assert loaded[i].name == name;
      }
    }
  }

  lemma RemovedDir(m: Entries, n: Entries, name: string)
    requires n == map q | q in m && !([name] <= q) :: m[q]
    ensures TopDirs(n) == TopDirs(m) - {name}
  {
    forall q | q in m && |q| == 1 && q[0] == name ensures q !in n {
      assert q == [name];
    }
    forall x | x in TopDirs(m) && x != name ensures x in TopDirs(n) {
      var q :| q in m && |q| == 1 && m[q] == DirEntry && q[0] == x;
      assert q in n;
    }
  }

  lemma FrameTopDirs(m: Entries, n: Entries, name: string)
    requires Frame(n, m, [name])
    ensures TopDirs(n) <= TopDirs(m) + {name}
  {
    forall x | x in TopDirs(n) && x != name ensures x in TopDirs(m) {
      var q :| q in n && |q| == 1 && n[q] == DirEntry && q[0] == x;
      assert !([name] <= q);
    }
  }

  lemma ReplacedKeeps(m: Entries, n: Entries, loaded: seq<Loaded>, i: nat)
    requires i < |loaded| && NamesValid(loaded) && Frame(n, m, [loaded[i].name])
    requires TopDirs(m) <= NamesOf(loaded) && MANIFEST !in m
    ensures TopDirs(n) <= NamesOf(loaded) && MANIFEST !in n
  {
    FrameTopDirs(m, n, loaded[i].name);
    ManifestIsNoSkill(loaded[i].name);
    assert loaded[i].name in NamesOf(loaded);
  }

  /** Writing under one name leaves the other skills as they were. */
  lemma FrameAssembled(m: Entries, n: Entries, fs: Tree, c: Candidate, other: string, name: string)
    requires other != name && Assembled(m, fs, c, other)
    requires Frame(n, m, [name])
    ensures Assembled(n, fs, c, other)
  {
    var root := EvalSymlinks(fs, c.dir).value;
    assert forall rel :: ([other] + rel)[0] == other;
    assert forall rel :: !([name] <= [other] + rel);
    forall rel | Expected(fs, root, root, rel).Some? ensures Placed(n, [other], rel, 0) {
      assert Placed(m, [other], rel, 0);
    }
  }

  lemma OneMore(m: Entries, n: Entries, fs: Tree, cs: seq<Candidate>, loaded: seq<Loaded>,
                byName: map<string, Candidate>, read: Reader, io: IO, i: nat)
    requires i < |cs| && Usable(cs, read) && Checked(cs, |cs|, read, loaded, byName) && NamesValid(loaded)
    requires Built(m, fs, cs, loaded, i, io) && Frame(n, m, [loaded[i].name])
    requires Assembled(n, fs, cs[i], loaded[i].name) && Assembles(fs, cs[i], loaded[i].name, io)
    ensures Built(n, fs, cs, loaded, i + 1, io)
  {
    forall k | 0 <= k < i ensures Assembled(n, fs, cs[k], loaded[k].name) {
      assert !SameName(cs[k], cs[i], read);
      assert loaded[k].name != loaded[i].name;
      FrameAssembled(m, n, fs, cs[k], loaded[k].name, loaded[i].name);
    }
    ReplacedKeeps(m, n, loaded, i);
  }

  /** A whole copy starts with its own directory. */
  lemma AssembledDirs(m: Entries, fs: Tree, cs: seq<Candidate>, loaded: seq<Loaded>)
    requires |cs| == |loaded| && AllAssembled(m, fs, cs, loaded) && ValidTree(fs)
    requires TopDirs(m) <= NamesOf(loaded)
    ensures TopDirs(m) == NamesOf(loaded)
  {
    forall i | 0 <= i < |loaded| ensures loaded[i].name in TopDirs(m) {
      var name := loaded[i].name;
      assert Assembled(m, fs, cs[i], name);
      var root := EvalSymlinks(fs, cs[i].dir).value;
      assert Expected(fs, root, root, []) == Some(DirEntry);
      assert Placed(m, [name], [], 0);
      assert [name] + [] == [name];
      assert m[[name]] == DirEntry;
    }
  }

  /** Writing the manifest leaves every skill as it was. */
  lemma ManifestKeepsSkills(m: Entries, n: Entries, fs: Tree, cs: seq<Candidate>, loaded: seq<Loaded>)
    requires |cs| == |loaded| && AllAssembled(m, fs, cs, loaded) && NamesValid(loaded) && ValidTree(fs)
    requires TopDirs(m) <= NamesOf(loaded)
    requires Frame(n, m, MANIFEST) && MANIFEST in n && n[MANIFEST].FileEntry? && MANIFEST !in m
    ensures AllAssembled(n, fs, cs, loaded) && TopDirs(n) == TopDirs(m) == NamesOf(loaded)
  {
    AssembledDirs(m, fs, cs, loaded);
    forall i | 0 <= i < |cs| ensures Assembled(n, fs, cs[i], loaded[i].name) {
      ManifestIsNoSkill(loaded[i].name);
      FrameAssembled(m, n, fs, cs[i], loaded[i].name, MANIFEST_FILE);
    }
    forall x ensures x in TopDirs(n) <==> x in TopDirs(m) {
      TopDirsAre(m, x);
      TopDirsAre(n, x);
      if x != MANIFEST_FILE { assert MANIFEST[0] != [x][0] && !(MANIFEST <= [x]); }
    }
  }

  lemma TopDirsAre(m: Entries, x: string)
    ensures x in TopDirs(m) <==> [x] in m && m[[x]] == DirEntry
  {
    if x in TopDirs(m) {
      var q :| q in m && |q| == 1 && m[q] == DirEntry && q[0] == x;
      assert q == [x];
    }
    if [x] in m && m[[x]] == DirEntry { assert [x][0] == x; }
  }

  // ---------------------------------------------------------------- rules

  method CollectRules(loaded: seq<Loaded>) returns (rules: seq<string>)
    ensures rules == RuleNames(loaded)
  {
    rules := [];
    for i := 0 to |loaded|
      invariant rules == RuleNames(loaded[..i])
    {
      assert loaded[..i + 1][..i] == loaded[..i];
      if loaded[i].kind == RuleKind { rules := rules + [loaded[i].name]; }
    }
    assert loaded[..|loaded|] == loaded;
  }

  /** The positions of the rules, in increasing order. */
  ghost function RulePositions(loaded: seq<Loaded>): (at: seq<nat>)
    ensures forall a, b :: 0 <= a < b < |at| ==> at[a] < at[b]
    ensures forall a :: 0 <= a < |at| ==> at[a] < |loaded| && loaded[at[a]].kind == RuleKind
    ensures forall i :: 0 <= i < |loaded| && loaded[i].kind == RuleKind ==> i in at
  {
    if loaded == [] then []
    else
      var n := |loaded| - 1;
      RulePositions(loaded[..n]) + if loaded[n].kind == RuleKind then [n] else []
  }

  /** The manifest lists each rule once, in the order their sources were declared. */
  lemma {:induction false} RulesInOrder(loaded: seq<Loaded>)
    ensures var at := RulePositions(loaded);
      |RuleNames(loaded)| == |at| && forall a :: 0 <= a < |at| ==> RuleNames(loaded)[a] == loaded[at[a]].name
  {
    if loaded != [] {
      RulesInOrder(loaded[..|loaded| - 1]);
    }
  }
}
