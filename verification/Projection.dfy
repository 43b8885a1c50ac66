/** Projecting key material onto a host's file system in two passes (internal/agent/project.go). */
module Projection {
  import opened Common

  /** A cleaned absolute path, by segments; a key is a relative one. */
  type Path = seq<string>

  const ROOT: nat := 0

  datatype File = File(content: string, owner: nat)

  datatype Error = Missing(variable: string) | IoError | RenameFailed

  datatype Outcome = Done(pathEnv: seq<(string, Path)>, changed: bool) | Failed(error: Error)

  datatype Pending = Pending(tmp: nat, dest: Path)

  function Parent(p: Path): Path { if p == [] then [] else p[..|p| - 1] }

  // ---- What is wanted ----

  function Dests(wanted: map<string, Path>, dir: Path): set<Path> { set v | v in wanted :: dir + wanted[v] }

  predicate HasMaterial(files: map<string, Path>, secrets: map<Path, string>) {
    forall v | v in files :: files[v] in secrets && secrets[files[v]] != ""
  }

  /** The material a destination under `dir` is for. */
  function Material(secrets: map<Path, string>, dir: Path, dest: Path): string {
    if Upto(dir, dest) && dest[|dir|..] in secrets then secrets[dest[|dir|..]] else ""
  }

  predicate Differs(files: map<Path, File>, dest: Path, want: string) {
    dest !in files || files[dest].content != want
  }

  /** The files after the commit of the destinations in `done`. */
  function Committed(files: map<Path, File>, done: set<Path>, secrets: map<Path, string>, dir: Path, uid: nat)
    : map<Path, File>
  {
    files + map d | d in done :: File(Material(secrets, dir, d), uid)
  }

  function Changed(files: map<Path, File>, dests: set<Path>, secrets: map<Path, string>, dir: Path): set<Path> {
    set d | d in dests && Differs(files, d, Material(secrets, dir, d))
  }

  function DestsOf(pending: seq<Pending>): set<Path> { set p | p in pending :: p.dest }
  function TmpsOf(pending: seq<Pending>): set<nat> { set p | p in pending :: p.tmp }

  ghost predicate DistinctTmps(pending: seq<Pending>) {
    forall i, j | 0 <= i < j < |pending| :: pending[i].tmp != pending[j].tmp
  }

  /** `p` is `dir` or one of the levels above it. */
  predicate Upto(p: Path, dir: Path) { p <= dir }

  lemma UptoParent(p: Path, dir: Path)
    requires dir != []
    ensures Upto(p, dir) <==> p == dir || Upto(p, Parent(dir))
  {
    if Upto(p, dir) && p != dir { assert p == dir[..|p|] == Parent(dir)[..|p|]; }
    if Upto(p, Parent(dir)) { assert p == dir[..|p|]; }
  }

  /** The directories from `dir` up to `base`, both included, and none above. */
  function OwnedDirChain(base: Path, dir: Path): seq<Path>
    decreases |dir|
  {
    if !Upto(base, dir) then []
    else if dir == base || dir == [] then [dir] else [dir] + OwnedDirChain(base, Parent(dir))
  }

  lemma {:induction false} ChainIs(base: Path, dir: Path, p: Path)
    ensures p in OwnedDirChain(base, dir) <==> Upto(base, p) && Upto(p, dir)
    decreases |dir|
  {
    if Upto(base, p) && Upto(p, dir) {
      assert base == dir[..|base|] && p == dir[..|p|];
    }
    if Upto(base, dir) && dir != base {
      UptoParent(p, dir);
      UptoParent(base, dir);
      ChainIs(base, Parent(dir), p);
    }
  }

  /** The temps waiting to be renamed, beside those that were there before, each with its destination's material. */
  ghost predicate Waiting(temps: map<nat, File>, before: map<nat, File>, pending: seq<Pending>,
                          secrets: map<Path, string>, dir: Path, uid: nat)
  {
    && DistinctTmps(pending) && TmpsOf(pending) !! before.Keys
    && temps.Keys == before.Keys + TmpsOf(pending)
    && (forall t | t in before :: t in temps && temps[t] == before[t])
    && forall p | p in pending :: p.tmp in temps && temps[p.tmp] == File(Material(secrets, dir, p.dest), uid)
  }

  lemma WaitingPop(temps: map<nat, File>, before: map<nat, File>, pending: seq<Pending>, secrets: map<Path, string>,
                   dir: Path, uid: nat)
    requires pending != [] && Waiting(temps, before, pending, secrets, dir, uid)
    ensures Waiting(temps - {pending[0].tmp}, before, pending[1..], secrets, dir, uid)
  {
    assert pending == [pending[0]] + pending[1..];
    WaitingRest(temps, before, pending[0], pending[1..], secrets, dir, uid);
  }

  lemma WaitingRest(temps: map<nat, File>, before: map<nat, File>, first: Pending, rest: seq<Pending>,
                    secrets: map<Path, string>, dir: Path, uid: nat)
    requires Waiting(temps, before, [first] + rest, secrets, dir, uid)
    ensures Waiting(temps - {first.tmp}, before, rest, secrets, dir, uid)
  {
    TmpsPop(first, rest);
    DistinctPop(first, rest);
    assert first.tmp in TmpsOf([first] + rest);
    forall p | p in rest ensures p.tmp in TmpsOf(rest) && p in [first] + rest {}
  }

  lemma TmpsPop(first: Pending, rest: seq<Pending>)
    ensures TmpsOf([first] + rest) == {first.tmp} + TmpsOf(rest)
  {
  }

  lemma DistinctPop(first: Pending, rest: seq<Pending>)
    requires DistinctTmps([first] + rest)
    ensures DistinctTmps(rest) && first.tmp !in TmpsOf(rest)
  {
    var all := [first] + rest;
    forall i | 0 <= i < |rest| ensures rest[i].tmp != first.tmp { assert all[0] == first && all[i + 1] == rest[i]; }
    forall i, j | 0 <= i < j < |rest| ensures rest[i].tmp != rest[j].tmp {
      assert all[i + 1] == rest[i] && all[j + 1] == rest[j];
    }
  }

  lemma WaitingPush(temps: map<nat, File>, before: map<nat, File>, pending: seq<Pending>, p: Pending,
                    secrets: map<Path, string>, dir: Path, uid: nat)
    requires Waiting(temps, before, pending, secrets, dir, uid) && p.tmp !in temps
    ensures Waiting(temps[p.tmp := File(Material(secrets, dir, p.dest), uid)], before, pending + [p], secrets, dir, uid)
    ensures DestsOf(pending + [p]) == DestsOf(pending) + {p.dest}
  {
    TmpsPush(pending, p);
    forall q | q in pending ensures q.tmp in TmpsOf(pending) {}
    assert p.tmp !in TmpsOf(pending);
    DistinctPush(pending, p);
  }

  lemma TmpsPush(pending: seq<Pending>, p: Pending)
    ensures TmpsOf(pending + [p]) == TmpsOf(pending) + {p.tmp} && DestsOf(pending + [p]) == DestsOf(pending) + {p.dest}
  {
  }

  lemma DistinctPush(pending: seq<Pending>, p: Pending)
    requires DistinctTmps(pending) && p.tmp !in TmpsOf(pending)
    ensures DistinctTmps(pending + [p])
  {
    forall q | q in pending ensures q.tmp != p.tmp {}
  }

  lemma WaitingEmpties(temps: map<nat, File>, before: map<nat, File>, pending: seq<Pending>, secrets: map<Path, string>,
                       dir: Path, uid: nat)
    requires Waiting(temps, before, pending, secrets, dir, uid)
    ensures temps - TmpsOf(pending) == before
  {
  }

  lemma CommitStep(files: map<Path, File>, pending: seq<Pending>, i: nat, secrets: map<Path, string>, dir: Path,
                   uid: nat)
    requires i < |pending|
    ensures Committed(files, DestsOf(pending[..i + 1]), secrets, dir, uid) ==
      Committed(files, DestsOf(pending[..i]), secrets, dir,
                uid)[pending[i].dest := File(Material(secrets, dir, pending[i].dest), uid)]
  {
    assert pending[..i + 1] == pending[..i] + [pending[i]];
    TmpsPush(pending[..i], pending[i]);
    CommittedOne(files, DestsOf(pending[..i]), pending[i].dest, secrets, dir, uid);
  }

  lemma CommittedOne(files: map<Path, File>, done: set<Path>, dest: Path, secrets: map<Path, string>, dir: Path,
                     uid: nat)
    ensures Committed(files, done + {dest}, secrets, dir, uid)
         == Committed(files, done, secrets, dir, uid)[dest := File(Material(secrets, dir, dest), uid)]
  {
  }

  /** The directories a file's owner has to search, from its own up to the base, are the owner's. */
  ghost predicate Owned(dirs: map<Path, nat>, base: Path, dest: Path, uid: nat) {
    forall p | Upto(base, p) && Upto(p, Parent(dest)) :: p in dirs && dirs[p] == uid
  }

  ghost predicate AllOwned(dirs: map<Path, nat>, base: Path, pending: seq<Pending>, uid: nat) {
    forall p | p in pending :: Owned(dirs, base, p.dest, uid)
  }

  /** Nothing the service user owned is taken from it. */
  ghost predicate StillOwned(before: map<Path, nat>, after: map<Path, nat>, uid: nat) {
    forall p | p in before && before[p] == uid :: p in after && after[p] == uid
  }

  lemma AllOwnedKept(before: map<Path, nat>, after: map<Path, nat>, base: Path, pending: seq<Pending>, uid: nat)
    requires AllOwned(before, base, pending, uid) && StillOwned(before, after, uid)
    ensures AllOwned(after, base, pending, uid)
  {
    forall p | p in pending ensures Owned(after, base, p.dest, uid) { assert Owned(before, base, p.dest, uid); }
  }

  lemma AllOwnedPush(dirs: map<Path, nat>, base: Path, pending: seq<Pending>, p: Pending, uid: nat)
    requires AllOwned(dirs, base, pending, uid) && Owned(dirs, base, p.dest, uid)
    ensures AllOwned(dirs, base, pending + [p], uid)
  {
  }

  /** None of the file-system calls from one to another fails. */
  ghost predicate NoFault(faults: set<nat>, from: nat, to: nat) {
    from <= to && forall i | from <= i < to :: i !in faults
  }

  /** A host's file system; `faults` tells which of its calls, counted from the first, fail. */
  class Host {
    const faults: set<nat>
    var calls: nat
    var files: map<Path, File>
    var dirs: map<Path, nat>
    var temps: map<nat, File>

    constructor (faults: set<nat>, files: map<Path, File>, dirs: map<Path, nat>)
      ensures this.faults == faults && calls == 0 && this.files == files && this.dirs == dirs && temps == map[]
    {
      this.faults, calls, this.files, this.dirs, temps := faults, 0, files, dirs, map[];
    }

    /** Any file-system call may fail. */
    method Attempt() returns (ok: bool)
      modifies this`calls
      ensures calls == old(calls) + 1 && (ok <==> old(calls) !in faults)
    {
      ok := calls !in faults;
      calls := calls + 1;
    }

    /** Creates the missing levels of a directory, owned by root; on failure some of them. */
    method MkdirAll(dir: Path) returns (ok: bool)
      modifies this`dirs, this`calls
      ensures old(calls) <= calls && (ok <==> NoFault(faults, old(calls), calls))
      ensures old(dirs).Keys <= dirs.Keys
      ensures forall p | p in dirs :: dirs[p] == if p in old(dirs) then old(dirs)[p] else ROOT
      ensures forall p | p in dirs && p !in old(dirs) :: Upto(p, dir)
      ensures ok ==> forall p | Upto(p, dir) :: p in dirs
    {
      for i := 0 to |dir| + 1
        invariant NoFault(faults, old(calls), calls)
        invariant old(dirs).Keys <= dirs.Keys
        invariant forall p | p in dirs :: dirs[p] == if p in old(dirs) then old(dirs)[p] else ROOT
        invariant forall p | p in dirs && p !in old(dirs) :: Upto(p, dir)
        invariant forall k | 0 <= k < i :: dir[..k] in dirs
      {
        if dir[..i] !in dirs {
          ok := Attempt();
          if !ok { return; }
          dirs := dirs[dir[..i] := ROOT];
        }
      }
      ok := true;
      forall p | Upto(p, dir) ensures p in dirs { assert p == dir[..|p|]; }
    }

    /** Directories outside the base are never handed to the service user. */
    ghost predicate OnlyBelow(before: map<Path, nat>, base: Path, uid: nat)
      reads this
    {
      && before.Keys <= dirs.Keys
      && forall p | p in dirs ::
           || dirs[p] == (if p in before then before[p] else ROOT)
           || (Upto(base, p) && dirs[p] == uid)
    }

    /** Creates a directory and gives it, and every level up to the base, to the service user. */
    method MkdirOwned(base: Path, dir: Path, uid: nat) returns (ok: bool)
      requires Upto(base, dir)
      modifies this`dirs, this`calls
      ensures old(calls) <= calls && (ok <==> NoFault(faults, old(calls), calls))
      ensures OnlyBelow(old(dirs), base, uid)
      ensures StillOwned(old(dirs), dirs, uid)
      ensures ok ==> forall p | Upto(base, p) && Upto(p, dir) :: p in dirs && dirs[p] == uid
    {
      ok := MkdirAll(dir);
      if !ok { return; }
      var chain := OwnedDirChain(base, dir);
      forall p ensures p in chain <==> Upto(base, p) && Upto(p, dir) { ChainIs(base, dir, p); }
      ok := HandOver(chain, uid);
    }

    /** Gives existing directories to the service user, one after the other. */
    method HandOver(chain: seq<Path>, uid: nat) returns (ok: bool)
      requires forall p | p in chain :: p in dirs
      modifies this`dirs, this`calls
      ensures old(calls) <= calls && (ok <==> NoFault(faults, old(calls), calls))
      ensures dirs.Keys == old(dirs).Keys
      ensures forall p | p in dirs :: dirs[p] == old(dirs)[p] || (p in chain && dirs[p] == uid)
      ensures ok ==> forall p | p in chain :: dirs[p] == uid
    {
      for i := 0 to |chain|
        invariant NoFault(faults, old(calls), calls) && dirs.Keys == old(dirs).Keys
        invariant forall p | p in dirs :: dirs[p] == if p in chain[..i] then uid else old(dirs)[p]
      {
        ok := Attempt();
        if !ok { return; }
        assert chain[..i + 1] == chain[..i] + [chain[i]] && chain[i] in chain;
        dirs := dirs[chain[i] := uid];
      }
      assert chain[..|chain|] == chain;
      ok := true;
    }

    /** Writes a temp beside the destination; on any error no temp remains. */
    method StageFile(base: Path, dest: Path, content: string, uid: nat) returns (tmp: nat, ok: bool)
      requires Upto(base, Parent(dest))
      modifies this`dirs, this`temps, this`calls
      ensures old(calls) <= calls && (ok <==> NoFault(faults, old(calls), calls))
      ensures OnlyBelow(old(dirs), base, uid)
      ensures StillOwned(old(dirs), dirs, uid)
      ensures !ok ==> temps == old(temps)
      ensures ok ==> tmp !in old(temps) && temps == old(temps)[tmp := File(content, uid)]
      ensures ok ==> Owned(dirs, base, dest, uid)
    {
      tmp := 0;
      ok := MkdirOwned(base, Parent(dest), uid);
      if !ok { return; }
      ok := Attempt();
      if !ok { return; }
      tmp := CreateTemp();
      ok := FillTemp(tmp, content, uid);
      if !ok { temps := temps - {tmp}; }
    }

    /** Writes, closes, restricts and hands over a temp, in that order. */
    method FillTemp(tmp: nat, content: string, uid: nat) returns (ok: bool)
      requires tmp in temps
      modifies this`temps, this`calls
      ensures old(calls) <= calls && (ok <==> NoFault(faults, old(calls), calls))
      ensures temps - {tmp} == old(temps) - {tmp} && tmp in temps
      ensures ok ==> temps == old(temps)[tmp := File(content, uid)]
    {
      ok := Attempt();
      if !ok { return; }
      temps := temps[tmp := File(content, ROOT)];
      ok := Attempt();
      if !ok { return; }
      ok := Attempt();
      if !ok { return; }
      ok := Attempt();
      if !ok { return; }
      temps := temps[tmp := File(content, uid)];
    }

    method CreateTemp() returns (tmp: nat)
      modifies this`temps
      ensures tmp !in old(temps) && temps == old(temps)[tmp := File("", ROOT)]
    {
      tmp := FreshName(temps.Keys);
      temps := temps[tmp := File("", ROOT)];
    }

    /** Removes every temp not yet renamed. */
    method Discard(pending: seq<Pending>)
      modifies this`temps
      ensures temps == old(temps) - TmpsOf(pending)
    {
      for i := 0 to |pending|
        invariant temps == old(temps) - TmpsOf(pending[..i])
      {
        assert pending[..i + 1] == pending[..i] + [pending[i]];
        temps := temps - {pending[i].tmp};
      }
      assert pending[..|pending|] == pending;
    }

    method Rename(p: Pending) returns (ok: bool)
      requires p.tmp in temps
      modifies this`files, this`temps, this`calls
      ensures calls == old(calls) + 1 && (ok <==> NoFault(faults, old(calls), calls))
      ensures ok ==> files == old(files)[p.dest := old(temps)[p.tmp]] && temps == old(temps) - {p.tmp}
      ensures !ok ==> files == old(files) && temps == old(temps)
    {
      ok := Attempt();
      if ok {
        files := files[p.dest := temps[p.tmp]];
        temps := temps - {p.tmp};
      }
    }

    /** One rename; when it fails, the temps still waiting are removed. */
    method CommitOne(pending: seq<Pending>, ghost before: map<nat, File>, secrets: map<Path, string>, dir: Path,
                     uid: nat)
      returns (ok: bool)
      requires pending != [] && Waiting(temps, before, pending, secrets, dir, uid)
      modifies this`files, this`temps, this`calls
      ensures old(calls) <= calls && (ok <==> NoFault(faults, old(calls), calls))
      ensures ok ==> Waiting(temps, before, pending[1..], secrets, dir, uid)
      ensures ok ==> files == old(files)[pending[0].dest := File(Material(secrets, dir, pending[0].dest), uid)]
      ensures !ok ==> temps == before && files == old(files)
    {
      assert pending[0] in pending;
      WaitingPop(temps, before, pending, secrets, dir, uid);
      ok := Rename(pending[0]);
      if !ok {
        WaitingEmpties(temps, before, pending, secrets, dir, uid);
        Discard(pending);
      }
    }

    /** The second pass: every pending rename in turn. On failure a prefix has landed and the other temps are gone. */
    method Commit(pending: seq<Pending>, ghost before: map<nat, File>, secrets: map<Path, string>, dir: Path, uid: nat)
      returns (ok: bool)
      requires Waiting(temps, before, pending, secrets, dir, uid)
      modifies this`files, this`temps, this`calls
      ensures old(calls) <= calls && (ok <==> NoFault(faults, old(calls), calls))
      ensures temps == before
      ensures ok ==> files == Committed(old(files), DestsOf(pending), secrets, dir, uid)
      ensures !ok ==> PartlyCommitted(old(files), files, DestsOf(pending), secrets, dir, uid)
    {
      assert pending[0..] == pending;
      for i := 0 to |pending|
        invariant NoFault(faults, old(calls), calls)
        invariant Waiting(temps, before, pending[i..], secrets, dir, uid)
        invariant files == Committed(old(files), DestsOf(pending[..i]), secrets, dir, uid)
      {
        assert pending[i..][0] == pending[i] && pending[i..][1..] == pending[i + 1..];
        CommitStep(old(files), pending, i, secrets, dir, uid);
        ok := CommitOne(pending[i..], before, secrets, dir, uid);
        if !ok {
          assert DestsOf(pending[..i]) <= DestsOf(pending);
          return;
        }
      }
      assert pending[..|pending|] == pending && pending[|pending|..] == [];
      WaitingEmpties(temps, before, [], secrets, dir, uid);
      ok := true;
    }

    /** A temp for one destination joins the pending ones. */
    method StageDiffering(dest: Path, secrets: map<Path, string>, dir: Path, uid: nat, pending0: seq<Pending>,
                          ghost before: map<nat, File>)
      returns (pending: seq<Pending>, ok: bool)
      requires Upto(dir, dest) && dest != dir && Waiting(temps, before, pending0, secrets, dir, uid)
            && AllOwned(dirs, dir, pending0, uid)
      modifies this`dirs, this`temps, this`calls
      ensures old(calls) <= calls && (ok <==> NoFault(faults, old(calls), calls))
      ensures OnlyBelow(old(dirs), dir, uid) && StillOwned(old(dirs), dirs, uid)
      ensures Waiting(temps, before, pending, secrets, dir, uid) && AllOwned(dirs, dir, pending, uid)
      ensures if ok then pending != [] && DestsOf(pending) == DestsOf(pending0) + {dest} else pending == pending0
    {
      pending := pending0;
      assert Upto(dir, Parent(dest)) by { UptoParent(dir, dest); }
      var tmp;
      tmp, ok := StageFile(dir, dest, Material(secrets, dir, dest), uid);
      AllOwnedKept(old(dirs), dirs, dir, pending0, uid);
      if ok {
        var p := Pending(tmp, dest);
        WaitingPush(old(temps), before, pending0, p, secrets, dir, uid);
        AllOwnedPush(dirs, dir, pending0, p, uid);
        pending := pending0 + [p];
      }
    }

    /** One variable's material: staged when the destination differs. */
    method StageOne(variable: string, key: Path, secrets: map<Path, string>, dir: Path, uid: nat,
                    pending0: seq<Pending>, ghost before: map<nat, File>)
      returns (pending: seq<Pending>, error: Option<Error>)
      requires key != [] && Waiting(temps, before, pending0, secrets, dir, uid) && AllOwned(dirs, dir, pending0, uid)
      modifies this`dirs, this`temps, this`calls
      ensures old(calls) <= calls && (error == Some(IoError) <==> !NoFault(faults, old(calls), calls))
      ensures OnlyBelow(old(dirs), dir, uid)
      ensures StillOwned(old(dirs), dirs, uid)
      ensures Waiting(temps, before, pending, secrets, dir, uid) && AllOwned(dirs, dir, pending, uid)
      ensures (key !in secrets || secrets[key] == "") <==> error == Some(Missing(variable))
      ensures error.Some? ==> error.value == Missing(variable) || error.value == IoError
      ensures error.None? ==> DestsOf(pending) == DestsOf(pending0) + Changed(files, {dir + key}, secrets, dir)
      ensures pending == pending0 || pending != []
    {
      pending := pending0;
      if key !in secrets || secrets[key] == "" {
        return pending, Some(Missing(variable));
      }
      var dest := dir + key;
      assert dest[|dir|..] == key && Upto(dir, dest);
      var ok;
      pending, ok := StageIfDifferent(dest, secrets, dir, uid, pending0, before);
      ChangedOne(files, dest, secrets, dir);
      error := if ok then None else Some(IoError);
    }

    /** Reads the destination and stages new content; an absent one differs. */
    method StageIfDifferent(dest: Path, secrets: map<Path, string>, dir: Path, uid: nat, pending0: seq<Pending>,
                            ghost before: map<nat, File>)
      returns (pending: seq<Pending>, ok: bool)
      requires Upto(dir, dest) && dest != dir && Waiting(temps, before, pending0, secrets, dir, uid)
            && AllOwned(dirs, dir, pending0, uid)
      modifies this`dirs, this`temps, this`calls
      ensures old(calls) <= calls && (ok <==> NoFault(faults, old(calls), calls))
      ensures OnlyBelow(old(dirs), dir, uid) && StillOwned(old(dirs), dirs, uid)
      ensures Waiting(temps, before, pending, secrets, dir, uid) && AllOwned(dirs, dir, pending, uid)
      ensures ok ==> var differs := Differs(files, dest, Material(secrets, dir, dest));
        if differs then pending != [] && DestsOf(pending) == DestsOf(pending0) + {dest} else pending == pending0
      ensures !ok ==> pending == pending0
    {
      pending := pending0;
      ok := Attempt();
      if ok {
        if Differs(files, dest, Material(secrets, dir, dest)) {
          pending, ok := StageDiffering(dest, secrets, dir, uid, pending0, before);
        }
      }
    }

    /** The first pass: no destination is touched. */
    method StageAll(wanted: map<string, Path>, secrets: map<Path, string>, dir: Path, uid: nat)
      returns (pathEnv: seq<(string, Path)>, pending: seq<Pending>, error: Option<Error>)
      requires forall v | v in wanted :: wanted[v] != []
      modifies this`dirs, this`temps, this`calls
      ensures old(calls) <= calls && (error == Some(IoError) <==> !NoFault(faults, old(calls), calls))
      ensures OnlyBelow(old(dirs), dir, uid) && StillOwned(old(dirs), dirs, uid)
      ensures Waiting(temps, old(temps), pending, secrets, dir, uid) && AllOwned(dirs, dir, pending, uid)
      ensures error.None? ==>
        HasMaterial(wanted, secrets) && DestsOf(pending) == Changed(files, Dests(wanted, dir), secrets, dir)
      ensures error.None? ==> pathEnv == PathEnv(wanted.Keys, wanted, dir)
      ensures error.Some? ==> error.value == IoError || (error.value.Missing? && !HasMaterial(wanted, secrets))
    {
      pathEnv, pending, error := [], [], None;
      var todo := wanted.Keys;
      while todo != {}
        invariant todo <= wanted.Keys && error == None && NoFault(faults, old(calls), calls)
        invariant OnlyBelow(old(dirs), dir, uid) && StillOwned(old(dirs), dirs, uid)
        invariant Waiting(temps, old(temps), pending, secrets, dir, uid) && AllOwned(dirs, dir, pending, uid)
        invariant StagedBut(wanted, todo, secrets, dir, files, DestsOf(pending), pathEnv)
      {
        var v := Least(todo);
        ghost var staged := DestsOf(pending);
        pending, error := StageOne(v, wanted[v], secrets, dir, uid, pending, old(temps));
        if error.Some? { return; }
        StagedStep(wanted, todo, secrets, dir, files, staged, pathEnv, v);
        pathEnv := pathEnv + [(v, dir + wanted[v])];
        todo := todo - {v};
      }
      StagedAll(wanted, secrets, dir, files, DestsOf(pending), pathEnv);
    }

    /** The second pass over what the first left behind. */
    method Land(wanted: map<string, Path>, secrets: map<Path, string>, dir: Path, uid: nat,
                pathEnv: seq<(string, Path)>, pending: seq<Pending>, ghost before: map<nat, File>) returns (r: Outcome)
      requires Waiting(temps, before, pending, secrets, dir, uid) && AllOwned(dirs, dir, pending, uid)
      requires DestsOf(pending) == Changed(files, Dests(wanted, dir), secrets, dir)
      modifies this`files, this`temps, this`calls
      ensures temps == before && old(calls) <= calls && (r.Done? <==> NoFault(faults, old(calls), calls))
      ensures r.Failed? ==> r.error == RenameFailed
      ensures r.Failed? ==>
        PartlyCommitted(old(files), files, Changed(old(files), Dests(wanted, dir), secrets, dir), secrets, dir, uid)
      ensures r.Done? ==> Landed(old(files), files, dirs, r, wanted, secrets, dir, uid) && r.pathEnv == pathEnv
    {
      PendingOwned(dirs, dir, pending, uid);
      var ok := Commit(pending, before, secrets, dir, uid);
      if !ok {
        return Failed(RenameFailed);
      }
      assert pending != [] <==>
        DestsOf(pending) != {} by { if pending != [] { assert pending[0].dest in DestsOf(pending); } }
      r := Done(pathEnv, pending != []);
    }

    /** Projects every wanted file under `dir`: nothing lands before everything is staged. It succeeds exactly when the
        material is complete and no call it made failed. */
    method ProjectFiles(wanted: map<string, Path>, secrets: map<Path, string>, dir: Path, uid: nat) returns (r: Outcome)
      requires forall v | v in wanted :: wanted[v] != []
      modifies this
      ensures temps == old(temps) && OnlyBelow(old(dirs), dir, uid)
      ensures r.Done? <==> HasMaterial(wanted, secrets) && NoFault(faults, old(calls), calls)
      ensures r.Failed? && r.error != RenameFailed ==> files == old(files)
      ensures r == Failed(RenameFailed) ==>
        PartlyCommitted(old(files), files, Changed(old(files), Dests(wanted, dir), secrets, dir), secrets, dir, uid)
      ensures !HasMaterial(wanted, secrets) ==> r.Failed? && r.error != RenameFailed
      ensures r.Done? ==>
        Landed(old(files), files, dirs, r, wanted, secrets, dir, uid) && r.pathEnv == PathEnv(wanted.Keys, wanted, dir)
    {
      if wanted == map[] {
        return Done([], false);
      }
      var ok := MkdirOwned(dir, dir, uid);
      if !ok {
        return Failed(IoError);
      }
      var pathEnv, pending, error := StageAll(wanted, secrets, dir, uid);
      if error.Some? {
        WaitingEmpties(temps, old(temps), pending, secrets, dir, uid);
        Discard(pending);
        return Failed(error.value);
      }
      r := Land(wanted, secrets, dir, uid, pathEnv, pending, old(temps));
    }

    /** Projecting the same material again is a no-op, unless it fails. */
    method ProjectTwice(wanted: map<string, Path>, secrets: map<Path, string>, dir: Path, uid: nat)
      returns (first: Outcome, second: Outcome)
      requires forall v | v in wanted :: wanted[v] != []
      modifies this
      ensures first.Done? && second.Done? ==>
        !second.changed && second.pathEnv == first.pathEnv
        && files == Committed(old(files), Changed(old(files), Dests(wanted, dir), secrets, dir), secrets, dir, uid)
    {
      first := ProjectFiles(wanted, secrets, dir, uid);
      NothingLeftToChange(old(files), wanted, secrets, dir, uid);
      second := ProjectFiles(wanted, secrets, dir, uid);
    }
  }

  /** The variables with their paths, in name order. */
  function PathEnv(vars: set<string>, wanted: map<string, Path>, dir: Path): seq<(string, Path)>
    requires vars <= wanted.Keys
  {
    if vars == {} then [] else [(Least(vars), dir + wanted[Least(vars)])] + PathEnv(vars - {Least(vars)}, wanted, dir)
  }

  function DestsOfVars(wanted: map<string, Path>, vars: set<string>, dir: Path): set<Path>
    requires vars <= wanted.Keys
  {
    set v | v in vars :: dir + wanted[v]
  }

  /** The first pass has dealt with every variable but those still to do. */
  ghost predicate StagedBut(wanted: map<string, Path>, todo: set<string>, secrets: map<Path, string>, dir: Path,
                            files: map<Path, File>, staged: set<Path>, pathEnv: seq<(string, Path)>)
  {
    && todo <= wanted.Keys && (forall v | v in wanted.Keys - todo :: wanted[v] in secrets && secrets[wanted[v]] != "")
    && staged == Changed(files, DestsOfVars(wanted, wanted.Keys - todo, dir), secrets, dir)
    && pathEnv + PathEnv(todo, wanted, dir) == PathEnv(wanted.Keys, wanted, dir)
  }

  lemma StagedStep(wanted: map<string, Path>, todo: set<string>, secrets: map<Path, string>, dir: Path,
                   files: map<Path, File>, staged: set<Path>, pathEnv: seq<(string, Path)>, v: string)
    requires todo != {} && v == Least(todo) && StagedBut(wanted, todo, secrets, dir, files, staged, pathEnv)
    requires wanted[v] in secrets && secrets[wanted[v]] != ""
    ensures StagedBut(wanted, todo - {v}, secrets, dir, files,
                      staged + Changed(files, {dir + wanted[v]}, secrets, dir), pathEnv + [(v, dir + wanted[v])])
  {
    ChangedStep(files, wanted, todo, v, secrets, dir);
  }

  lemma StagedAll(wanted: map<string, Path>, secrets: map<Path, string>, dir: Path, files: map<Path, File>,
                  staged: set<Path>, pathEnv: seq<(string, Path)>)
    requires StagedBut(wanted, {}, secrets, dir, files, staged, pathEnv)
    ensures HasMaterial(wanted, secrets) && staged == Changed(files, Dests(wanted, dir), secrets, dir)
    ensures pathEnv == PathEnv(wanted.Keys, wanted, dir)
  {
    assert wanted.Keys - {} == wanted.Keys;
    assert DestsOfVars(wanted, wanted.Keys, dir) == Dests(wanted, dir);
  }

  /** A completed projection: exactly the differing destinations are replaced, and their directories are the owner's. */
  ghost predicate Landed(before: map<Path, File>, after: map<Path, File>, dirs: map<Path, nat>, r: Outcome,
                         wanted: map<string, Path>, secrets: map<Path, string>, dir: Path, uid: nat)
  {
    var changed := Changed(before, Dests(wanted, dir), secrets, dir);
    && after == Committed(before, changed, secrets, dir, uid) && r.Done? && r.changed == (changed != {})
    && forall d | d in changed :: Owned(dirs, dir, d, uid)
  }

  lemma ChangedOne(files: map<Path, File>, dest: Path, secrets: map<Path, string>, dir: Path)
    ensures Changed(files, {dest}, secrets, dir) ==
      if Differs(files, dest, Material(secrets, dir, dest)) then {dest} else {}
  {
  }

  lemma ChangedStep(files: map<Path, File>, wanted: map<string, Path>, todo: set<string>, v: string,
                    secrets: map<Path, string>, dir: Path)
    requires v in todo && todo <= wanted.Keys
    ensures Changed(files, DestsOfVars(wanted, wanted.Keys - (todo - {v}), dir), secrets, dir) ==
      Changed(files, DestsOfVars(wanted, wanted.Keys - todo, dir), secrets, dir) +
        Changed(files, {dir + wanted[v]}, secrets, dir)
  {
    assert wanted.Keys - (todo - {v}) == wanted.Keys - todo + {v};
    assert DestsOfVars(wanted, wanted.Keys - todo + {v}, dir) ==
      DestsOfVars(wanted, wanted.Keys - todo, dir) + {dir + wanted[v]};
  }

  lemma PendingOwned(dirs: map<Path, nat>, base: Path, pending: seq<Pending>, uid: nat)
    requires AllOwned(dirs, base, pending, uid)
    ensures forall d | d in DestsOf(pending) :: Owned(dirs, base, d, uid)
  {
  }

  // ---- What a projection means ----

  /** After a projection every destination holds its material, and nothing else moved. */
  lemma MaterialLands(files: map<Path, File>, wanted: map<string, Path>, secrets: map<Path, string>, dir: Path,
                      uid: nat)
    requires HasMaterial(wanted, secrets)
    ensures var after := Committed(files, Changed(files, Dests(wanted, dir), secrets, dir), secrets, dir, uid);
      && (forall v | v in wanted :: dir + wanted[v] in after && after[dir + wanted[v]].content == secrets[wanted[v]])
      && (forall p | p !in Dests(wanted, dir) :: (p in after <==> p in files) && (p in files ==> after[p] == files[p]))
  {
    forall v | v in wanted ensures Material(secrets, dir, dir + wanted[v]) == secrets[wanted[v]] {
      assert (dir + wanted[v])[|dir|..] == wanted[v] && Upto(dir, dir + wanted[v]);
    }
  }

  lemma NothingLeftToChange(files: map<Path, File>, wanted: map<string, Path>, secrets: map<Path, string>, dir: Path,
                            uid: nat)
    ensures var after := Committed(files, Changed(files, Dests(wanted, dir), secrets, dir), secrets, dir, uid);
      Changed(after, Dests(wanted, dir), secrets, dir) == {} && Committed(after, {}, secrets, dir, uid) == after
  {
  }

  /** The service user ends up owning every destination exactly when it already owned those whose content did not
      differ. */
  lemma OwnedByServiceIff(files: map<Path, File>, wanted: map<string, Path>, secrets: map<Path, string>, dir: Path,
                          uid: nat)
    ensures var dests := Dests(wanted, dir);
      var after := Committed(files, Changed(files, dests, secrets, dir), secrets, dir, uid);
      (forall d | d in dests :: d in after && after[d].owner == uid) <==>
        forall d | d in dests && !Differs(files, d, Material(secrets, dir, d)) :: files[d].owner == uid
  {
    var dests := Dests(wanted, dir);
    var after := Committed(files, Changed(files, dests, secrets, dir), secrets, dir, uid);
    forall d | d in dests
      ensures d in after
      ensures after[d] == if Differs(files, d, Material(secrets, dir, d)) then File(Material(secrets, dir, d), uid)
                          else files[d]
    {
    }
  }

  /** Some of the destinations carry their new material; everything else is as before. */
  ghost predicate PartlyCommitted(before: map<Path, File>, after: map<Path, File>, dests: set<Path>,
                                  secrets: map<Path, string>, dir: Path, uid: nat)
  {
    exists done :: done <= dests && after == Committed(before, done, secrets, dir, uid)
  }

  function FreshName(used: set<nat>): (n: nat)
    ensures n !in used
  {
    if used == {} then 0 else
      var m := Max(used);
      m + 1
  }

  lemma {:induction false} MaxExists(s: set<nat>) returns (m: nat)
    requires s != {}
    ensures m in s && forall x | x in s :: x <= m
    decreases |s|
  {
    var k :| k in s;
    m := k;
    if s - {k} != {} {
      var n := MaxExists(s - {k});
      if k < n { m := n; }
    }
    forall x | x in s ensures x <= m { assert x == k || x in s - {k}; }
  }

  function Max(s: set<nat>): (m: nat)
    requires s != {}
    ensures m in s && forall x | x in s :: x <= m
  {
    assert exists m: nat :: m in s && forall x | x in s :: x <= m by { var w := MaxExists(s); }
    var m: nat :| m in s && forall x | x in s :: x <= m;
    m
  }
}
