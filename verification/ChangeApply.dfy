// The approved multi-file commit: verify, stage, commit, roll back, clean up.

module Files {
  import opened Wrappers

  datatype File = File(content: string, mode: nat)

  // Files by path below the workspace root. An operation consults the fault
  // oracle once; a faulted operation has no effect. Operations named Recover are
  // the ones rollback and cleanup use; they fail only when their file is missing.
  class FileSystem {
    var files: map<string, File>
    var clock: nat
    const fails: nat -> bool

    constructor (files: map<string, File>, fails: nat -> bool)
      ensures this.files == files && this.fails == fails && clock == 0
    {
      this.files, this.fails, clock := files, fails, 0;
    }

    method Read(path: string) returns (r: Option<File>)
      modifies `clock
      ensures r == if path in files && !fails(old(clock)) then Some(files[path]) else None
    {
      r := if path in files && !fails(clock) then Some(files[path]) else None;
      clock := clock + 1;
    }

    // Lstat for a path that must not exist yet, with the checks on its parent.
    method CheckAbsent(path: string) returns (ok: bool)
      modifies `clock
      ensures ok <==> path !in files && !fails(old(clock))
    {
      ok := path !in files && !fails(clock);
      clock := clock + 1;
    }

    method CreateTemp(path: string) returns (ok: bool)
      requires path !in files
      modifies this
      ensures ok <==> !fails(old(clock))
      ensures files == if ok then old(files)[path := File("", 0x180)] else old(files)
    {
      ok := !fails(clock);
      if ok { files := files[path := File("", 0x180)]; }
      clock := clock + 1;
    }

    method Chmod(path: string, mode: nat) returns (ok: bool)
      requires path in files
      modifies this
      ensures ok <==> !fails(old(clock))
      ensures files == if ok then old(files)[path := old(files)[path].(mode := mode)] else old(files)
    {
      ok := !fails(clock);
      if ok { files := files[path := files[path].(mode := mode)]; }
      clock := clock + 1;
    }

    method WriteString(path: string, content: string) returns (ok: bool)
      requires path in files
      modifies this
      ensures ok <==> !fails(old(clock))
      ensures files == if ok then old(files)[path := old(files)[path].(content := content)] else old(files)
    {
      ok := !fails(clock);
      if ok { files := files[path := files[path].(content := content)]; }
      clock := clock + 1;
    }

    // Sync, and Close of a written file.
    method Flush() returns (ok: bool)
      modifies `clock
      ensures ok <==> !fails(old(clock))
    {
      ok := !fails(clock);
      clock := clock + 1;
    }

    method Link(from: string, to: string) returns (ok: bool)
      modifies this
      ensures ok <==> from in old(files) && to !in old(files) && !fails(old(clock))
      ensures files == if ok then old(files)[to := old(files)[from]] else old(files)
    {
      ok := from in files && to !in files && !fails(clock);
      if ok { files := files[to := files[from]]; }
      clock := clock + 1;
    }

    method Remove(path: string) returns (ok: bool)
      modifies this
      ensures ok <==> path in old(files) && !fails(old(clock))
      ensures files == if ok then old(files) - {path} else old(files)
    {
      ok := path in files && !fails(clock);
      if ok { files := files - {path}; }
      clock := clock + 1;
    }

    method Rename(from: string, to: string) returns (ok: bool)
      modifies this
      ensures ok <==> from in old(files) && !fails(old(clock))
      ensures files == if ok then (old(files) - {from})[to := old(files)[from]] else old(files)
    {
      ok := from in files && !fails(clock);
      if ok { files := (files - {from})[to := files[from]]; }
      clock := clock + 1;
    }

    method RecoverRemove(path: string)
      modifies `files
      ensures files == old(files) - {path}
    {
      files := files - {path};
    }

    method RecoverRename(from: string, to: string)
      modifies `files
      ensures files == if from in old(files) then (old(files) - {from})[to := old(files)[from]] else old(files)
    {
      if from in files { files := (files - {from})[to := files[from]]; }
    }
  }
}

module ChangeApply {
  import opened Files
  import opened Wrappers
  import Order

  // Updated content by path; created marks the paths that must not exist yet, and
  // original holds the previewed content of the others.
  datatype PendingChange = PendingChange(original: map<string, string>, updated: map<string, string>,
                                         created: set<string>)

  datatype Staged = Staged(path: string, temporary: string, backup: string, created: bool)

  datatype ApplyError = Stale(path: string) | StageFailed(path: string) | CommitFailed(path: string)

  const CREATED_MODE: nat := 0x1A4

  function BackupName(temporary: string): string { temporary + ".bak" }

  // The content the preview was made from.
  function Previewed(change: PendingChange, path: string): string {
    if path in change.original then change.original[path] else ""
  }

  // The preview still describes the workspace at this path.
  predicate FreshAt(files: map<string, File>, change: PendingChange, path: string) {
    if path in change.created then path !in files
    else path in files && files[path].content == Previewed(change, path)
  }

  ghost predicate FreshPreview(files: map<string, File>, change: PendingChange) {
    forall p :: p in change.updated ==> FreshAt(files, change, p)
  }

  function ModeFor(files: map<string, File>, change: PendingChange, path: string): nat {
    if path in change.created || path !in files then CREATED_MODE else files[path].mode
  }

  function NewFile(files: map<string, File>, change: PendingChange, path: string): File
    requires path in change.updated
  {
    File(change.updated[path], ModeFor(files, change, path))
  }

  // The workspace an apply is meant to produce: exactly the updated paths replaced or created.
  ghost function Goal(files: map<string, File>, change: PendingChange): map<string, File> {
    map p | p in files.Keys + change.updated.Keys :: if p in change.updated then NewFile(files, change, p) else files[p]
  }

  ghost predicate UnusedName(files: map<string, File>, change: PendingChange, name: string) {
    name != "" && name !in files && name !in change.updated
  }

  // What CreateTemp's random names are relied on for: no staged or backup name is in use.
  ghost predicate UnusedNames(files: map<string, File>, change: PendingChange, names: seq<string>) {
    && |names| == |change.updated|
    && "" !in files && "" !in change.updated
    && (forall i :: 0 <= i < |names| ==>
        UnusedName(files, change, names[i]) && UnusedName(files, change, BackupName(names[i])))
    && (forall i, j :: 0 <= i < j < |names| ==> names[i] != names[j])
    && (forall i, j :: 0 <= i < |names| && 0 <= j < |names| ==> names[i] != BackupName(names[j]))
  }

  ghost function Backups(names: seq<string>): set<string> {
    set i | 0 <= i < |names| :: BackupName(names[i])
  }

  lemma BackupNamesDiffer(a: string, b: string)
    requires a != b
    ensures BackupName(a) != BackupName(b)
  {
    assert BackupName(a)[..|BackupName(a)| - 4] == a && BackupName(b)[..|BackupName(b)| - 4] == b;
  }

  // ------------------------------------------------------- Per-file progress

  // Everything one updated path uses: its three names, the file it gets and the file it had.
  datatype Item = Item(path: string, temporary: string, backup: string, target: File, before: Option<File>)

  datatype Phase = Untouched | Opened | Ready | Committed | Kept

  function NamesOf(item: Item): set<string> { {item.path, item.temporary, item.backup} }

  ghost predicate SameAt(a: map<string, File>, b: map<string, File>, p: string) {
    (p in a <==> p in b) && (p in a ==> a[p] == b[p])
  }

  ghost predicate Holds(files: map<string, File>, p: string, f: Option<File>) {
    match f
    case None => p !in files
    case Some(v) => p in files && files[p] == v
  }

  ghost predicate ItemAt(files: map<string, File>, item: Item, phase: Phase) {
    match phase
    case Untouched => Holds(files, item.path, item.before) && item.temporary !in files && item.backup !in files
    case Opened => Holds(files, item.path, item.before) && item.temporary in files && item.backup !in files
    case Ready => Holds(files, item.path, item.before) && Holds(files, item.temporary, Some(item.target))
      && item.backup !in files
    case Committed => Holds(files, item.path, Some(item.target)) && item.temporary !in files
      && Holds(files, item.backup, item.before)
    case Kept => Holds(files, item.path, Some(item.target)) && item.temporary !in files
  }

  ghost predicate ItemLayout(base: map<string, File>, item: Item) {
    && item.path != item.temporary && item.path != item.backup && item.temporary != item.backup
    && "" !in NamesOf(item)
    && item.temporary !in base && item.backup !in base && Holds(base, item.path, item.before)
  }

  // The names of different items are apart, and no helper name is in use.
  ghost predicate Layout(base: map<string, File>, plan: seq<Item>) {
    && "" !in base
    && (forall i :: 0 <= i < |plan| ==> ItemLayout(base, plan[i]))
    && (forall i, j :: 0 <= i < |plan| && 0 <= j < |plan| && i != j ==> NamesOf(plan[i]) !! NamesOf(plan[j]))
  }

  ghost predicate Foreign(plan: seq<Item>, p: string) {
    forall i :: 0 <= i < |plan| ==> p !in NamesOf(plan[i])
  }

  ghost predicate At(files: map<string, File>, base: map<string, File>, plan: seq<Item>, phases: seq<Phase>) {
    && |phases| == |plan|
    && (forall i :: 0 <= i < |plan| ==> ItemAt(files, plan[i], phases[i]))
    && (forall p :: Foreign(plan, p) ==> SameAt(files, base, p))
  }

  // An operation confined to one item's names moves that item only.
  lemma MoveItem(files: map<string, File>, files': map<string, File>, base: map<string, File>, plan: seq<Item>,
                 phases: seq<Phase>, i: nat, phase: Phase)
    requires Layout(base, plan) && At(files, base, plan, phases) && i < |plan|
    requires ItemAt(files', plan[i], phase)
    requires files' - NamesOf(plan[i]) == files - NamesOf(plan[i])
    ensures At(files', base, plan, phases[i := phase])
  {
    forall j | 0 <= j < |plan| ensures ItemAt(files', plan[j], phases[i := phase][j]) {
      if j != i {
        assert ItemAt(files, plan[j], phases[j]);
        assert NamesOf(plan[j]) !! NamesOf(plan[i]);
        forall p | p in NamesOf(plan[j]) ensures SameAt(files', files, p) {
          assert p in files - NamesOf(plan[i]) <==> p in files' - NamesOf(plan[i]);
        }
        assert SameAt(files', files, plan[j].path) && SameAt(files', files, plan[j].temporary)
               && SameAt(files', files, plan[j].backup);
      }
    }
    forall p | Foreign(plan, p) ensures SameAt(files', base, p) {
      assert p !in NamesOf(plan[i]) && SameAt(files, base, p);
      assert p in files - NamesOf(plan[i]) <==> p in files' - NamesOf(plan[i]);
    }
  }

  lemma SameEverywhere(a: map<string, File>, b: map<string, File>)
    requires forall p: string :: SameAt(a, b, p)
    ensures a == b
  {
    assert forall p: string :: p in a <==> p in b by {
      forall p: string ensures p in a <==> p in b { assert SameAt(a, b, p); }
    }
    forall p | p in a ensures a[p] == b[p] { assert SameAt(a, b, p); }
  }

  lemma AllUntouched(files: map<string, File>, base: map<string, File>, plan: seq<Item>, phases: seq<Phase>)
    requires Layout(base, plan) && At(files, base, plan, phases)
    requires forall i :: 0 <= i < |plan| ==> phases[i].Untouched?
    ensures files == base
  {
    forall p: string ensures SameAt(files, base, p) {
      if !Foreign(plan, p) {
        var i :| 0 <= i < |plan| && p in NamesOf(plan[i]);
        assert ItemAt(files, plan[i], phases[i]) && ItemLayout(base, plan[i]);
      }
    }
    SameEverywhere(files, base);
  }

  // ------------------------------------------------------- The operation

  ghost predicate NoFaults(fs: FileSystem) {
    forall n: nat :: !fs.fails(n)
  }

  // Every file is read back and compared before anything is written.
  method Verify(fs: FileSystem, change: PendingChange, paths: seq<string>)
    returns (r: Result<map<string, nat>, ApplyError>)
    modifies fs`clock
    ensures r.Ok? ==> forall p :: p in paths ==>
              FreshAt(fs.files, change, p) && p in r.value && r.value[p] == ModeFor(fs.files, change, p)
    ensures NoFaults(fs) && (forall p :: p in paths ==> FreshAt(fs.files, change, p)) ==> r.Ok?
  {
    var modes: map<string, nat> := map[];
    for i := 0 to |paths|
      invariant forall k :: 0 <= k < i ==>
        FreshAt(fs.files, change, paths[k]) && paths[k] in modes
            && modes[paths[k]] == ModeFor(fs.files, change, paths[k])
    {
      var path := paths[i];
      assert path in paths;
      if path in change.created {
        var absent := fs.CheckAbsent(path);
        if !absent { return Err(Stale(path)); }
        modes := modes[path := CREATED_MODE];
        continue;
      }
      var current := fs.Read(path);
      if current.None? || current.value.content != Previewed(change, path) { return Err(Stale(path)); }
      var state := fs.Read(path);
      if state.None? { return Err(Stale(path)); }
      modes := modes[path := state.value.mode];
    }
    r := Ok(modes);
  }

  // A temporary file with the final mode and content.
  method StageFile(fs: FileSystem, temporary: string, mode: nat, content: string) returns (made: bool, ok: bool)
    requires temporary !in fs.files
    modifies fs
    ensures !made ==> fs.files == old(fs.files) && !ok
    ensures made ==> temporary in fs.files && fs.files - {temporary} == old(fs.files)
    ensures ok ==> made && fs.files[temporary] == File(content, mode)
    ensures NoFaults(fs) ==> ok
  {
    made := fs.CreateTemp(temporary);
    ok := made;
    if ok { ok := fs.Chmod(temporary, mode); }
    if ok { ok := fs.WriteString(temporary, content); }
    if ok { ok := fs.Flush(); }
    if ok { ok := fs.Flush(); }
  }

  // Puts one staged file in place; a failure in the middle undoes the first half.
  method CommitFile(fs: FileSystem, item: Staged) returns (ok: bool)
    requires item.path != item.temporary && item.path != item.backup && item.temporary != item.backup
    requires item.temporary in fs.files && item.backup !in fs.files && (item.path in fs.files <==> !item.created)
    modifies fs
    ensures !ok ==> fs.files == old(fs.files)
    ensures ok ==>
      && Holds(fs.files, item.path, Some(old(fs.files)[item.temporary]))
      && item.temporary !in fs.files
      && Holds(fs.files, item.backup, if item.created then None else Some(old(fs.files)[item.path]))
      && fs.files - {item.path, item.temporary, item.backup} == old(fs.files) - {item.path, item.temporary, item.backup}
    ensures NoFaults(fs) ==> ok
  {
    if item.created {
      ok := fs.Link(item.temporary, item.path);
      if !ok { return; }
      ok := fs.Remove(item.temporary);
      if !ok { fs.RecoverRemove(item.path); }
      return;
    }
    ok := fs.Rename(item.path, item.backup);
    if !ok { return; }
    ok := fs.Rename(item.temporary, item.path);
    if !ok { fs.RecoverRename(item.backup, item.path); }
  }

  // A committed entry's temporary name has been cleared.
  ghost predicate Match(s: Staged, item: Item) {
    s.path == item.path && s.backup == item.backup && (s.temporary == item.temporary || s.temporary == "") &&
    (s.created <==> item.before.None?)
  }

  ghost predicate Matches(staged: seq<Staged>, plan: seq<Item>) {
    |staged| <= |plan| && forall i :: 0 <= i < |staged| ==> Match(staged[i], plan[i])
  }

  // Undoes the committed files, last first.
  method RollbackAppliedChanges(fs: FileSystem, items: seq<Staged>, ghost base: map<string, File>,
                                ghost plan: seq<Item>,
                                ghost phases: seq<Phase>)
    returns (ghost phases': seq<Phase>)
    requires Layout(base, plan) && Matches(items, plan) && At(fs.files, base, plan, phases)
    requires forall i :: 0 <= i < |items| ==> phases[i].Committed?
    modifies fs`files
    ensures At(fs.files, base, plan, phases') && |phases'| == |phases|
    ensures forall i :: 0 <= i < |phases| ==> phases'[i] == if i < |items| then Untouched else phases[i]
  {
    phases' := phases;
    var index := |items|;
    while index > 0
      invariant 0 <= index <= |items|
      invariant At(fs.files, base, plan, phases') && |phases'| == |phases|
      invariant forall i :: 0 <= i < |phases| ==> phases'[i] == if index <= i < |items| then Untouched else phases[i]
    {
      index := index - 1;
      ghost var before := fs.files;
      assert Match(items[index], plan[index]) && ItemAt(before, plan[index], Committed)
             && ItemLayout(base, plan[index]);
      fs.RecoverRemove(items[index].path);
      if !items[index].created { fs.RecoverRename(items[index].backup, items[index].path); }
      MoveItem(before, fs.files, base, plan, phases', index, Untouched);
      phases' := phases'[index := Untouched];
    }
  }

  lemma NoEmptyName(files: map<string, File>, base: map<string, File>, plan: seq<Item>, phases: seq<Phase>)
    requires Layout(base, plan) && At(files, base, plan, phases)
    ensures "" !in files
  {
    forall i | 0 <= i < |plan| ensures "" !in NamesOf(plan[i]) { assert ItemLayout(base, plan[i]); }
    assert SameAt(files, base, "");
  }

  // The deferred cleanup: remaining temporary and backup files go away.
  method Cleanup(fs: FileSystem, staged: seq<Staged>, ghost base: map<string, File>, ghost plan: seq<Item>,
                 ghost phases: seq<Phase>)
    requires Layout(base, plan) && Matches(staged, plan) && At(fs.files, base, plan, phases)
    requires forall i :: |staged| <= i < |plan| ==> phases[i].Untouched?
    requires forall i :: 0 <= i < |staged| ==> !phases[i].Committed? && !phases[i].Kept?
    requires forall i :: 0 <= i < |staged| && staged[i].temporary == "" ==> phases[i].Untouched?
    modifies fs`files
    ensures fs.files == base
  {
    ghost var now := phases;
    for i := 0 to |staged|
      invariant At(fs.files, base, plan, now)
      invariant forall k :: 0 <= k < |plan| ==> now[k] == if k < i then Untouched else phases[k]
    {
      ghost var before := fs.files;
      assert Match(staged[i], plan[i]) && ItemAt(before, plan[i], phases[i]) && ItemLayout(base, plan[i]);
      NoEmptyName(before, base, plan, now);
      fs.RecoverRemove(staged[i].temporary);
      fs.RecoverRemove(staged[i].backup);
      MoveItem(before, fs.files, base, plan, now, i, Untouched);
      now := now[i := Untouched];
    }
    AllUntouched(fs.files, base, plan, now);
  }

  ghost function PlanItem(files: map<string, File>, change: PendingChange, path: string, name: string): Item
    requires path in change.updated
  {
    Item(path, name, BackupName(name), NewFile(files, change, path), if path in files then Some(files[path]) else None)
  }

  // One entry per updated path, in path order.
  ghost function Plan(files: map<string, File>, change: PendingChange, paths: seq<string>,
                      names: seq<string>): (plan: seq<Item>)
    requires |paths| == |names| && forall i :: 0 <= i < |paths| ==> paths[i] in change.updated
    ensures |plan| == |paths|
    ensures forall i :: 0 <= i < |plan| ==> plan[i] == PlanItem(files, change, paths[i], names[i])
  {
    seq(|paths|, i requires 0 <= i < |paths| => PlanItem(files, change, paths[i], names[i]))
  }

  lemma PlanLayout(files: map<string, File>, change: PendingChange, paths: seq<string>, names: seq<string>)
    requires UnusedNames(files, change, names) && |paths| == |names|
    requires forall i :: 0 <= i < |paths| ==> paths[i] in change.updated
    requires forall i, j :: 0 <= i < j < |paths| ==> paths[i] != paths[j]
    ensures Layout(files, Plan(files, change, paths, names))
  {
    var plan := Plan(files, change, paths, names);
    forall i, j | 0 <= i < |plan| && 0 <= j < |plan| && i != j ensures NamesOf(plan[i]) !! NamesOf(plan[j]) {
      BackupNamesDiffer(names[i], names[j]);
    }
    forall i | 0 <= i < |plan| ensures ItemLayout(files, plan[i]) {
      assert UnusedName(files, change, names[i]) && UnusedName(files, change, BackupName(names[i]));
    }
  }

  lemma NoEmptyNames(base: map<string, File>, plan: seq<Item>)
    requires Layout(base, plan)
    ensures forall i :: 0 <= i < |plan| ==> plan[i].temporary != "" && plan[i].backup != "" && plan[i].path != ""
  {
    forall i | 0 <= i < |plan| ensures plan[i].temporary != "" && plan[i].backup != "" && plan[i].path != "" {
      assert ItemLayout(base, plan[i]);
    }
  }

  lemma NothingStaged(base: map<string, File>, plan: seq<Item>)
    requires Layout(base, plan)
    ensures At(base, base, plan, seq(|plan|, i => Untouched)) && forall i :: 0 <= i < |plan| ==>
              ItemLayout(base, plan[i])
  {
    forall i | 0 <= i < |plan| ensures ItemAt(base, plan[i], Untouched) { assert ItemLayout(base, plan[i]); }
  }

  lemma StillUntouched(files: map<string, File>, base: map<string, File>, plan: seq<Item>, phases: seq<Phase>, i: nat)
    requires Layout(base, plan) && At(files, base, plan, phases) && i < |plan| && phases[i].Untouched?
    ensures ItemAt(files, plan[i], Untouched) && plan[i].temporary !in files
  {
    hide Foreign;
    assert ItemAt(files, plan[i], phases[i]);
  }

  lemma TemporaryMade(before: map<string, File>, after: map<string, File>, item: Item, ok: bool)
    requires ItemAt(before, item, Untouched) && item.path != item.temporary && item.backup != item.temporary
    requires item.temporary in after && after - {item.temporary} == before
             && (ok ==> after[item.temporary] == item.target)
    ensures ItemAt(after, item, if ok then Ready else Opened) && after - NamesOf(item) == before - NamesOf(item)
  {
    assert after - NamesOf(item) == (after - {item.temporary}) - NamesOf(item);
    assert forall p :: p in before <==> p in after && p != item.temporary;
  }

  // Writes every staged file. On a failure the deferred cleanup has already run.
  method StageAll(fs: FileSystem, change: PendingChange, paths: seq<string>, modes: map<string, nat>,
                  names: seq<string>,
                  ghost plan: seq<Item>)
    returns (r: Result<seq<Staged>, ApplyError>, ghost phases: seq<Phase>)
    requires |paths| == |names| && (forall i :: 0 <= i < |paths| ==> paths[i] in change.updated && paths[i] in modes)
    requires forall i :: 0 <= i < |paths| ==> modes[paths[i]] == ModeFor(fs.files, change, paths[i])
    requires forall i :: 0 <= i < |paths| ==> FreshAt(fs.files, change, paths[i])
    requires plan == Plan(fs.files, change, paths, names) && Layout(fs.files, plan)
    modifies fs
    ensures r.Err? ==> fs.files == old(fs.files)
    ensures r.Ok? ==> |r.value| == |plan| && Matches(r.value, plan) && At(fs.files, old(fs.files), plan, phases)
    ensures r.Ok? ==> forall i :: 0 <= i < |plan| ==> phases[i].Ready? && r.value[i].temporary == plan[i].temporary
    ensures NoFaults(fs) ==> r.Ok?
  {
    hide Foreign, Layout, ItemAt, NamesOf, At;
    ghost var base := fs.files;
    var staged: seq<Staged> := [];
    phases := seq(|plan|, i => Untouched);
    NothingStaged(base, plan);
    for i := 0 to |paths|
      invariant |staged| == i && Matches(staged, plan) && |phases| == |plan| && At(fs.files, base, plan, phases)
      invariant forall k :: 0 <= k < i ==> staged[k].temporary == plan[k].temporary
      invariant forall k :: 0 <= k < |plan| ==> phases[k] == if k < i then Ready else Untouched
    {
      var path := paths[i];
      ghost var before := fs.files;
      StillUntouched(before, base, plan, phases, i);
      var made, ok := StageFile(fs, names[i], modes[path], change.updated[path]);
      if made {
        staged := staged + [Staged(path, names[i], BackupName(names[i]), path in change.created)];
        TemporaryMade(before, fs.files, plan[i], ok);
        MoveItem(before, fs.files, base, plan, phases, i, if ok then Ready else Opened);
        phases := phases[i := if ok then Ready else Opened];
      }
      if !ok {
        NoEmptyNames(base, plan);
        Cleanup(fs, staged, base, plan, phases);
        return Err(StageFailed(path)), phases;
      }
    }
    r := Ok(staged);
  }

  lemma OnePhaseEach(files: map<string, File>, base: map<string, File>, plan: seq<Item>, phases: seq<Phase>)
    requires At(files, base, plan, phases)
    ensures |phases| == |plan|
  {
  }

  lemma StillReady(files: map<string, File>, base: map<string, File>, plan: seq<Item>, phases: seq<Phase>, i: nat)
    requires Layout(base, plan) && At(files, base, plan, phases) && i < |plan| && phases[i].Ready?
    ensures ItemAt(files, plan[i], Ready) && ItemLayout(base, plan[i])
    ensures Holds(files, plan[i].path, plan[i].before) && Holds(files, plan[i].temporary, Some(plan[i].target))
            && plan[i].backup !in files
  {
    hide Foreign;
    assert ItemAt(files, plan[i], phases[i]);
  }

  lemma PutInPlace(before: map<string, File>, after: map<string, File>, item: Item)
    requires Holds(after, item.path, Some(item.target)) && item.temporary !in after
             && Holds(after, item.backup, item.before)
    requires after - {item.path, item.temporary, item.backup} == before - {item.path, item.temporary, item.backup}
    ensures ItemAt(after, item, Committed) && after - NamesOf(item) == before - NamesOf(item)
  {
  }

  // Puts every file in place, or rolls all of them back.
  method CommitAll(fs: FileSystem, staged: seq<Staged>, ghost base: map<string, File>, ghost plan: seq<Item>,
                   ghost phases: seq<Phase>)
    returns (failed: Option<string>, ghost phases': seq<Phase>)
    requires Layout(base, plan) && |staged| == |plan| && Matches(staged, plan) && At(fs.files, base, plan, phases)
    requires forall i :: 0 <= i < |plan| ==> phases[i].Ready? && staged[i].temporary == plan[i].temporary
    modifies fs
    ensures failed.Some? ==> fs.files == base
    ensures failed.None? ==> At(fs.files, base, plan, phases') && forall i :: 0 <= i < |plan| ==> phases'[i].Committed?
    ensures NoFaults(fs) ==> failed.None?
  {
    hide Layout, ItemAt, NamesOf, At, NoFaults;
    NoEmptyNames(base, plan);
    OnePhaseEach(fs.files, base, plan, phases);
    var entries := staged;
    phases' := phases;
    for applied := 0 to |staged|
      invariant |entries| == |staged| && Matches(entries, plan) && |phases'| == |plan|
                && At(fs.files, base, plan, phases')
      invariant forall k :: 0 <= k < |plan| ==> phases'[k] == if k < applied then Committed else Ready
      invariant forall k :: 0 <= k < |plan| ==>
                  entries[k] == if k < applied then staged[k].(temporary := "") else staged[k]
    {
      ghost var before := fs.files;
      assert Match(entries[applied], plan[applied]);
      StillReady(before, base, plan, phases', applied);
      var ok := CommitFile(fs, entries[applied]);
      if !ok {
        assert Matches(entries[..applied], plan) by {
          assert forall k :: 0 <= k < applied ==> Match(entries[k], plan[k]);
        }
        phases' := RollbackAppliedChanges(fs, entries[..applied], base, plan, phases');
        Cleanup(fs, entries, base, plan, phases');
        return Some(entries[applied].path), phases';
      }
      PutInPlace(before, fs.files, plan[applied]);
      MoveItem(before, fs.files, base, plan, phases', applied, Committed);
      phases' := phases'[applied := Committed];
      entries := entries[applied := entries[applied].(temporary := "")];
    }
    failed := None;
  }

  ghost function AllKept(n: nat): seq<Phase> { seq(n, i => Kept) }

  // Drops the backups of a successful commit; one that cannot be removed stays behind.
  method DropBackups(fs: FileSystem, staged: seq<Staged>, ghost base: map<string, File>, ghost plan: seq<Item>,
                     ghost phases: seq<Phase>)
    requires Layout(base, plan) && |staged| == |plan| && Matches(staged, plan) && At(fs.files, base, plan, phases)
    requires forall i :: 0 <= i < |plan| ==> phases[i].Committed?
    modifies fs
    ensures At(fs.files, base, plan, AllKept(|plan|))
    ensures NoFaults(fs) ==> forall i :: 0 <= i < |plan| ==> plan[i].backup !in fs.files
  {
    ghost var now := phases;
    for i := 0 to |staged|
      invariant At(fs.files, base, plan, now)
      invariant forall k :: 0 <= k < |plan| ==> now[k] == if k < i then Kept else Committed
      invariant NoFaults(fs) ==> forall k :: 0 <= k < i ==> plan[k].backup !in fs.files
    {
      ghost var before := fs.files;
      assert Match(staged[i], plan[i]) && ItemAt(before, plan[i], Committed) && ItemLayout(base, plan[i]);
      var removed := fs.Remove(staged[i].backup);
      MoveItem(before, fs.files, base, plan, now, i, Kept);
      now := now[i := Kept];
    }
    assert now == AllKept(|plan|);
  }

  lemma NothingLeftBehind(files: map<string, File>, plan: seq<Item>, names: seq<string>)
    requires |plan| == |names| && forall i :: 0 <= i < |plan| ==>
               plan[i].backup == BackupName(names[i]) && plan[i].backup !in files
    ensures files - Backups(names) == files
  {
    forall p | p in Backups(names) ensures p !in files {
      var i :| 0 <= i < |names| && p == BackupName(names[i]);
      assert plan[i].backup == p;
    }
  }

  lemma BackupUnused(base: map<string, File>, change: PendingChange, names: seq<string>, p: string)
    requires UnusedNames(base, change, names) && p in Backups(names)
    ensures p !in base && p !in change.updated
  {
    var i :| 0 <= i < |names| && p == BackupName(names[i]);
    assert UnusedName(base, change, BackupName(names[i]));
  }

  lemma GoalKeys(base: map<string, File>, change: PendingChange)
    ensures Goal(base, change).Keys == base.Keys + change.updated.Keys
    ensures forall p :: p in Goal(base, change) ==>
              Goal(base, change)[p] == if p in change.updated then NewFile(base, change, p) else base[p]
  {
  }

  lemma NamedItem(plan: seq<Item>, p: string) returns (i: nat)
    requires !Foreign(plan, p)
    ensures i < |plan| && p in NamesOf(plan[i])
  {
    i :| 0 <= i < |plan| && p in NamesOf(plan[i]);
  }

  lemma KeptItem(files: map<string, File>, base: map<string, File>, plan: seq<Item>, i: nat)
    requires Layout(base, plan) && At(files, base, plan, AllKept(|plan|)) && i < |plan|
    ensures Holds(files, plan[i].path, Some(plan[i].target)) && plan[i].temporary !in files
            && plan[i].temporary !in base
  {
    assert ItemAt(files, plan[i], Kept) && ItemLayout(base, plan[i]);
  }

  lemma KeptForeign(files: map<string, File>, base: map<string, File>, plan: seq<Item>, p: string)
    requires At(files, base, plan, AllKept(|plan|)) && Foreign(plan, p)
    ensures SameAt(files, base, p)
  {
  }

  lemma GoalAt(files: map<string, File>, base: map<string, File>, change: PendingChange, paths: seq<string>,
               names: seq<string>, p: string)
    requires |paths| == |names| && (forall p :: p in paths <==> p in change.updated) && p !in Backups(names)
    requires Layout(base, Plan(base, change, paths, names))
    requires At(files, base, Plan(base, change, paths, names), AllKept(|paths|))
    ensures SameAt(files, Goal(base, change), p)
  {
    hide Layout, At, Goal, Foreign, ItemAt, ItemLayout, NewFile;
    var plan := Plan(base, change, paths, names);
    GoalKeys(base, change);
    if p in change.updated {
      var i :| 0 <= i < |paths| && paths[i] == p;
      KeptItem(files, base, plan, i);
    } else if !Foreign(plan, p) {
      var i := NamedItem(plan, p);
      assert paths[i] in paths && BackupName(names[i]) in Backups(names);
      KeptItem(files, base, plan, i);
    } else {
      KeptForeign(files, base, plan, p);
    }
  }

  lemma GoalReached(files: map<string, File>, base: map<string, File>, change: PendingChange, paths: seq<string>,
                    names: seq<string>)
    requires |paths| == |names| && (forall p :: p in paths <==> p in change.updated) && UnusedNames(base, change, names)
    requires Layout(base, Plan(base, change, paths, names))
    requires At(files, base, Plan(base, change, paths, names), AllKept(|paths|))
    ensures files - Backups(names) == Goal(base, change)
  {
    hide Layout, At, ItemAt, Plan, Goal, UnusedNames, Backups;
    var kept := files - Backups(names);
    forall p: string ensures SameAt(kept, Goal(base, change), p) {
      if p in Backups(names) {
        BackupUnused(base, change, names, p);
        assert Goal(base, change).Keys == base.Keys + change.updated.Keys by { GoalKeys(base, change); }
      } else {
        GoalAt(files, base, change, paths, names, p);
      }
    }
    SameEverywhere(kept, Goal(base, change));
  }

  // All or nothing. Any failure, at whichever operation, leaves every file as it was;
  // success changes exactly the updated paths (a backup may stay behind if it cannot
  // be removed). A stale or already existing path refuses the change, and without
  // faults nothing else does.
  method ApplyPendingChange(fs: FileSystem, change: PendingChange, names: seq<string>)
    returns (r: Result<seq<string>, ApplyError>)
    requires UnusedNames(fs.files, change, names)
    modifies fs
    ensures r.Err? ==> fs.files == old(fs.files)
    ensures r.Ok? ==> FreshPreview(old(fs.files), change)
    ensures r.Ok? ==> Order.Sorted(r.value) && forall p :: p in r.value <==> p in change.updated
    ensures r.Ok? ==> fs.files - Backups(names) == Goal(old(fs.files), change)
    ensures NoFaults(fs) ==> (r.Ok? <==> FreshPreview(old(fs.files), change))
    ensures NoFaults(fs) && r.Ok? ==> fs.files == Goal(old(fs.files), change)
  {
    hide At, Layout, Goal, NewFile, Plan, Order.Sorted, ModeFor, FreshAt, NoFaults;
    ghost var base := fs.files;
    var paths := Order.SortedKeys(change.updated.Keys);
    var modes := Verify(fs, change, paths);
    if modes.Err? { return Err(modes.error); }
    Order.SortedDistinct(paths);
    ghost var plan := Plan(base, change, paths, names);
    PlanLayout(base, change, paths, names);
    var staged, phases := StageAll(fs, change, paths, modes.value, names, plan);
    if staged.Err? { return Err(staged.error); }
    var failed, phases' := CommitAll(fs, staged.value, base, plan, phases);
    if failed.Some? { return Err(CommitFailed(failed.value)); }
    DropBackups(fs, staged.value, base, plan, phases');
    GoalReached(fs.files, base, change, paths, names);
    if forall i :: 0 <= i < |plan| ==> plan[i].backup !in fs.files {
      NothingLeftBehind(fs.files, plan, names);
    }
    r := Ok(paths);
  }
}
