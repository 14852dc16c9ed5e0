// From a preview to the workspace: what is approved is what is applied.

module ChangePipeline {
  import opened Wrappers
  import Files
  import opened ChangeApply
  import ChangeDiff
  import opened Materialize
  import Order

  type Disk = map<string, Files.File>

  // The change a preview offers for approval, unless it changes nothing.
  function NewPendingChange(o: Output): Option<PendingChange> {
    if o.Clarify? || o.changedFiles == [] || o.updatedFiles == map[] then None
    else Some(PendingChange(o.originalFiles, o.updatedFiles, PathSet(o.createdFiles)))
  }

  // The path is as it was when the snapshot was taken.
  predicate AsPreviewed(disk: Disk, original: Materialize.Files, path: string) {
    if path in original then path in disk && disk[path].content == original[path] else path !in disk
  }

  ghost predicate Untouched(disk: Disk, original: Materialize.Files, o: Output)
    requires o.Output?
  {
    forall path :: path in o.updatedFiles ==> AsPreviewed(disk, original, path)
  }

  // An approved preview is stale iff a path it changes is no longer as it was.
  lemma StaleIffTouched(h: Host, files: seq<Materialize.File>, edits: seq<Materialize.Edit>, o: Output,
                        final: Materialize.Files, disk: Disk)
    requires Materialized(h, files, edits, o, final) && o.changedFiles != []
    ensures NewPendingChange(o).Some?
    ensures FreshPreview(disk, NewPendingChange(o).value) <==> Untouched(disk, OriginalOf(files), o)
  {
    hide PathContent, FinalContent, Touches, Order.Sorted, OriginalOf, DiffIsShown;
    assert o.changedFiles[0] in o.updatedFiles;
    var change := NewPendingChange(o).value;
    forall path | path in o.updatedFiles
      ensures FreshAt(disk, change, path) <==> AsPreviewed(disk, OriginalOf(files), path) {
      assert UpdatedOk(h, OriginalOf(files), edits, o, path);
    }
  }

  // The file an edited path ends up with: its own edits in order, formatted.
  ghost predicate Folded(h: Host, original: Materialize.Files, edits: seq<Materialize.Edit>, path: string,
                         content: string) {
    var folded := PathContent(h, original, edits, path);
    folded.Some? && FinalContent(h, path, folded.value) == Some(content)
  }

  // What applying it is meant to give is the folded workspace, and nothing else changes.
  lemma AppliedIsFolded(h: Host, files: seq<Materialize.File>, edits: seq<Materialize.Edit>, o: Output,
                        final: Materialize.Files, disk: Disk)
    requires Materialized(h, files, edits, o, final) && o.changedFiles != [] && NewPendingChange(o).Some?
    requires Untouched(disk, OriginalOf(files), o)
    ensures var goal := Goal(disk, NewPendingChange(o).value);
            && goal.Keys == disk.Keys + PathSet(o.createdFiles)
            && (forall path :: path in o.updatedFiles ==>
                  path in goal && Folded(h, OriginalOf(files), edits, path, goal[path].content))
            && (forall path :: path in disk ==> path in goal && goal[path].mode == disk[path].mode)
            && (forall path :: path in disk && path !in o.updatedFiles ==> path in goal && goal[path] == disk[path])
  {
    hide PathContent, FinalContent, Touches, Order.Sorted, OriginalOf, DiffIsShown;
    var goal := Goal(disk, NewPendingChange(o).value);
    forall path | path in o.updatedFiles
      ensures path in goal && Folded(h, OriginalOf(files), edits, path, goal[path].content)
      ensures path in disk <==> path !in o.createdFiles
    {
      assert UpdatedOk(h, OriginalOf(files), edits, o, path) && AsPreviewed(disk, OriginalOf(files), path);
    }
  }

  // A preview's diff reads back as its changes, file by file, exactly when no changed
  // path holds a newline.
  lemma ShownDiffReadsBackIff(h: Host, files: seq<Materialize.File>, edits: seq<Materialize.Edit>, o: Output,
                              final: Materialize.Files)
    requires Materialized(h, files, edits, o, final) && o.changedFiles != []
    ensures ChangeDiff.ParsePatch(o.diff + ChangeDiff.NL) == Some(DiffsOf(o)) <==>
            forall path :: path in o.changedFiles ==> '\n' !in path
  {
    hide ListsOk, FinalOk, UpdatedOk, ChangeDiff.ParsePatch, ChangeDiff.ShownDiff, ChangeDiff.RenderPatch;
    hide ChangeDiff.SingleLines, ChangeDiff.DiffHunk;
    var ds := DiffsOf(o);
    forall k | 0 <= k < |ds| ensures ChangeDiff.SingleLines(ds[k].hunk.lines) && ds[k].path == o.changedFiles[k] {
      var before := if o.changedFiles[k] in o.originalFiles then o.originalFiles[o.changedFiles[k]] else "";
      var after := if o.changedFiles[k] in o.updatedFiles then o.updatedFiles[o.changedFiles[k]] else "";
      ChangeDiff.HunkLinesAreSingle(before, after);
    }
    ChangeDiff.ShownWithNewline(ds);
    ChangeDiff.PatchReadsBackIff(ds);
  }

  // The k-th change of a preview is that of its k-th path, and applying its hunk to the
  // file on disk gives the lines of the file that approving writes.
  lemma ShownDiffIsApplied(h: Host, files: seq<Materialize.File>, edits: seq<Materialize.Edit>, o: Output,
                           final: Materialize.Files, disk: Disk, k: nat)
    requires Materialized(h, files, edits, o, final) && NewPendingChange(o).Some?
    requires Untouched(disk, OriginalOf(files), o) && k < |o.changedFiles|
    ensures var path, d := o.changedFiles[k], DiffsOf(o)[k];
            var before := if path in disk then disk[path].content else "";
            var goal := Goal(disk, NewPendingChange(o).value);
            && d.path == path && path in goal && (d.created <==> path !in disk)
            && ChangeDiff.Patch(ChangeDiff.Lines(before), d.hunk, ChangeDiff.TextOf) ==
               Some(ChangeDiff.Lines(goal[path].content))
  {
    hide PathContent, FinalContent, Touches, Order.Sorted, OriginalOf, DiffIsShown;
    hide ChangeDiff.Patch, ChangeDiff.DiffHunk, ChangeDiff.Lines;
    var path := o.changedFiles[k];
    assert path in o.changedFiles && path in o.updatedFiles;
    assert UpdatedOk(h, OriginalOf(files), edits, o, path) && AsPreviewed(disk, OriginalOf(files), path);
    var before := if path in disk then disk[path].content else "";
    assert DiffsOf(o)[k] == DiffAt(o, path);
    assert DiffsOf(o)[k].hunk == ChangeDiff.DiffHunk(before, o.updatedFiles[path]);
    ChangeDiff.DiffIsLineExact(before, o.updatedFiles[path]);
  }

  lemma SortedOnce(h: Host, files: seq<Materialize.File>, edits: seq<Materialize.Edit>, o: Output,
                   final: Materialize.Files,
                   paths: seq<string>)
    requires Materialized(h, files, edits, o, final)
    requires Order.Sorted(paths) && forall path :: path in paths <==> path in o.updatedFiles
    ensures paths == o.changedFiles
  {
    hide UpdatedOk, Touches, OriginalOf, DiffIsShown;
    Order.SortedIsUnique(paths, o.changedFiles);
  }

  // Approving a preview: refused only for a path touched since or a fault, and otherwise
  // every path it changes holds its folded content and no other file is different.
  method Approve(ghost h: Host, ghost files: seq<Materialize.File>, ghost edits: seq<Materialize.Edit>, o: Output,
                 ghost final: Materialize.Files, fs: Files.FileSystem, names: seq<string>)
    returns (r: Result<seq<string>, ApplyError>)
    requires Materialized(h, files, edits, o, final) && o.changedFiles != []
    requires NewPendingChange(o).Some? && UnusedNames(fs.files, NewPendingChange(o).value, names)
    modifies fs
    ensures r.Err? ==> fs.files == old(fs.files)
    ensures r.Ok? ==> r.value == o.changedFiles && Untouched(old(fs.files), OriginalOf(files), o)
    ensures NoFaults(fs) ==> (r.Ok? <==> Untouched(old(fs.files), OriginalOf(files), o))
    ensures r.Ok? ==> forall path :: path in o.updatedFiles ==>
              path in fs.files && Folded(h, OriginalOf(files), edits, path, fs.files[path].content)
    ensures r.Ok? ==> forall path :: path in old(fs.files) && path !in o.updatedFiles ==>
              path in fs.files && fs.files[path] == old(fs.files)[path]
    ensures r.Ok? ==> fs.files.Keys - Backups(names) == old(fs.files.Keys) + PathSet(o.createdFiles)
  {
    hide Materialized, Goal, Folded, FreshPreview, Untouched, UnusedNames, Backups, OriginalOf, Order.Sorted;
    ghost var disk := fs.files;
    var change := NewPendingChange(o).value;
    StaleIffTouched(h, files, edits, o, final, disk);
    r := ApplyPendingChange(fs, change, names);
    if r.Ok? {
      AppliedIsFolded(h, files, edits, o, final, disk);
      assert (fs.files - Backups(names)).Keys == fs.files.Keys - Backups(names);
      assert forall path :: path in Goal(disk, change) ==>
               path in fs.files && fs.files[path] == Goal(disk, change)[path];
      SortedOnce(h, files, edits, o, final, r.value);
    }
  }
}
