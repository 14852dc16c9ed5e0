// Turning a proposal into file contents: unique exact replacements and creations over an
// in-memory workspace.

module GreedyMatch {
  import opened Wrappers

  predicate At(s: string, p: string, i: nat) {
    i <= |s| && p <= s[i..]
  }

  // strings.Index from a position.
  function FindFrom(s: string, p: string, i: nat): (r: Option<nat>)
    requires i <= |s|
    ensures r.Some? ==> i <= r.value && r.value + |p| <= |s|
    decreases |s| - i
  {
    if At(s, p, i) then Some(i) else if i == |s| then None else FindFrom(s, p, i + 1)
  }

  // It finds the first occurrence there.
  lemma {:induction false} FindsFirst(s: string, p: string, i: nat)
    requires i <= |s|
    ensures var r := FindFrom(s, p, i);
            && (r.Some? ==> At(s, p, r.value) && forall j :: i <= j < r.value ==> !At(s, p, j))
            && (r.None? ==> forall j :: i <= j <= |s| ==> !At(s, p, j))
    decreases |s| - i
  {
    hide At;
    if !At(s, p, i) && i < |s| { FindsFirst(s, p, i + 1); }
  }

  // Where strings.Count counts: non-overlapping, from the left.
  function Starts(s: string, p: string, i: nat): seq<nat>
    requires i <= |s| && p != ""
    decreases |s| - i
  {
    var first := FindFrom(s, p, i);
    if first.None? then [] else [first.value] + Starts(s, p, first.value + |p|)
  }

  lemma NextStart(s: string, p: string, i: nat)
    requires i <= |s| && p != ""
    ensures var first := FindFrom(s, p, i);
            && (first.None? ==> Starts(s, p, i) == [])
            && (first.Some? ==>
                first.value + |p| <= |s| && Starts(s, p, i) == [first.value] + Starts(s, p, first.value + |p|))
  {
  }

  // They are occurrences, in order and apart.
  lemma {:induction false} StartsAreApart(s: string, p: string, i: nat)
    requires i <= |s| && p != ""
    ensures var starts := Starts(s, p, i);
            && (forall k :: 0 <= k < |starts| ==> i <= starts[k] <= |s| && At(s, p, starts[k]))
            && (forall k, l :: 0 <= k < l < |starts| ==> starts[k] + |p| <= starts[l])
    decreases |s| - i
  {
    NextStart(s, p, i);
    FindsFirst(s, p, i);
    hide At, FindFrom, Starts;
    var first := FindFrom(s, p, i);
    if first.Some? { StartsAreApart(s, p, first.value + |p|); }
  }

  function Count(s: string, p: string): nat
    requires p != ""
  {
    |Starts(s, p, 0)|
  }

  // The text occurs at i, not before, and not after that occurrence ends. Occurrences
  // overlapping it are allowed: they are not counted.
  ghost predicate OnlyAt(s: string, p: string, i: nat) {
    && At(s, p, i)
    && (forall j :: 0 <= j < i ==> !At(s, p, j))
    && (forall j :: i + |p| <= j <= |s| ==> !At(s, p, j))
  }

  lemma NoneLeft(s: string, p: string, i: nat)
    requires i <= |s| && p != ""
    ensures Starts(s, p, i) == [] <==> forall j :: i <= j <= |s| ==> !At(s, p, j)
  {
    FindsFirst(s, p, i);
    NextStart(s, p, i);
    hide At, Starts, FindFrom;
  }

  // Counting once means exactly that.
  lemma CountsOnceIff(s: string, p: string)
    requires p != ""
    ensures Count(s, p) == 1 <==> exists i :: OnlyAt(s, p, i)
    ensures Count(s, p) == 1 ==> OnlyAt(s, p, Starts(s, p, 0)[0])
  {
    NextStart(s, p, 0);
    FindsFirst(s, p, 0);
    hide At, FindFrom, Starts;
    var first := FindFrom(s, p, 0);
    if first.Some? {
      NoneLeft(s, p, first.value + |p|);
      assert Count(s, p) == 1 <==> OnlyAt(s, p, first.value);
      forall i | OnlyAt(s, p, i) ensures i == first.value {}
    } else {
      NoneLeft(s, p, 0);
    }
  }

  // A text can occur twice and still count once.
  lemma {:induction false} OverlapsCountOnce()
    ensures Count("aaa", "aa") == 1 && At("aaa", "aa", 0) && At("aaa", "aa", 1)
  {
    var s := "aaa";
    assert s[0..] == "aaa" && s[1..] == "aa" && s[2..] == "a" && s[3..] == "";
    assert !At(s, "aa", 2) && !At(s, "aa", 3);
    assert OnlyAt(s, "aa", 0);
    CountsOnceIff(s, "aa");
  }

  // strings.Replace with a limit of one.
  function ReplaceFirst(s: string, p: string, q: string): string
    requires p != ""
  {
    var first := FindFrom(s, p, 0);
    if first.None? then s else s[..first.value] + q + s[first.value + |p|..]
  }

  lemma CutAt(s: string, p: string, i: nat)
    requires At(s, p, i)
    ensures i + |p| <= |s| && s == s[..i] + p + s[i + |p|..]
  {
    assert s == s[..i] + s[i..] && s[i..] == p + s[i..][|p|..];
  }

  lemma SameMiddle(a: string, p: string, q: string, c: string)
    requires a + q + c == a + p + c
    ensures p == q
  {
    assert |q| == |p|;
    assert (a + q + c)[|a|..|a| + |q|] == q && (a + p + c)[|a|..|a| + |p|] == p;
  }

  // A unique replacement keeps what surrounds the occurrence and changes the content.
  lemma ReplacementIsLocal(s: string, p: string, q: string)
    requires p != "" && Count(s, p) == 1
    ensures var i := Starts(s, p, 0)[0];
            && s == s[..i] + p + s[i + |p|..]
            && ReplaceFirst(s, p, q) == s[..i] + q + s[i + |p|..]
            && (ReplaceFirst(s, p, q) == s <==> p == q)
  {
    NextStart(s, p, 0);
    FindsFirst(s, p, 0);
    var i := Starts(s, p, 0)[0];
    CutAt(s, p, i);
    hide At, FindFrom, Starts;
    if ReplaceFirst(s, p, q) == s { SameMiddle(s[..i], p, q, s[i + |p|..]); }
  }

  function Newlines(s: string): nat {
    if s == "" then 0 else Newlines(s[..|s| - 1]) + if s[|s| - 1] == '\n' then 1 else 0
  }

  // The line a position is on, counted from one.
  function LineOf(s: string, i: nat): nat
    requires i <= |s|
  {
    1 + Newlines(s[..i])
  }

  // The lines of the first of these positions.
  ghost predicate LinesOf(content: string, starts: seq<nat>, lines: seq<nat>) {
    |lines| <= |starts| && forall k :: 0 <= k < |lines| ==>
        starts[k] <= |content| && lines[k] == LineOf(content, starts[k])
  }

  // The lines of the counted occurrences before the rest.
  ghost predicate Found(content: string, p: string, lines: seq<nat>, rest: seq<nat>)
    requires p != ""
  {
    var starts := Starts(content, p, 0);
    |starts| == |lines| + |rest| && starts[|lines|..] == rest && LinesOf(content, starts, lines)
  }

  lemma NothingFound(content: string, p: string)
    requires p != ""
    ensures Found(content, p, [], Starts(content, p, 0))
  {
    hide Starts;
  }

  lemma FoundOneMore(content: string, p: string, lines: seq<nat>, start: nat, rest: seq<nat>)
    requires p != "" && start <= |content| && Found(content, p, lines, [start] + rest)
    ensures Found(content, p, lines + [LineOf(content, start)], rest)
  {
    hide Starts, LineOf;
    var starts := Starts(content, p, 0);
    assert starts[|lines|] == starts[|lines|..][0] == start;
    assert starts[|lines| + 1..] == starts[|lines|..][1..] == rest;
  }

  lemma FoundAll(content: string, p: string, lines: seq<nat>, rest: seq<nat>)
    requires p != "" && Found(content, p, lines, rest)
    ensures LinesOf(content, Starts(content, p, 0), lines) && |Starts(content, p, 0)| == |lines| + |rest|
  {
  }

  // The lines on which the first counted occurrences start.
  method ExactMatchLines(content: string, p: string, maximum: int) returns (lines: seq<nat>)
    ensures p == "" || maximum <= 0 ==> lines == []
    ensures p != "" && maximum > 0 ==>
              LinesOf(content, Starts(content, p, 0), lines) && |lines| == if Count(content, p) < maximum
                  then Count(content, p) else maximum
  {
    lines := [];
    if p == "" || maximum <= 0 { return; }
    hide LineOf, LinesOf, At, Starts, FindFrom, Newlines, Found;
    NothingFound(content, p);
    ghost var rest := Starts(content, p, 0);
    var offset := 0;
    while |lines| < maximum
      invariant 0 <= offset <= |content| && |lines| <= maximum
      invariant rest == Starts(content, p, offset) && Found(content, p, lines, rest)
      decreases maximum - |lines|
    {
      NextStart(content, p, offset);
      var index := FindFrom(content, p, offset);
      if index.None? { break; }
      offset := index.value + |p|;
      FoundOneMore(content, p, lines, index.value, Starts(content, p, offset));
      lines := lines + [LineOf(content, index.value)];
      rest := Starts(content, p, offset);
    }
    FoundAll(content, p, lines, rest);
  }
}

module Materialize {
  import opened Wrappers
  import opened GreedyMatch
  import ChangeDiff
  import Order
  import Text

  datatype File = File(path: string, content: string)

  datatype Edit = Edit(operation: string, path: string, find: string, replacement: string)

  datatype Proposal = Proposal(analysis: string, edits: seq<Edit>, checks: seq<string>, risks: seq<string>,
                               rollback: string,
                               clarifications: seq<string>)

  // Path rules, creatable places and gofmt belong to the host.
  datatype Host = Host(normalize: string -> Option<string>, creatable: string -> bool, isGo: string -> bool,
                       format: string -> Option<string>)

  const MAXIMUM_EDITS := 32
  const MAXIMUM_LIST_ITEMS := 16
  const MAXIMUM_FILE_BYTES := 64 * 1024
  const MAXIMUM_TOTAL_BYTES := 256 * 1024

  datatype Problem = BadProposal | BadPath | CreateWithOld | CreateEmpty | AlreadyExists | NotCreatable | BadContent
                   | BadOperation | NotInSnapshot | EmptyFind | NotUnique(matches: nat) | NothingChanged | FormatFailed
                   | TooLarge | NoFinalChange

  type Files = map<string, string>

  // ------------------------------------------------------- The proposal

  predicate NoBlank(values: seq<string>) {
    forall i :: 0 <= i < |values| ==> Text.TrimSpace(values[i]) != ""
  }

  predicate ProposalOk(p: Proposal) {
    && Text.TrimSpace(p.analysis) != ""
    && |p.edits| <= MAXIMUM_EDITS && |p.checks| <= MAXIMUM_LIST_ITEMS && |p.risks| <= MAXIMUM_LIST_ITEMS
    && |p.clarifications| <= MAXIMUM_LIST_ITEMS
    && (if p.edits == [] then p.clarifications != [] && NoBlank(p.clarifications)
        else p.clarifications == [] && Text.TrimSpace(p.rollback) != "" && NoBlank(p.checks) && NoBlank(p.risks))
  }

  predicate ContentOk(content: string) {
    Text.StringBytes(content) <= MAXIMUM_FILE_BYTES && '\0' !in content
  }

  // ------------------------------------------------------- One edit

  datatype Workspace = Workspace(files: Files, created: set<string>, changed: set<string>)

  function OperationOf(e: Edit): string {
    var operation := Text.TrimSpace(e.operation);
    if operation == "" then "replace" else operation
  }

  function ApplyEdit(h: Host, original: Files, w: Workspace, e: Edit): Result<Workspace, Problem> {
    var normalized := h.normalize(e.path);
    if normalized.None? then Err(BadPath)
    else
      var path := normalized.value;
      var operation := OperationOf(e);
      if operation == "create" then
        if e.find != "" then Err(CreateWithOld)
        else if e.replacement == "" then Err(CreateEmpty)
        else if path in original || path in w.created then Err(AlreadyExists)
        else if !h.creatable(path) then Err(NotCreatable)
        else if !ContentOk(e.replacement) then Err(BadContent)
        else Ok(Workspace(w.files[path := e.replacement], w.created + {path}, w.changed + {path}))
      else if operation != "replace" then Err(BadOperation)
      else if path !in original || path !in w.files then Err(NotInSnapshot)
      else if e.find == "" then Err(EmptyFind)
      else if e.find == e.replacement then Ok(w)
      else if Count(w.files[path], e.find) != 1 then Err(NotUnique(Count(w.files[path], e.find)))
      else if !ContentOk(ReplaceFirst(w.files[path], e.find, e.replacement)) then Err(BadContent)
      else Ok(w.(files := w.files[path := ReplaceFirst(w.files[path], e.find, e.replacement)],
                 changed := w.changed + {path}))
  }

  function ApplyEdits(h: Host, original: Files, edits: seq<Edit>): Result<Workspace, Problem> {
    if edits == [] then Ok(Workspace(original, {}, {}))
    else
      var before := ApplyEdits(h, original, edits[..|edits| - 1]);
      if before.Err? then before else ApplyEdit(h, original, before.value, edits[|edits| - 1])
  }

  // ------------------------------------------------------- The reference

  // An edit that does something to this path.
  predicate Touches(h: Host, e: Edit, path: string) {
    h.normalize(e.path) == Some(path) && (OperationOf(e) == "create" || e.find != e.replacement)
  }

  ghost predicate Touched(h: Host, edits: seq<Edit>, path: string) {
    exists i :: 0 <= i < |edits| && Touches(h, edits[i], path)
  }

  // One path on its own: its creation, then its replacements in order.
  function PathContent(h: Host, original: Files, edits: seq<Edit>, path: string): Option<string> {
    if edits == [] then if path in original then Some(original[path]) else None
    else
      var e := edits[|edits| - 1];
      var before := PathContent(h, original, edits[..|edits| - 1], path);
      if !Touches(h, e, path) then before
      else if OperationOf(e) == "create" then Some(e.replacement)
      else if before.None? || e.find == "" then before
      else Some(ReplaceFirst(before.value, e.find, e.replacement))
  }

  ghost predicate WorkspaceOk(h: Host, original: Files, edits: seq<Edit>, w: Workspace) {
    && w.created <= w.changed && w.created * original.Keys == {}
    && w.files.Keys == original.Keys + w.created
    && (forall path :: path in w.changed ==> path in w.files && ContentOk(w.files[path]))
    && (forall path :: path in w.changed <==> Touched(h, edits, path))
    && (forall path :: PathContent(h, original, edits, path) == if path in w.files then Some(w.files[path]) else None)
    && (forall path :: path in original && path !in w.changed ==> w.files[path] == original[path])
  }

  lemma TouchedGrows(h: Host, edits: seq<Edit>, e: Edit, path: string)
    ensures Touched(h, edits + [e], path) <==> Touched(h, edits, path) || Touches(h, e, path)
  {
    hide Touches;
    if i :| 0 <= i < |edits| && Touches(h, edits[i], path) { assert Touches(h, (edits + [e])[i], path); }
    if Touches(h, e, path) { assert Touches(h, (edits + [e])[|edits|], path); }
  }

  // What an accepted edit writes.
  predicate Writes(h: Host, original: Files, w: Workspace, e: Edit, path: string, content: string) {
    && h.normalize(e.path) == Some(path) && ContentOk(content)
    && (if OperationOf(e) == "create" then path !in original && path !in w.created && content == e.replacement
        else path in original && path in w.files && e.find != "" && e.find != e.replacement
             && content == ReplaceFirst(w.files[path], e.find, e.replacement))
  }

  lemma AcceptedEdit(h: Host, original: Files, w: Workspace, e: Edit)
    returns (path: string, content: string, noOp: bool)
    requires ApplyEdit(h, original, w, e).Ok?
    ensures noOp ==> ApplyEdit(h, original, w, e) == Ok(w) && forall p :: !Touches(h, e, p)
    ensures !noOp ==> Writes(h, original, w, e, path, content)
    ensures !noOp ==>
              ApplyEdit(h, original, w, e).value ==
              Workspace(w.files[path := content], if OperationOf(e) == "create" then w.created + {path} else w.created,
                        w.changed + {path})
  {
    hide ContentOk, ReplaceFirst, Count, OperationOf;
    path := h.normalize(e.path).value;
    noOp := OperationOf(e) != "create" && e.find == e.replacement;
    content := if noOp then "" else if OperationOf(e) == "create" then e.replacement
        else ReplaceFirst(w.files[path], e.find, e.replacement);
  }

  lemma PathStep(h: Host, original: Files, edits: seq<Edit>, e: Edit, path: string)
    ensures PathContent(h, original, edits + [e], path) ==
              var before := PathContent(h, original, edits, path);
              if !Touches(h, e, path) then before
              else if OperationOf(e) == "create" then Some(e.replacement)
              else if before.None? || e.find == "" then before
              else Some(ReplaceFirst(before.value, e.find, e.replacement))
  {
    assert (edits + [e])[..|edits|] == edits;
  }

  lemma EditKeepsPaths(h: Host, original: Files, edits: seq<Edit>, e: Edit, w: Workspace, w': Workspace, path: string)
    requires WorkspaceOk(h, original, edits, w) && ApplyEdit(h, original, w, e) == Ok(w')
    ensures PathContent(h, original, edits + [e], path) == if path in w'.files then Some(w'.files[path]) else None
    ensures path in w'.changed <==> Touched(h, edits + [e], path)
  {
    hide ContentOk, ReplaceFirst, OperationOf, PathContent, ApplyEdit;
    var target, content, noOp := AcceptedEdit(h, original, w, e);
    TouchedGrows(h, edits, e, path);
    PathStep(h, original, edits, e, path);
    assert PathContent(h, original, edits, path) == if path in w.files then Some(w.files[path]) else None;
  }

  lemma KeepsRest(h: Host, original: Files, w: Workspace, e: Edit, path: string, content: string, noOp: bool,
                  w': Workspace)
    requires w.created <= w.changed && w.created * original.Keys == {} && w.files.Keys == original.Keys + w.created
    requires forall p :: p in w.changed ==> p in w.files && ContentOk(w.files[p])
    requires forall p :: p in original && p !in w.changed ==> w.files[p] == original[p]
    requires if noOp then w' == w
             else Writes(h, original, w, e, path, content) &&
                  w' == Workspace(w.files[path := content],
                                  if OperationOf(e) == "create" then w.created + {path}
                                  else w.created, w.changed + {path})
    ensures w'.created <= w'.changed && w'.created * original.Keys == {} && w'.files.Keys == original.Keys + w'.created
    ensures forall p :: p in w'.changed ==> p in w'.files && ContentOk(w'.files[p])
    ensures forall p :: p in original && p !in w'.changed ==> w'.files[p] == original[p]
  {
    hide ContentOk, ReplaceFirst, OperationOf;
  }

  lemma EditKeepsWorkspace(h: Host, original: Files, edits: seq<Edit>, e: Edit, w: Workspace)
    requires WorkspaceOk(h, original, edits, w) && ApplyEdit(h, original, w, e).Ok?
    ensures WorkspaceOk(h, original, edits + [e], ApplyEdit(h, original, w, e).value)
  {
    hide ContentOk, ReplaceFirst, OperationOf, PathContent, Touches;
    var w' := ApplyEdit(h, original, w, e).value;
    forall path
      ensures PathContent(h, original, edits + [e], path) == if path in w'.files then Some(w'.files[path]) else None
      ensures path in w'.changed <==> Touched(h, edits + [e], path)
    {
      EditKeepsPaths(h, original, edits, e, w, w', path);
    }
    hide ApplyEdit;
    var target, content, noOp := AcceptedEdit(h, original, w, e);
    KeepsRest(h, original, w, e, target, content, noOp, w');
  }

  lemma NothingEdited(h: Host, original: Files)
    ensures WorkspaceOk(h, original, [], Workspace(original, {}, {}))
  {
    hide ContentOk, Touches;
    assert forall path :: PathContent(h, original, [], path) == if path in original then Some(original[path]) else None;
  }

  // The fold over the whole workspace does to each path what that path's own edits do.
  lemma {:induction false} FoldIsPathwise(h: Host, original: Files, edits: seq<Edit>)
    requires ApplyEdits(h, original, edits).Ok?
    ensures WorkspaceOk(h, original, edits, ApplyEdits(h, original, edits).value)
  {
    hide WorkspaceOk, ApplyEdit;
    if edits == [] {
      NothingEdited(h, original);
    } else {
      var n := |edits| - 1;
      FoldIsPathwise(h, original, edits[..n]);
      EditKeepsWorkspace(h, original, edits[..n], edits[n], ApplyEdits(h, original, edits[..n]).value);
      assert edits[..n] + [edits[n]] == edits;
    }
  }

  // ------------------------------------------------------- What is accepted

  predicate Creates(e: Edit) {
    Text.TrimSpace(e.operation) == "create"
  }

  predicate Replaces(e: Edit) {
    Text.TrimSpace(e.operation) == "" || Text.TrimSpace(e.operation) == "replace"
  }

  // The text is at this one place, and the content with it replaced may be written.
  ghost predicate ReplacesAt(content: string, e: Edit, i: nat) {
    OnlyAt(content, e.find, i) && i + |e.find| <= |content|
    && ContentOk(content[..i] + e.replacement + content[i + |e.find|..])
  }

  // The file as the edits before this one leave it.
  function Before(h: Host, original: Files, edits: seq<Edit>, k: nat, path: string): Option<string>
    requires k < |edits|
  {
    PathContent(h, original, edits[..k], path)
  }

  // A creation is of new content where there is no file yet; a replacement changes nothing
  // or the one place in a file of the snapshot where its text is.
  ghost predicate EditOk(h: Host, original: Files, edits: seq<Edit>, k: nat)
    requires k < |edits|
  {
    var e := edits[k];
    && h.normalize(e.path).Some?
    && var path := h.normalize(e.path).value;
       var before := Before(h, original, edits, k, path);
       if Creates(e)
       then e.find == "" && e.replacement != "" && before.None? && h.creatable(path) && ContentOk(e.replacement)
       else
         && Replaces(e) && path in original && e.find != ""
         && (e.find == e.replacement || (before.Some? && exists i :: ReplacesAt(before.value, e, i)))
  }

  // Why an edit is refused.
  ghost predicate EditRefused(h: Host, original: Files, edits: seq<Edit>, k: nat, problem: Problem)
    requires k < |edits|
  {
    var e := edits[k];
    if h.normalize(e.path).None? then problem == BadPath
    else
      var path := h.normalize(e.path).value;
      var before := Before(h, original, edits, k, path);
      match problem
      case CreateWithOld => Creates(e) && e.find != ""
      case CreateEmpty => Creates(e) && e.replacement == ""
      case AlreadyExists => Creates(e) && before.Some?
      case NotCreatable => Creates(e) && !h.creatable(path)
      case BadOperation => !Creates(e) && !Replaces(e)
      case NotInSnapshot => Replaces(e) && path !in original
      case EmptyFind => Replaces(e) && e.find == ""
      case NotUnique(matches) =>
        && Replaces(e) && e.find != "" && before.Some? && matches == Count(before.value, e.find) != 1
        && forall i :: !OnlyAt(before.value, e.find, i)
      case BadContent =>
        if Creates(e) then !ContentOk(e.replacement)
        else Replaces(e) && before.Some? && exists i ::
            OnlyAt(before.value, e.find, i) && !ReplacesAt(before.value, e, i)
      case _ => false
  }

  ghost predicate AllAccepted(h: Host, original: Files, edits: seq<Edit>) {
    forall k :: 0 <= k < |edits| ==> EditOk(h, original, edits, k)
  }

  // The first edit that is not accepted is refused for this.
  ghost predicate FirstRefused(h: Host, original: Files, edits: seq<Edit>, problem: Problem) {
    exists k :: 0 <= k < |edits| && (forall j :: 0 <= j < k ==> EditOk(h, original, edits, j))
                && !EditOk(h, original, edits, k) && EditRefused(h, original, edits, k, problem)
  }

  lemma OnePlace(content: string, e: Edit)
    requires e.find != ""
    ensures Count(content, e.find) == 1 && ContentOk(ReplaceFirst(content, e.find, e.replacement)) <==>
              exists i :: ReplacesAt(content, e, i)
    ensures Count(content, e.find) != 1 <==> forall i :: !OnlyAt(content, e.find, i)
    ensures Count(content, e.find) == 1 && !ContentOk(ReplaceFirst(content, e.find, e.replacement)) ==>
              exists i :: OnlyAt(content, e.find, i) && !ReplacesAt(content, e, i)
  {
    CountsOnceIff(content, e.find);
    if Count(content, e.find) == 1 {
      ReplacementIsLocal(content, e.find, e.replacement);
      var i := Starts(content, e.find, 0)[0];
      CutAt(content, e.find, i);
      forall j | OnlyAt(content, e.find, j) ensures j == i {}
      hide ContentOk, ReplaceFirst, Count, Starts, OnlyAt;
      assert ReplacesAt(content, e, i) <==> ContentOk(ReplaceFirst(content, e.find, e.replacement));
    }
  }

  lemma KeysOf(h: Host, original: Files, edits: seq<Edit>, w: Workspace)
    requires WorkspaceOk(h, original, edits, w)
    ensures w.created <= w.changed && w.created !! original.Keys && w.files.Keys == original.Keys + w.created
    ensures forall path :: path in original && path !in w.changed ==> w.files[path] == original[path]
    ensures w.changed <= w.files.Keys
  {
    hide Touches, PathContent, ContentOk;
    forall path | path in w.created ensures path !in original { assert path !in w.created * original.Keys; }
  }

  lemma Operations(e: Edit)
    ensures OperationOf(e) == "create" <==> Creates(e)
    ensures OperationOf(e) == "replace" <==> Replaces(e)
    ensures !(Creates(e) && Replaces(e))
  {
    hide Text.TrimSpace;
  }

  lemma CreateAcceptedIff(h: Host, original: Files, edits: seq<Edit>, k: nat, w: Workspace, path: string)
    requires k < |edits| && h.normalize(edits[k].path) == Some(path) && Creates(edits[k])
    requires Before(h, original, edits, k, path).Some? <==> path in original || path in w.created
    ensures ApplyEdit(h, original, w, edits[k]).Ok? <==> EditOk(h, original, edits, k)
    ensures ApplyEdit(h, original, w, edits[k]).Err? ==>
              EditRefused(h, original, edits, k, ApplyEdit(h, original, w, edits[k]).error)
  {
    hide ContentOk, Before, ReplaceFirst, Count, ReplacesAt, Creates, Replaces, OperationOf;
    Operations(edits[k]);
  }

  lemma ReplaceAcceptedIff(h: Host, original: Files, edits: seq<Edit>, k: nat, w: Workspace, path: string)
    requires k < |edits| && h.normalize(edits[k].path) == Some(path) && !Creates(edits[k])
    requires path in original ==> path in w.files && Before(h, original, edits, k, path) == Some(w.files[path])
    ensures ApplyEdit(h, original, w, edits[k]).Ok? <==> EditOk(h, original, edits, k)
    ensures ApplyEdit(h, original, w, edits[k]).Err? ==>
              EditRefused(h, original, edits, k, ApplyEdit(h, original, w, edits[k]).error)
  {
    hide ContentOk, Before, ReplaceFirst, Count, ReplacesAt, OnlyAt, Creates, Replaces, OperationOf;
    var e := edits[k];
    Operations(e);
    if path in original && e.find != "" { OnePlace(w.files[path], e); }
  }

  lemma Seen(h: Host, original: Files, edits: seq<Edit>, k: nat, w: Workspace, path: string)
    requires k < |edits| && WorkspaceOk(h, original, edits[..k], w)
    ensures Before(h, original, edits, k, path) == if path in w.files then Some(w.files[path]) else None
  {
    hide PathContent, ContentOk, Touched;
  }

  lemma EditAcceptedIff(h: Host, original: Files, edits: seq<Edit>, k: nat, w: Workspace)
    requires k < |edits| && WorkspaceOk(h, original, edits[..k], w)
    ensures ApplyEdit(h, original, w, edits[k]).Ok? <==> EditOk(h, original, edits, k)
    ensures ApplyEdit(h, original, w, edits[k]).Err? ==>
              EditRefused(h, original, edits, k, ApplyEdit(h, original, w, edits[k]).error)
  {
    var e := edits[k];
    if h.normalize(e.path).Some? {
      var path := h.normalize(e.path).value;
      KeysOf(h, original, edits[..k], w);
      Seen(h, original, edits, k, w, path);
      hide ApplyEdit, EditOk, EditRefused, WorkspaceOk, Before, Creates;
      if Creates(e) {
        CreateAcceptedIff(h, original, edits, k, w, path);
      } else {
        ReplaceAcceptedIff(h, original, edits, k, w, path);
      }
    }
  }

  lemma SameSoFar(h: Host, original: Files, edits: seq<Edit>, n: nat, k: nat, problem: Problem)
    requires k < n <= |edits|
    ensures EditOk(h, original, edits[..n], k) <==> EditOk(h, original, edits, k)
    ensures EditRefused(h, original, edits[..n], k, problem) <==> EditRefused(h, original, edits, k, problem)
  {
    assert edits[..n][..k] == edits[..k] && edits[..n][k] == edits[k];
    forall path: string ensures Before(h, original, edits[..n], k, path) == Before(h, original, edits, k, path) {}
    hide Before, OnlyAt, ReplacesAt, Count, ContentOk, Creates, Replaces;
  }

  // The fold succeeds iff every edit meets its condition, and else has the first one's problem.
  lemma {:induction false} AcceptedIff(h: Host, original: Files, edits: seq<Edit>)
    ensures ApplyEdits(h, original, edits).Ok? <==> AllAccepted(h, original, edits)
    ensures ApplyEdits(h, original, edits).Err? ==>
              FirstRefused(h, original, edits, ApplyEdits(h, original, edits).error)
  {
    hide ApplyEdit, EditOk, EditRefused;
    if edits != [] {
      var n := |edits| - 1;
      AcceptedIff(h, original, edits[..n]);
      var so := ApplyEdits(h, original, edits[..n]);
      var problem := if so.Err? then so.error else BadProposal;
      forall k | 0 <= k < n
        ensures EditOk(h, original, edits[..n], k) <==> EditOk(h, original, edits, k)
        ensures EditRefused(h, original, edits[..n], k, problem) <==> EditRefused(h, original, edits, k, problem)
      {
        SameSoFar(h, original, edits, n, k, problem);
      }
      if ApplyEdits(h, original, edits[..n]).Ok? {
        FoldIsPathwise(h, original, edits[..n]);
        EditAcceptedIff(h, original, edits, n, ApplyEdits(h, original, edits[..n]).value);
      } else {
        var k :| 0 <= k < n && (forall j :: 0 <= j < k ==> EditOk(h, original, edits[..n], j))
                 && !EditOk(h, original, edits[..n], k) && EditRefused(h, original, edits[..n], k, problem);
        assert !EditOk(h, original, edits, k) && EditRefused(h, original, edits, k, problem);
      }
    }
  }

  // ------------------------------------------------------- The whole materialization

  datatype Output = Clarify | Output(changedFiles: seq<string>, createdFiles: seq<string>, originalFiles: Files,
                                     updatedFiles: Files, diff: string)

  function OriginalOf(files: seq<File>): Files {
    if files == [] then map[]
    else OriginalOf(files[..|files| - 1])[files[|files| - 1].path := files[|files| - 1].content]
  }

  predicate IsLast(files: seq<File>, path: string, i: nat) {
    i < |files| && files[i].path == path && forall j :: i < j < |files| ==> files[j].path != path
  }

  // A file listed twice counts as it was listed last.
  lemma {:induction false} LastOf(files: seq<File>, path: string) returns (i: nat)
    requires path in OriginalOf(files)
    ensures IsLast(files, path, i) && OriginalOf(files)[path] == files[i].content
  {
    var n := |files| - 1;
    if files[n].path == path { i := n; } else { i := LastOf(files[..n], path); }
  }

  method LoadSnapshot(files: seq<File>) returns (original: Files)
    ensures original == OriginalOf(files) && forall i :: 0 <= i < |files| ==> files[i].path in original
    ensures forall path :: path in original ==>
              exists i: nat :: IsLast(files, path, i) && original[path] == files[i].content
  {
    original := map[];
    for i := 0 to |files|
      invariant original == OriginalOf(files[..i]) && forall k :: 0 <= k < i ==> files[k].path in original
    {
      assert files[..i + 1][..i] == files[..i];
      original := original[files[i].path := files[i].content];
    }
    assert files[..|files|] == files;
    forall path | path in original
      ensures exists i: nat :: IsLast(files, path, i) && original[path] == files[i].content {
      var i := LastOf(files, path);
    }
  }

  lemma {:induction false} RefusedEdits(h: Host, original: Files, edits: seq<Edit>, n: nat)
    requires n <= |edits| && ApplyEdits(h, original, edits[..n]).Err?
    ensures ApplyEdits(h, original, edits) == ApplyEdits(h, original, edits[..n])
  {
    hide ApplyEdit;
    if n < |edits| {
      assert edits[..|edits| - 1][..n] == edits[..n];
      RefusedEdits(h, original, edits[..|edits| - 1], n);
    } else {
      assert edits[..n] == edits;
    }
  }

  method RunEdits(h: Host, original: Files, edits: seq<Edit>) returns (r: Result<Workspace, Problem>)
    ensures r == ApplyEdits(h, original, edits)
  {
    hide ApplyEdit;
    r := Ok(Workspace(original, {}, {}));
    for index := 0 to |edits|
      invariant r == ApplyEdits(h, original, edits[..index]) && r.Ok?
    {
      assert edits[..index + 1][..index] == edits[..index];
      r := ApplyEdit(h, original, r.value, edits[index]);
      if r.Err? {
        RefusedEdits(h, original, edits, index + 1);
        return;
      }
    }
    assert edits[..|edits|] == edits;
  }

  // What ends up in a changed file.
  function FinalContent(h: Host, path: string, content: string): Option<string> {
    if h.isGo(path) then h.format(content) else Some(content)
  }

  method FormatChanged(h: Host, files: Files, paths: seq<string>) returns (r: Result<Files, Problem>)
    requires (forall path :: path in paths ==> path in files) && Order.Sorted(paths)
    ensures r.Ok? <==> forall path :: path in paths ==> FinalContent(h, path, files[path]).Some?
    ensures r.Err? ==> r.error == FormatFailed
    ensures r.Ok? ==> r.value.Keys == files.Keys && forall path :: path in files ==>
              Some(r.value[path]) == if path in paths then FinalContent(h, path, files[path]) else Some(files[path])
  {
    Order.SortedDistinct(paths);
    hide Order.Sorted;
    var formatted := files;
    for i := 0 to |paths|
      invariant formatted.Keys == files.Keys
      invariant forall k :: 0 <= k < i ==> FinalContent(h, paths[k], files[paths[k]]).Some?
      invariant forall path :: path in files ==>
        Some(formatted[path]) == if path in paths[..i] then FinalContent(h, path, files[path]) else Some(files[path])
    {
      var path := paths[i];
      assert path in paths && path !in paths[..i];
      assert paths[..i + 1] == paths[..i] + [path];
      if !h.isGo(path) { continue; }
      var content := h.format(formatted[path]);
      if content.None? { return Err(FormatFailed); }
      if content.value == formatted[path] { continue; }
      formatted := formatted[path := content.value];
    }
    assert paths[..|paths|] == paths;
    r := Ok(formatted);
  }

  function SnapshotBytes(files: seq<File>, final: Files): nat
    requires forall i :: 0 <= i < |files| ==> files[i].path in final
  {
    if files == [] then 0 else SnapshotBytes(files[..|files| - 1],
                                             final) + Text.StringBytes(final[files[|files| - 1].path])
  }

  ghost function CreatedBytes(created: set<string>, final: Files): nat
    requires created <= final.Keys
  {
    if created == {} then 0
    else var path :| path in created; Text.StringBytes(final[path]) + CreatedBytes(created - {path}, final)
  }

  // The order in which created files are added up does not matter.
  lemma {:induction false} CreatedTakesAny(created: set<string>, final: Files, path: string)
    requires created <= final.Keys && path in created
    ensures CreatedBytes(created, final) == Text.StringBytes(final[path]) + CreatedBytes(created - {path}, final)
    decreases created
  {
    hide Text.StringBytes;
    var first :| first in created && CreatedBytes(created, final) ==
        Text.StringBytes(final[first]) + CreatedBytes(created - {first}, final);
    if first != path {
      CreatedTakesAny(created - {first}, final, path);
      CreatedTakesAny(created - {path}, final, first);
      assert created - {first} - {path} == created - {path} - {first};
    }
  }

  method TotalBytes(files: seq<File>, created: set<string>, final: Files) returns (total: nat)
    requires created <= final.Keys && forall i :: 0 <= i < |files| ==> files[i].path in final
    ensures total == SnapshotBytes(files, final) + CreatedBytes(created, final)
  {
    hide Text.StringBytes;
    total := 0;
    for i := 0 to |files|
      invariant total == SnapshotBytes(files[..i], final)
    {
      assert files[..i + 1][..i] == files[..i];
      total := total + Text.StringBytes(final[files[i].path]);
    }
    assert files[..|files|] == files;
    var todo := created;
    while todo != {}
      invariant todo <= created && total + CreatedBytes(todo, final) ==
                  SnapshotBytes(files, final) + CreatedBytes(created, final)
      decreases todo
    {
      var path :| path in todo;
      CreatedTakesAny(todo, final, path);
      todo := todo - {path};
      total := total + Text.StringBytes(final[path]);
    }
  }

  function DiffAt(o: Output, path: string): ChangeDiff.FileDiff
    requires o.Output?
  {
    ChangeDiff.FileDiffOf(path, if path in o.originalFiles then o.originalFiles[path] else "",
                          if path in o.updatedFiles then o.updatedFiles[path] else "", path !in o.originalFiles)
  }

  // The changes of an output, in the order of its paths.
  function DiffsOf(o: Output): (ds: seq<ChangeDiff.FileDiff>)
    requires o.Output?
    ensures |ds| == |o.changedFiles|
    ensures forall k :: 0 <= k < |ds| ==> ds[k] == DiffAt(o, o.changedFiles[k])
  {
    seq(|o.changedFiles|, k requires 0 <= k < |o.changedFiles| => DiffAt(o, o.changedFiles[k]))
  }

  // The diff shown is that of the changes.
  predicate DiffIsShown(o: Output)
    requires o.Output?
  {
    o.diff == ChangeDiff.ShownDiff(DiffsOf(o))
  }

  // The change of a path from the workspace's own maps.
  function DiffFrom(path: string, created: set<string>, original: Files, final: Files): ChangeDiff.FileDiff {
    ChangeDiff.FileDiffOf(path, if path in original && path !in created then original[path] else "",
                          if path in final then final[path] else "", path in created)
  }

  lemma CreatedHasNoBefore(path: string, created: set<string>, original: Files, final: Files)
    requires path in final
    ensures ChangeDiff.FileDiffOf(path, if path in original then original[path] else "", final[path],
                                  path in created) == DiffFrom(path, created, original, final)
  {
    hide ChangeDiff.DiffHunk;
  }

  lemma SameDiff(o: Output, path: string, created: set<string>, original: Files, final: Files)
    requires o.Output? && path in final && path in o.updatedFiles && o.updatedFiles[path] == final[path]
    requires path in o.originalFiles <==> path !in created
    requires path in o.originalFiles ==> path in original && o.originalFiles[path] == original[path]
    ensures DiffAt(o, path) == DiffFrom(path, created, original, final)
  {
    hide ChangeDiff.FileDiffOf;
  }

  function DiffsFrom(paths: seq<string>, created: set<string>, original: Files, final: Files)
    : (ds: seq<ChangeDiff.FileDiff>)
    ensures |ds| == |paths| && forall k :: 0 <= k < |ds| ==> ds[k] == DiffFrom(paths[k], created, original, final)
  {
    seq(|paths|, k requires 0 <= k < |paths| => DiffFrom(paths[k], created, original, final))
  }

  // The patch of the workspace's changes to these paths.
  function PatchFrom(paths: seq<string>, created: set<string>, original: Files, final: Files): string {
    ChangeDiff.RenderPatch(DiffsFrom(paths, created, original, final))
  }

  lemma NoPatch(created: set<string>, original: Files, final: Files)
    ensures PatchFrom([], created, original, final) == ""
  {
  }

  lemma PatchGrows(paths: seq<string>, path: string, created: set<string>, original: Files, final: Files)
    ensures PatchFrom(paths + [path], created, original, final) ==
              PatchFrom(paths, created, original, final)
              + ChangeDiff.RenderFile(DiffFrom(path, created, original, final))
  {
    hide DiffFrom, ChangeDiff.RenderPatch, ChangeDiff.RenderFile;
    assert DiffsFrom(paths + [path], created, original, final) ==
           DiffsFrom(paths, created, original, final) + [DiffFrom(path, created, original, final)];
    ChangeDiff.RenderPatchAppend(DiffsFrom(paths, created, original, final), DiffFrom(path, created, original, final));
  }

  method ShowChange(path: string, created: set<string>, original: Files, final: Files) returns (file: string)
    requires path in final
    ensures file == ChangeDiff.RenderFile(DiffFrom(path, created, original, final))
  {
    hide ChangeDiff.RenderFile, ChangeDiff.FileDiffOf, DiffFrom;
    var before := if path in original then original[path] else "";
    file := ChangeDiff.BuildHostUnifiedDiffForOperation(path, before, final[path], path in created);
    CreatedHasNoBefore(path, created, original, final);
  }

  // Shows the change of each path, refusing a file that ends up as it was.
  method ShowChanges(paths: seq<string>, created: set<string>, original: Files, final: Files)
    returns (r: Result<string, Problem>)
    requires forall path :: path in paths ==> path in final && (path in created || path in original)
    ensures r.Ok? <==> forall path :: path in paths && path !in created ==> final[path] != original[path]
    ensures r.Err? ==> r.error == NoFinalChange
    ensures r.Ok? ==> r.value == ChangeDiff.WithoutLastNewline(PatchFrom(paths, created, original, final))
  {
    hide PatchFrom, ChangeDiff.RenderFile, DiffFrom, ChangeDiff.WithoutLastNewline;
    var diff := "";
    NoPatch(created, original, final);
    for i := 0 to |paths|
      invariant forall path :: path in paths[..i] && path !in created ==> final[path] != original[path]
      invariant diff == PatchFrom(paths[..i], created, original, final)
    {
      var path := paths[i];
      assert path in paths;
      assert paths[..i + 1] == paths[..i] + [path];
      if path !in created && final[path] == original[path] { return Err(NoFinalChange); }
      var file := ShowChange(path, created, original, final);
      PatchGrows(paths[..i], path, created, original, final);
      diff := diff + file;
    }
    assert paths[..|paths|] == paths;
    r := Ok(ChangeDiff.WithoutLastNewline(diff));
  }

  // Splits the changed files into original and updated contents.
  method Collect(paths: seq<string>, created: set<string>, original: Files, final: Files, diff: string)
    returns (o: Output)
    requires Order.Sorted(paths) && forall path :: path in paths ==>
               path in final && (path in created || path in original)
    ensures o.Output? && o.changedFiles == paths && o.diff == diff
    ensures forall path :: path in o.updatedFiles <==> path in paths
    ensures forall path :: path in paths ==> o.updatedFiles[path] == final[path]
    ensures forall path :: path in o.originalFiles <==> path in paths && path !in created
    ensures forall path :: path in o.originalFiles ==> o.originalFiles[path] == original[path]
    ensures Order.Sorted(o.createdFiles) && (forall path :: path in o.createdFiles <==> path in created)
  {
    hide Order.Sorted;
    var createdFiles := Order.SortedKeys(created);
    var originalFiles: Files, updatedFiles: Files := map[], map[];
    for i := 0 to |paths|
      invariant forall path :: path in updatedFiles <==> path in paths[..i]
      invariant forall path :: path in updatedFiles ==> updatedFiles[path] == final[path]
      invariant forall path :: path in originalFiles <==> path in paths[..i] && path !in created
      invariant forall path :: path in originalFiles ==> originalFiles[path] == original[path]
    {
      var path := paths[i];
      assert path in paths;
      assert paths[..i + 1] == paths[..i] + [path];
      if path !in created { originalFiles := originalFiles[path := original[path]]; }
      updatedFiles := updatedFiles[path := final[path]];
    }
    assert paths[..|paths|] == paths;
    o := Output(paths, createdFiles, originalFiles, updatedFiles, diff);
  }

  // An output's changes are those of the workspace's maps it was collected from.
  lemma CollectedDiffs(o: Output, paths: seq<string>, created: set<string>, original: Files, final: Files)
    requires o.Output? && o.changedFiles == paths
    requires forall path :: path in paths ==> path in final && (path in created || path in original)
    requires forall path :: path in paths ==> path in o.updatedFiles && o.updatedFiles[path] == final[path]
    requires forall path :: path in o.originalFiles <==> path in paths && path !in created
    requires forall path :: path in o.originalFiles ==> o.originalFiles[path] == original[path]
    ensures ChangeDiff.ShownDiff(DiffsOf(o)) ==
              ChangeDiff.WithoutLastNewline(PatchFrom(paths, created, original, final))
  {
    hide DiffAt, DiffFrom, ChangeDiff.RenderPatch, ChangeDiff.WithoutLastNewline;
    forall k | 0 <= k < |paths| ensures DiffsOf(o)[k] == DiffFrom(paths[k], created, original, final) {
      SameDiff(o, paths[k], created, original, final);
    }
    assert DiffsOf(o) == DiffsFrom(paths, created, original, final);
  }

  function PathSet(paths: seq<string>): set<string> {
    set path | path in paths
  }

  // A changed file holds what its own edits make of it, formatted; one that existed differs.
  predicate UpdatedOk(h: Host, original: Files, edits: seq<Edit>, o: Output, path: string)
    requires o.Output? && path in o.updatedFiles
  {
    var content := PathContent(h, original, edits, path);
    && content.Some? && FinalContent(h, path, content.value) == Some(o.updatedFiles[path])
    && (path !in o.createdFiles ==>
          path in original && path in o.originalFiles
              && o.originalFiles[path] == original[path] != o.updatedFiles[path])
  }

  // What changed is what some edit touches; what was created was not there before.
  ghost predicate ListsOk(h: Host, original: Files, edits: seq<Edit>, o: Output)
    requires o.Output?
  {
    && Order.Sorted(o.changedFiles) && Order.Sorted(o.createdFiles)
    && (forall path :: path in o.changedFiles <==> path in o.updatedFiles)
    && (forall path :: path in o.updatedFiles <==> Touched(h, edits, path))
    && (forall path :: path in o.createdFiles ==> path !in original && path in o.updatedFiles)
    && (forall path :: path in o.originalFiles <==> path in o.updatedFiles && path !in o.createdFiles)
  }

  // The snapshot and the created files with what changed, and nothing else different.
  ghost predicate FinalOk(original: Files, o: Output, final: Files)
    requires o.Output?
  {
    && (forall path :: path in final <==> path in original || path in o.createdFiles)
    && (forall path :: path in final && path !in o.updatedFiles ==> path in original && final[path] == original[path])
    && (forall path :: path in final && path in o.updatedFiles ==> final[path] == o.updatedFiles[path])
  }

  // The accepted outcome of a proposal with edits, file by file.
  ghost predicate Materialized(h: Host, files: seq<File>, edits: seq<Edit>, o: Output, final: Files) {
    var original := OriginalOf(files);
    && o.Output? && ListsOk(h, original, edits, o) && FinalOk(original, o, final) && DiffIsShown(o)
    && forall path :: path in o.updatedFiles ==> UpdatedOk(h, original, edits, o, path)
  }

  // Every file after formatting what changed.
  function FinalFiles(h: Host, w: Workspace): Files {
    map path | path in w.files ::
      if path in w.changed && FinalContent(h, path, w.files[path]).Some? then FinalContent(h, path, w.files[path]).value
      else w.files[path]
  }

  // What is refused after the edits themselves were accepted: no effective change, a Go
  // file that cannot be formatted, too much content, a replaced file that ends up as it was.
  ghost predicate Deliverable(h: Host, files: seq<File>, w: Workspace) {
    && w.changed != {} && w.created <= w.files.Keys && (forall i :: 0 <= i < |files| ==> files[i].path in w.files)
    && (forall path :: path in w.changed ==> path in w.files && FinalContent(h, path, w.files[path]).Some?)
    && SnapshotBytes(files, FinalFiles(h, w)) + CreatedBytes(w.created, FinalFiles(h, w)) <= MAXIMUM_TOTAL_BYTES
    && forall path :: path in w.changed && path !in w.created ==>
        path in OriginalOf(files) && FinalFiles(h, w)[path] != OriginalOf(files)[path]
  }

  // Why an edited workspace is not delivered.
  ghost predicate DeliveryFails(h: Host, files: seq<File>, w: Workspace, problem: Problem) {
    match problem
    case NothingChanged => w.changed == {}
    case FormatFailed => exists path ::
        path in w.changed && path in w.files && FinalContent(h, path, w.files[path]).None?
    case TooLarge =>
      && w.created <= w.files.Keys && (forall i :: 0 <= i < |files| ==> files[i].path in w.files)
      && SnapshotBytes(files, FinalFiles(h, w)) + CreatedBytes(w.created, FinalFiles(h, w)) > MAXIMUM_TOTAL_BYTES
    case NoFinalChange =>
      exists path :: path in w.changed && path !in w.created && path in w.files && path in OriginalOf(files)
                     && FinalFiles(h, w)[path] == OriginalOf(files)[path]
    case _ => false
  }

  lemma FormattedAreFinal(h: Host, w: Workspace, paths: seq<string>, formatted: Files)
    requires forall path :: path in paths <==> path in w.changed
    requires formatted.Keys == w.files.Keys && forall path :: path in w.files ==>
               Some(formatted[path]) == if path in paths then FinalContent(h, path, w.files[path])
                   else Some(w.files[path])
    ensures formatted == FinalFiles(h, w)
  {
    hide FinalContent;
    forall path | path in w.files ensures formatted[path] == FinalFiles(h, w)[path] {
      assert Some(formatted[path]) == if path in paths then FinalContent(h, path, w.files[path])
             else Some(w.files[path]);
    }
  }

  // What the second half delivers, in terms of the edited workspace.
  ghost predicate Delivered(h: Host, original: Files, w: Workspace, o: Output, final: Files) {
    && o.Output? && Order.Sorted(o.changedFiles) && Order.Sorted(o.createdFiles) && o.changedFiles != []
    && (forall path :: path in o.changedFiles <==> path in w.changed)
    && (forall path :: path in o.createdFiles <==> path in w.created)
    && (forall path :: path in o.updatedFiles <==> path in o.changedFiles)
    && (forall path :: path in o.originalFiles <==> path in o.changedFiles && path !in w.created)
    && final.Keys == w.files.Keys
    && (forall path :: path in w.files ==>
          Some(final[path]) == if path in o.changedFiles then FinalContent(h, path, w.files[path])
              else Some(w.files[path]))
    && (forall path :: path in o.changedFiles ==> path in final && o.updatedFiles[path] == final[path])
    && (forall path :: path in o.originalFiles ==> path in original && o.originalFiles[path] == original[path])
    && (forall path :: path in o.changedFiles && path !in w.created ==>
        path in original && final[path] != original[path])
  }

  lemma RefusedEarly(h: Host, files: seq<File>, w: Workspace)
    ensures w.changed == {} || (exists path ::
              path in w.changed && path in w.files && FinalContent(h, path, w.files[path]).None?) ==>
              !Deliverable(h, files, w)
  {
    hide FinalContent, FinalFiles;
  }

  lemma DeliverableIff(h: Host, files: seq<File>, w: Workspace, paths: seq<string>)
    requires w.changed != {} && w.created <= w.files.Keys && (forall i :: 0 <= i < |files| ==> files[i].path in w.files)
    requires forall path :: path in paths <==> path in w.changed
    requires forall path :: path in paths ==> path in w.files && FinalContent(h, path, w.files[path]).Some?
    requires forall path :: path in paths && path !in w.created ==> path in OriginalOf(files)
    ensures Deliverable(h, files, w) <==>
              && SnapshotBytes(files, FinalFiles(h, w)) + CreatedBytes(w.created,
                  FinalFiles(h, w)) <= MAXIMUM_TOTAL_BYTES
              && forall path :: path in paths && path !in w.created ==>
                  FinalFiles(h, w)[path] != OriginalOf(files)[path]
  {
    hide FinalContent, OriginalOf, SnapshotBytes, CreatedBytes;
    assert forall path :: path in w.changed ==> path in paths;
  }

  lemma DeliveredBy(h: Host, original: Files, w: Workspace, o: Output, final: Files)
    requires o.Output? && Order.Sorted(o.changedFiles) && Order.Sorted(o.createdFiles) && o.changedFiles != []
    requires (forall path :: path in o.changedFiles <==> path in w.changed)
             && (forall path :: path in o.createdFiles <==> path in w.created)
    requires forall path :: path in o.updatedFiles <==> path in o.changedFiles
    requires forall path :: path in o.originalFiles <==> path in o.changedFiles && path !in w.created
    requires final.Keys == w.files.Keys && forall path :: path in w.files ==>
               Some(final[path]) == if path in o.changedFiles then FinalContent(h, path, w.files[path])
                   else Some(w.files[path])
    requires forall path :: path in o.changedFiles ==> path in final && o.updatedFiles[path] == final[path]
    requires forall path :: path in o.originalFiles ==> path in original && o.originalFiles[path] == original[path]
    requires forall path :: path in o.changedFiles && path !in w.created ==>
               path in original && final[path] != original[path]
    ensures Delivered(h, original, w, o, final)
  {
    hide FinalContent, Order.Sorted;
  }

  lemma SomePath(changed: set<string>, paths: seq<string>)
    requires changed != {} && forall path :: path in paths <==> path in changed
    ensures paths != []
  {
    var path :| path in changed;
    assert path in paths;
  }

  lemma NothingIsFailure(h: Host, files: seq<File>, w: Workspace)
    ensures w.changed == {} ==> DeliveryFails(h, files, w, NothingChanged)
  {
  }

  lemma FormatIsFailure(h: Host, files: seq<File>, w: Workspace, paths: seq<string>)
    requires (forall path :: path in paths <==> path in w.changed) && w.changed <= w.files.Keys
    requires exists path :: path in paths && FinalContent(h, path, w.files[path]).None?
    ensures DeliveryFails(h, files, w, FormatFailed)
  {
    hide FinalContent;
    var path :| path in paths && FinalContent(h, path, w.files[path]).None?;
    assert path in w.changed;
  }

  lemma TooMuchIsFailure(h: Host, files: seq<File>, w: Workspace)
    requires w.created <= w.files.Keys && (forall i :: 0 <= i < |files| ==> files[i].path in w.files)
    requires SnapshotBytes(files, FinalFiles(h, w)) + CreatedBytes(w.created, FinalFiles(h, w)) > MAXIMUM_TOTAL_BYTES
    ensures DeliveryFails(h, files, w, TooLarge)
  {
    hide FinalContent;
  }

  lemma SameIsFailure(h: Host, files: seq<File>, w: Workspace, paths: seq<string>)
    requires (forall path :: path in paths <==> path in w.changed) && w.changed <= w.files.Keys
    requires forall path :: path in paths && path !in w.created ==> path in OriginalOf(files)
    requires exists path :: path in paths && path !in w.created && FinalFiles(h, w)[path] == OriginalOf(files)[path]
    ensures DeliveryFails(h, files, w, NoFinalChange)
  {
    hide OriginalOf;
    var path :| path in paths && path !in w.created && FinalFiles(h, w)[path] == OriginalOf(files)[path];
    assert path in w.changed;
  }

  lemma DeliverableFits(h: Host, files: seq<File>, w: Workspace)
    requires Deliverable(h, files, w)
    ensures w.created <= w.files.Keys && (forall i :: 0 <= i < |files| ==> files[i].path in w.files)
    ensures SnapshotBytes(files, FinalFiles(h, w)) + CreatedBytes(w.created, FinalFiles(h, w)) <= MAXIMUM_TOTAL_BYTES
  {
    hide FinalContent;
  }

  // The half after the edits: format, measure, compare, collect.
  method Deliver(h: Host, files: seq<File>, original: Files, w: Workspace)
    returns (r: Result<Output, Problem>, ghost final: Files)
    requires original == OriginalOf(files) && forall i :: 0 <= i < |files| ==> files[i].path in original
    requires w.created <= w.changed <= w.files.Keys && w.files.Keys == original.Keys + w.created
    ensures r.Ok? <==> Deliverable(h, files, w)
    ensures r.Err? ==> DeliveryFails(h, files, w, r.error)
    ensures r.Ok? ==> Delivered(h, original, w, r.value, final) && final == FinalFiles(h, w)
    ensures r.Ok? ==> r.value.Output? && DiffIsShown(r.value)
  {
    hide FinalContent, Order.Sorted, OriginalOf, Deliverable, Delivered, FinalFiles, DeliveryFails, DiffsOf, PatchFrom,
        ChangeDiff.ShownDiff, ChangeDiff.WithoutLastNewline;
    final := map[];
    RefusedEarly(h, files, w);
    NothingIsFailure(h, files, w);
    if w.changed == {} { return Err(NothingChanged), final; }
    var paths := Order.SortedKeys(w.changed);
    var formatted := FormatChanged(h, w.files, paths);
    if formatted.Err? {
      FormatIsFailure(h, files, w, paths);
      return Err(formatted.error), final;
    }
    final := formatted.value;
    FormattedAreFinal(h, w, paths, formatted.value);
    var totalBytes := TotalBytes(files, w.created, formatted.value);
    DeliverableIff(h, files, w, paths);
    if totalBytes > MAXIMUM_TOTAL_BYTES {
      TooMuchIsFailure(h, files, w);
      return Err(TooLarge), final;
    }
    var diff := ShowChanges(paths, w.created, original, formatted.value);
    if diff.Err? {
      SameIsFailure(h, files, w, paths);
      return Err(diff.error), final;
    }
    var output := Collect(paths, w.created, original, formatted.value, diff.value);
    SomePath(w.changed, paths);
    CollectedDiffs(output, paths, w.created, original, formatted.value);
    DeliveredBy(h, original, w, output, final);
    r := Ok(output);
  }

  lemma ListsAreOk(h: Host, original: Files, edits: seq<Edit>, w: Workspace, o: Output, final: Files)
    requires WorkspaceOk(h, original, edits, w) && Delivered(h, original, w, o, final)
    ensures ListsOk(h, original, edits, o)
  {
    hide Touches, PathContent, FinalContent, Order.Sorted, ContentOk;
    hide Touched;
    KeysOf(h, original, edits, w);
    assert forall path :: path in o.updatedFiles <==> Touched(h, edits, path);
  }

  lemma FinalIsOk(h: Host, original: Files, edits: seq<Edit>, w: Workspace, o: Output, final: Files)
    requires WorkspaceOk(h, original, edits, w) && Delivered(h, original, w, o, final)
    ensures FinalOk(original, o, final)
  {
    hide WorkspaceOk, PathContent, FinalContent, Order.Sorted;
    KeysOf(h, original, edits, w);
    forall path | path in final && path !in o.updatedFiles ensures path in original && final[path] == original[path] {
      assert path !in w.changed && w.files[path] == original[path];
    }
    assert final.Keys == original.Keys + w.created;
  }

  lemma UpdatedAreOk(h: Host, original: Files, edits: seq<Edit>, w: Workspace, o: Output, final: Files)
    requires WorkspaceOk(h, original, edits, w) && Delivered(h, original, w, o, final)
    ensures o.Output? && forall path :: path in o.updatedFiles ==> UpdatedOk(h, original, edits, o, path)
  {
    hide Touches, PathContent, FinalContent, Order.Sorted, ContentOk;
    forall path | path in o.updatedFiles ensures UpdatedOk(h, original, edits, o, path) {
      assert PathContent(h, original, edits, path) == Some(w.files[path]);
    }
  }

  lemma Assembled(h: Host, files: seq<File>, edits: seq<Edit>, w: Workspace, o: Output, final: Files)
    requires WorkspaceOk(h, OriginalOf(files), edits, w) && Delivered(h, OriginalOf(files), w, o, final)
    requires o.Output? && DiffIsShown(o)
    ensures Materialized(h, files, edits, o, final)
  {
    hide WorkspaceOk, Delivered, ListsOk, FinalOk, UpdatedOk, OriginalOf, DiffIsShown;
    UpdatedAreOk(h, OriginalOf(files), edits, w, o, final);
    ListsAreOk(h, OriginalOf(files), edits, w, o, final);
    FinalIsOk(h, OriginalOf(files), edits, w, o, final);
  }

  // The edited files, path by path, can be delivered.
  ghost predicate CanDeliver(h: Host, files: seq<File>, edits: seq<Edit>) {
    exists w :: WorkspaceOk(h, OriginalOf(files), edits, w) && Deliverable(h, files, w)
  }

  ghost predicate Undelivered(h: Host, files: seq<File>, edits: seq<Edit>, problem: Problem) {
    exists w :: WorkspaceOk(h, OriginalOf(files), edits, w) && DeliveryFails(h, files, w, problem)
  }

  // What the edits make of every path leaves no choice.
  lemma OneWorkspace(h: Host, original: Files, edits: seq<Edit>, v: Workspace, w: Workspace)
    requires WorkspaceOk(h, original, edits, v) && WorkspaceOk(h, original, edits, w)
    ensures v == w
  {
    hide PathContent, Touched, ContentOk;
    KeysOf(h, original, edits, v);
    KeysOf(h, original, edits, w);
    forall path
      ensures path in v.files <==> path in w.files
      ensures path in v.files ==> v.files[path] == w.files[path]
      ensures path in v.changed <==> path in w.changed
    {
      assert PathContent(h, original, edits, path) == if path in v.files then Some(v.files[path]) else None;
      assert PathContent(h, original, edits, path) == if path in w.files then Some(w.files[path]) else None;
    }
    assert v.files == w.files && v.changed == w.changed;
    assert forall path :: path in v.created <==> path in v.files && path !in original;
    assert forall path :: path in w.created <==> path in w.files && path !in original;
    assert v.created == w.created;
  }

  lemma DeliveryIsOfFold(h: Host, files: seq<File>, edits: seq<Edit>, w: Workspace)
    requires WorkspaceOk(h, OriginalOf(files), edits, w)
    ensures CanDeliver(h, files, edits) <==> Deliverable(h, files, w)
    ensures forall problem :: DeliveryFails(h, files, w, problem) ==> Undelivered(h, files, edits, problem)
  {
    hide WorkspaceOk, Deliverable, DeliveryFails;
    if v :| WorkspaceOk(h, OriginalOf(files), edits, v) && Deliverable(h, files, v) {
      OneWorkspace(h, OriginalOf(files), edits, v, w);
    }
  }

  lemma CreatedOf(h: Host, original: Files, w: Workspace, o: Output, final: Files)
    requires Delivered(h, original, w, o, final)
    ensures o.Output? && PathSet(o.createdFiles) == w.created && o.changedFiles != [] && final.Keys == w.files.Keys
  {
    hide FinalContent, Order.Sorted;
  }

  method MaterializeChangeSimulation(h: Host, files: seq<File>, p: Proposal)
    returns (r: Result<Output, Problem>, ghost final: Files)
    ensures !ProposalOk(p) ==> r == Err(BadProposal)
    ensures ProposalOk(p) && p.edits == [] ==> r == Ok(Clarify)
    ensures ProposalOk(p) && p.edits != [] ==>
              (r.Ok? <==> AllAccepted(h, OriginalOf(files), p.edits) && CanDeliver(h, files, p.edits))
    ensures ProposalOk(p) && p.edits != [] && r.Err? ==>
              if AllAccepted(h, OriginalOf(files), p.edits) then Undelivered(h, files, p.edits, r.error)
              else FirstRefused(h, OriginalOf(files), p.edits, r.error)
    ensures r.Ok? && p.edits != [] ==>
              && Materialized(h, files, p.edits, r.value, final)
              && r.value.changedFiles != []
              && (forall i :: 0 <= i < |files| ==> files[i].path in final)
              && PathSet(r.value.createdFiles) <= final.Keys
              && SnapshotBytes(files, final) + CreatedBytes(PathSet(r.value.createdFiles), final) <= MAXIMUM_TOTAL_BYTES
  {
    hide ProposalOk, ApplyEdits, Materialized, FinalFiles, OriginalOf, Touches, PathContent, ContentOk, Order.Sorted,
        AllAccepted, FirstRefused, CanDeliver, Undelivered, Deliverable, DeliveryFails, WorkspaceOk, Delivered,
        DiffIsShown;
    final := map[];
    if !ProposalOk(p) { return Err(BadProposal), final; }
    if |p.edits| == 0 { return Ok(Clarify), final; }
    var original := LoadSnapshot(files);
    var edited := RunEdits(h, original, p.edits);
    AcceptedIff(h, original, p.edits);
    if edited.Err? { return Err(edited.error), final; }
    FoldIsPathwise(h, original, p.edits);
    KeysOf(h, original, p.edits, edited.value);
    DeliveryIsOfFold(h, files, p.edits, edited.value);
    r, final := Deliver(h, files, original, edited.value);
    if r.Err? { return; }
    CreatedOf(h, original, edited.value, r.value, final);
    DeliverableFits(h, files, edited.value);
    Assembled(h, files, p.edits, edited.value, r.value, final);
  }
}
