// The host's unified diff of a change, one hunk a file, a parser for it and a patch
// applier.

module ChangeDiff {
  import opened Wrappers
  import GreedyMatch
  import Text

  const NL: string := "\n"
  const ABSENT: string := "new file mode 100644\n--- /dev/null\n"
  const MARKER: string := "\\ No newline at end of file\n"

  // ------------------------------------------------------- Lines of a file

  function Join(parts: seq<string>): string {
    if |parts| == 0 then "" else if |parts| == 1 then parts[0] else parts[0] + NL + Join(parts[1..])
  }

  // strings.Split(s, "\n").
  function Split(s: string): (parts: seq<string>)
    ensures |parts| >= 1
    ensures forall i :: 0 <= i < |parts| ==> '\n' !in parts[i]
    ensures Join(parts) == s
  {
    if s == "" then [""]
    else if s[0] == '\n' then [""] + Split(s[1..])
    else var rest := Split(s[1..]); [[s[0]] + rest[0]] + rest[1..]
  }

  function EndsWithNewline(content: string): bool {
    content != "" && content[|content| - 1] == '\n'
  }

  // splitChangeDiffLines: the lines, and whether the last one is terminated.
  function Lines(content: string): (lines: seq<string>)
    ensures forall i :: 0 <= i < |lines| ==> '\n' !in lines[i]
    ensures |lines| == 0 <==> content == ""
  {
    if content == "" then []
    else Split(if EndsWithNewline(content) then content[..|content| - 1] else content)
  }

  // The lines and the flag determine the file.
  lemma {:induction false} LinesDetermineContent(content: string)
    ensures content == (if Lines(content) == [] then "" else Join(Lines(content)) + if EndsWithNewline(content) then NL
                        else "")
  {
    if EndsWithNewline(content) {
      assert content == content[..|content| - 1] + NL;
    }
  }

  lemma ContentFromLines(a: string, b: string)
    ensures a == b <==> Lines(a) == Lines(b) && EndsWithNewline(a) == EndsWithNewline(b)
  {
    LinesDetermineContent(a);
    LinesDetermineContent(b);
  }

  // ------------------------------------------------------- The hunk

  datatype Kind = Context | Delete | Insert

  datatype HunkLine = HunkLine(kind: Kind, text: string, noNewline: bool)

  datatype Hunk = Hunk(oldStart: nat, oldCount: nat, newStart: nat, newCount: nat, lines: seq<HunkLine>)

  // The number of leading lines the two files share, given that n are shared.
  function CommonPrefix(a: seq<string>, b: seq<string>, n: nat): (r: nat)
    requires n <= |a| && n <= |b|
    ensures n <= r <= |a| && r <= |b|
    ensures forall i :: n <= i < r ==> a[i] == b[i]
    ensures r < |a| && r < |b| ==> a[r] != b[r]
    decreases |a| - n
  {
    if n < |a| && n < |b| && a[n] == b[n] then CommonPrefix(a, b, n + 1) else n
  }

  // The same from the end, leaving the first prefix lines of both alone.
  function CommonSuffix(a: seq<string>, b: seq<string>, prefix: nat, n: nat): (r: nat)
    requires prefix + n <= |a| && prefix + n <= |b|
    ensures n <= r && prefix + r <= |a| && prefix + r <= |b|
    ensures forall i :: |a| - r <= i < |a| - n ==> a[i] == b[i + |b| - |a|]
    ensures prefix + r < |a| && prefix + r < |b| ==> a[|a| - 1 - r] != b[|b| - 1 - r]
    decreases |a| - n
  {
    if n < |a| - prefix && n < |b| - prefix && a[|a| - 1 - n] == b[|b| - 1 - n]
    then CommonSuffix(a, b, prefix, n + 1) else n
  }

  // Where the change lies: the first prefix and the last suffix lines are common.
  datatype Span = Span(prefix: nat, suffix: nat)

  ghost predicate SpanOk(a: seq<string>, b: seq<string>, s: Span) {
    && s.prefix + s.suffix <= |a| && s.prefix + s.suffix <= |b|
    && (forall i :: 0 <= i < s.prefix ==> a[i] == b[i])
    && (forall i :: |a| - s.suffix <= i < |a| ==> a[i] == b[i + |b| - |a|])
  }

  function SpanOf(a: seq<string>, aEnds: bool, b: seq<string>, bEnds: bool): (s: Span)
    ensures SpanOk(a, b, s)
  {
    var prefix := CommonPrefix(a, b, 0);
    if prefix == |a| == |b| && aEnds != bEnds && prefix > 0 then Span(prefix - 1, 0)
    else Span(prefix, CommonSuffix(a, b, prefix, 0))
  }

  // Lines lo..hi of a file as hunk lines; the file's last line carries the flag.
  function Marked(kind: Kind, lines: seq<string>, lo: nat, hi: nat, flag: bool): (ls: seq<HunkLine>)
    requires lo <= hi <= |lines|
    ensures |ls| == hi - lo
    ensures forall i :: 0 <= i < |ls| ==> ls[i] == HunkLine(kind, lines[lo + i], lo + i == |lines| - 1 && flag)
  {
    if lo == hi then []
    else Marked(kind, lines, lo, hi - 1, flag) + [HunkLine(kind, lines[hi - 1], hi == |lines| && flag)]
  }

  function Max0(n: int): nat { if n < 0 then 0 else n }

  function AtMost(n: nat, limit: nat): (r: nat)
    ensures r <= limit
  {
    if n > limit then limit else n
  }

  // The two files' lines, their final flags and the span of the change.
  datatype Edit = Edit(a: seq<string>, aEnds: bool, b: seq<string>, bEnds: bool, prefix: nat, suffix: nat) {
    predicate Fits() { prefix + suffix <= |a| && prefix + suffix <= |b| }

    function Start(): nat { Max0(prefix - 3) }

    function AChangeEnd(): nat
      requires Fits()
    {
      |a| - suffix
    }

    function AEnd(): nat
      requires Fits()
    {
      AtMost(AChangeEnd() + 3, |a|)
    }

    function BChangeEnd(): nat
      requires Fits()
    {
      |b| - suffix
    }

    function BEnd(): nat
      requires Fits()
    {
      AtMost(BChangeEnd() + 3, |b|)
    }

    function Head(): (ls: seq<HunkLine>)
      requires Fits()
      ensures |ls| == prefix - Start()
    {
      Marked(Context, a, Start(), prefix, !aEnds)
    }

    function Removed(): (ls: seq<HunkLine>)
      requires Fits()
      ensures |ls| == AChangeEnd() - prefix
    {
      Marked(Delete, a, prefix, AChangeEnd(), !aEnds)
    }

    function Inserted(): (ls: seq<HunkLine>)
      requires Fits()
      ensures |ls| == BChangeEnd() - prefix
    {
      Marked(Insert, b, prefix, BChangeEnd(), !bEnds)
    }

    function Tail(): (ls: seq<HunkLine>)
      requires Fits()
      ensures |ls| == AEnd() - AChangeEnd()
    {
      Marked(Context, a, AChangeEnd(), AEnd(), !aEnds && !bEnds)
    }

    function ToHunk(): Hunk
      requires Fits()
    {
      Hunk(if a == [] then 0 else Start() + 1, AEnd() - Start(), if b == [] then 0 else Start() + 1, BEnd() - Start(),
           Head() + Removed() + Inserted() + Tail())
    }
  }

  function EditOf(before: string, after: string): (e: Edit)
    ensures e.a == Lines(before) && e.aEnds == EndsWithNewline(before)
    ensures e.b == Lines(after) && e.bEnds == EndsWithNewline(after)
    ensures e.Fits() && SpanOk(e.a, e.b, Span(e.prefix, e.suffix))
  {
    var a, b := Lines(before), Lines(after);
    var s := SpanOf(a, EndsWithNewline(before), b, EndsWithNewline(after));
    Edit(a, EndsWithNewline(before), b, EndsWithNewline(after), s.prefix, s.suffix)
  }

  function DiffHunk(before: string, after: string): Hunk {
    EditOf(before, after).ToHunk()
  }

  lemma NoLines(content: string)
    ensures Lines(content) == [] ==> content == ""
  {
  }

  // The hunk is no larger than the change: up to three lines of context on each side, and
  // between them lines that differ at both ends, or only the last line when just the
  // final newline changed.
  lemma ChangeIsTight(before: string, after: string)
    requires before != after
    ensures var e := EditOf(before, after);
            && |e.Head()| == AtMost(e.prefix, 3) && |e.Tail()| == AtMost(e.suffix, 3)
            && if e.a == e.b then e.prefix == |e.a| - 1 && e.suffix == 0
               else e.prefix < e.AChangeEnd() && e.prefix < e.BChangeEnd() ==>
                 e.a[e.prefix] != e.b[e.prefix] && e.a[e.AChangeEnd() - 1] != e.b[e.BChangeEnd() - 1]
  {
    hide Lines, EndsWithNewline, Marked;
    ContentFromLines(before, after);
    NoLines(before);
    NoLines(after);
  }

  // ------------------------------------------------------- Printing

  function Symbol(k: Kind): char {
    match k
    case Context => ' '
    case Delete => '-'
    case Insert => '+'
  }

  function RenderLine(l: HunkLine): string {
    [Symbol(l.kind)] + l.text + NL + if l.noNewline then MARKER else ""
  }

  function RenderLines(ls: seq<HunkLine>): string {
    if ls == [] then "" else RenderLine(ls[0]) + RenderLines(ls[1..])
  }

  function RenderCounts(h: Hunk): string {
    "@@ -" + (Text.Decimal(h.oldStart) + ("," + (Text.Decimal(h.oldCount) +
      (" +" + (Text.Decimal(h.newStart) + ("," + (Text.Decimal(h.newCount) + " @@\n")))))))
  }

  function Render(h: Hunk): string {
    RenderCounts(h) + RenderLines(h.lines)
  }

  function NamesLine(path: string): string {
    "diff --git a/" + path + " b/" + path + NL
  }

  function OldLine(path: string): string { "--- a/" + path + NL }

  function NewLine(path: string): string { "+++ b/" + path + NL }

  function FileHeader(path: string): string {
    NamesLine(path) + OldLine(path) + NewLine(path)
  }

  // The change of one file.
  datatype FileDiff = FileDiff(path: string, created: bool, hunk: Hunk)

  // A created file's old side is marked absent by replacing text in the printed diff.
  function RenderFile(d: FileDiff): string {
    var text := FileHeader(d.path) + Render(d.hunk);
    if d.created then GreedyMatch.ReplaceFirst(text, OldLine(d.path), ABSENT) else text
  }

  function RenderPatch(ds: seq<FileDiff>): string {
    if ds == [] then "" else RenderFile(ds[0]) + RenderPatch(ds[1..])
  }

  // strings.TrimSuffix(s, "\n").
  function WithoutLastNewline(s: string): string {
    if EndsWithNewline(s) then s[..|s| - 1] else s
  }

  // A preview's diff.
  function ShownDiff(ds: seq<FileDiff>): string {
    WithoutLastNewline(RenderPatch(ds))
  }

  lemma {:induction false} RenderLinesAppend(xs: seq<HunkLine>, ys: seq<HunkLine>)
    ensures RenderLines(xs + ys) == RenderLines(xs) + RenderLines(ys)
  {
    if xs == [] {
      assert xs + ys == ys;
    } else {
      assert (xs + ys)[1..] == xs[1..] + ys;
      RenderLinesAppend(xs[1..], ys);
    }
  }

  // ------------------------------------------------------- Parsing

  function IsDigit(c: char): bool { '0' <= c <= '9' }

  function ParseDigits(s: string, acc: nat): (r: (nat, string))
    ensures |r.1| <= |s|
  {
    if s != "" && IsDigit(s[0]) then ParseDigits(s[1..], acc * 10 + (s[0] as int - '0' as int)) else (acc, s)
  }

  function ParseNat(s: string): (r: Option<(nat, string)>)
    ensures r.Some? ==> |r.value.1| <= |s|
  {
    if s != "" && IsDigit(s[0]) then Some(ParseDigits(s, 0)) else None
  }

  function Skip(s: string, expected: string): (r: Option<string>)
    ensures r.Some? ==> |r.value| == |s| - |expected|
  {
    if expected <= s then Some(s[|expected|..]) else None
  }

  function LineLength(s: string): (n: nat)
    ensures n <= |s| && '\n' !in s[..n] && (n < |s| ==> s[n] == '\n')
  {
    if s == "" || s[0] == '\n' then 0 else LineLength(s[1..]) + 1
  }

  function KindOf(c: char): Option<Kind> {
    if c == ' ' then Some(Context) else if c == '-' then Some(Delete) else if c == '+' then Some(Insert) else None
  }

  // One hunk line, its marker if there is one, and what follows.
  function ParseFirst(s: string): (r: Option<(HunkLine, string)>)
    ensures r.Some? ==> |r.value.1| < |s|
  {
    var n := LineLength(s);
    if n == 0 || n == |s| || KindOf(s[0]).None? then None
    else
      var rest := s[n + 1..];
      var marked := MARKER <= rest;
      Some((HunkLine(KindOf(s[0]).value, s[1..n], marked), if marked then rest[|MARKER|..] else rest))
  }

  // The hunk lines at the front, and what follows them.
  function ParseLines(s: string): (r: (seq<HunkLine>, string))
    ensures |r.1| <= |s|
    decreases |s|
  {
    var first := ParseFirst(s);
    if first.None? then ([], s)
    else
      var tail := ParseLines(first.value.1);
      ([first.value.0] + tail.0, tail.1)
  }

  // Two numbers separated by a comma, and what follows.
  function ParsePair(s: string): (r: Option<(nat, nat, string)>)
    ensures r.Some? ==> |r.value.2| <= |s|
  {
    var first := ParseNat(s);
    if first.None? then None
    else
      var comma := Skip(first.value.1, ",");
      if comma.None? then None
      else
        var second := ParseNat(comma.value);
        if second.None? then None else Some((first.value.0, second.value.0, second.value.1))
  }

  // A hunk, and what follows it.
  function Parse(s: string): (r: Option<(Hunk, string)>)
    ensures r.Some? ==> |r.value.1| < |s|
  {
    var intro := Skip(s, "@@ -");
    if intro.None? then None
    else
      var old' := ParsePair(intro.value);
      if old'.None? then None
      else
        var plus := Skip(old'.value.2, " +");
        if plus.None? then None
        else
          var new' := ParsePair(plus.value);
          if new'.None? then None
          else
            var end := Skip(new'.value.2, " @@\n");
            if end.None? then None
            else
              var lines := ParseLines(end.value);
              Some((Hunk(old'.value.0, old'.value.1, new'.value.0, new'.value.1, lines.0), lines.1))
  }

  // The text up to the first newline, and what follows the newline.
  function FirstLine(s: string): (r: Option<(string, string)>)
    ensures r.Some? ==> |r.value.1| < |s| && '\n' !in r.value.0
  {
    var n := LineLength(s);
    if n == |s| then None else Some((s[..n], s[n + 1..]))
  }

  // The old side of a file header: no path when the file is absent.
  function ParseOldLine(s: string): (r: Option<(Option<string>, string)>)
    ensures r.Some? ==> |r.value.1| < |s|
  {
    var absent := Skip(s, "new file mode 100644\n--- /dev/null\n");
    if absent.Some? then Some((None, absent.value))
    else
      var name := Skip(s, "--- a/");
      if name.None? then None
      else
        var line := FirstLine(name.value);
        if line.None? then None else Some((Some(line.value.0), line.value.1))
  }

  // A file header: the path of the new side, which the other lines must repeat, and
  // whether the old side is absent.
  function ParseHeader(s: string): (r: Option<(string, bool, string)>)
    ensures r.Some? ==> |r.value.2| < |s| && '\n' !in r.value.0
  {
    var names := FirstLine(s);
    if names.None? then None
    else
      var old' := ParseOldLine(names.value.1);
      if old'.None? then None
      else
        var name := Skip(old'.value.1, "+++ b/");
        if name.None? then None
        else
          var new' := FirstLine(name.value);
          if new'.None? then None
          else
            var path := new'.value.0;
            if names.value.0 == "diff --git a/" + path + " b/" + path &&
               (old'.value.0.None? || old'.value.0.value == path)
            then Some((path, old'.value.0.None?, new'.value.1)) else None
  }

  function ParseFile(s: string): (r: Option<(FileDiff, string)>)
    ensures r.Some? ==> |r.value.1| < |s| && '\n' !in r.value.0.path
  {
    var header := ParseHeader(s);
    if header.None? then None
    else
      var hunk := Parse(header.value.2);
      if hunk.None? then None
      else Some((FileDiff(header.value.0, header.value.1, hunk.value.0), hunk.value.1))
  }

  // A whole patch, one file after another.
  function ParsePatch(s: string): (r: Option<seq<FileDiff>>)
    ensures r.Some? ==> forall k :: 0 <= k < |r.value| ==> '\n' !in r.value[k].path
    decreases |s|
  {
    if s == "" then Some([])
    else
      var file := ParseFile(s);
      if file.None? then None
      else
        var tail := ParsePatch(file.value.1);
        if tail.None? then None else Some([file.value.0] + tail.value)
  }

  lemma {:induction false} DigitsOfDecimal(n: nat, rest: string)
    ensures ParseDigits(Text.Decimal(n) + rest, 0) == ParseDigits(rest, n)
    ensures IsDigit((Text.Decimal(n) + rest)[0])
  {
    if n < 10 {
      assert (Text.Decimal(n) + rest)[1..] == rest;
    } else {
      var tail := [Text.Digit(n % 10)] + rest;
      assert Text.Decimal(n) + rest == Text.Decimal(n / 10) + tail;
      DigitsOfDecimal(n / 10, tail);
      assert tail[1..] == rest;
    }
  }

  lemma ParsesPair(m: nat, n: nat, rest: string)
    requires rest != "" && !IsDigit(rest[0])
    ensures ParsePair(Text.Decimal(m) + ("," + (Text.Decimal(n) + rest))) == Some((m, n, rest))
  {
    var s2 := Text.Decimal(n) + rest;
    DigitsOfDecimal(m, "," + s2);
    DigitsOfDecimal(n, rest);
    assert ("," + s2)[1..] == s2;
  }

  lemma SkipsPrefix(p: string, rest: string)
    ensures Skip(p + rest, p) == Some(rest)
  {
    assert (p + rest)[|p|..] == rest;
  }

  ghost predicate SingleLines(ls: seq<HunkLine>) {
    forall i :: 0 <= i < |ls| ==> '\n' !in ls[i].text
  }

  lemma LineLengthIs(s: string, n: nat)
    requires n < |s| && s[n] == '\n' && '\n' !in s[..n]
    ensures LineLength(s) == n
  {
    var k := LineLength(s);
    assert forall i :: 0 <= i < k ==> s[i] == s[..k][i];
    assert forall i :: 0 <= i < n ==> s[i] == s[..n][i];
  }

  // What may follow a hunk: the end, or the header of the next file.
  predicate Follows(rest: string) {
    rest == "" || rest[0] == 'd'
  }

  lemma RenderedStart(ls: seq<HunkLine>, rest: string)
    requires Follows(rest)
    ensures RenderLines(ls) + rest == "" || (RenderLines(ls) + rest)[0] != '\\'
  {
  }

  lemma MarkerAhead(marked: bool, tail: string)
    requires tail == "" || tail[0] != '\\'
    ensures var rest := (if marked then MARKER else "") + tail;
            (MARKER <= rest <==> marked) && (if marked then rest[|MARKER|..] else rest) == tail
  {
    assert ((if marked then MARKER else "") + tail)[if marked then |MARKER| else 0..] == tail;
    assert MARKER[0] == '\\';
  }

  lemma ParsesFirst(l: HunkLine, tail: string)
    requires '\n' !in l.text && (tail == "" || tail[0] != '\\')
    ensures ParseFirst(RenderLine(l) + tail) == Some((l, tail))
  {
    hide MARKER, LineLength;
    var s := RenderLine(l) + tail;
    var head := [Symbol(l.kind)] + l.text;
    var rest := (if l.noNewline then MARKER else "") + tail;
    assert s == head + NL + rest;
    assert s[..|head|] == head;
    assert s[|head|] == NL[0] == '\n';
    LineLengthIs(s, |head|);
    assert s[|head| + 1..] == rest;
    assert s[1..|head|] == l.text;
    assert KindOf(s[0]) == Some(l.kind);
    MarkerAhead(l.noNewline, tail);
  }

  lemma ParsesOneLine(l: HunkLine, tail: string)
    requires '\n' !in l.text && (tail == "" || tail[0] != '\\')
    ensures ParseLines(RenderLine(l) + tail) == ([l] + ParseLines(tail).0, ParseLines(tail).1)
  {
    hide ParseFirst, RenderLine;
    ParsesFirst(l, tail);
  }

  lemma ParsesNoLine(rest: string)
    requires Follows(rest)
    ensures ParseLines(RenderLines([]) + rest) == ([], rest)
  {
    assert RenderLines([]) + rest == rest;
  }

  lemma RenderedFront(ls: seq<HunkLine>, rest: string)
    requires ls != []
    ensures RenderLines(ls) + rest == RenderLine(ls[0]) + (RenderLines(ls[1..]) + rest)
  {
    hide RenderLine;
  }

  lemma {:induction false} ParsesLines(ls: seq<HunkLine>, rest: string)
    requires SingleLines(ls) && Follows(rest)
    ensures ParseLines(RenderLines(ls) + rest) == (ls, rest)
  {
    hide ParseLines, RenderLine, RenderLines, Follows;
    if ls == [] {
      ParsesNoLine(rest);
    } else {
      ParsesLines(ls[1..], rest);
      RenderedStart(ls[1..], rest);
      RenderedFront(ls, rest);
      ParsesOneLine(ls[0], RenderLines(ls[1..]) + rest);
      assert ls == [ls[0]] + ls[1..];
    }
  }

  // Printing then parsing gives the hunk back, and what follows it.
  lemma ParseRender(h: Hunk, rest: string)
    requires SingleLines(h.lines) && Follows(rest)
    ensures Parse(Render(h) + rest) == Some((h, rest))
  {
    hide ParsePair, ParseLines, Text.Decimal, RenderLines, Skip, SingleLines, Follows;
    var body := RenderLines(h.lines) + rest;
    var close := " @@\n" + body;
    var newPart := Text.Decimal(h.newStart) + ("," + (Text.Decimal(h.newCount) + close));
    var oldPart := Text.Decimal(h.oldStart) + ("," + (Text.Decimal(h.oldCount) + (" +" + newPart)));
    assert Render(h) + rest == "@@ -" + oldPart;
    SkipsPrefix("@@ -", oldPart);
    ParsesPair(h.oldStart, h.oldCount, " +" + newPart);
    SkipsPrefix(" +", newPart);
    ParsesPair(h.newStart, h.newCount, close);
    SkipsPrefix(" @@\n", body);
    ParsesLines(h.lines, rest);
  }

  lemma ReadsFirstLine(line: string, rest: string)
    requires '\n' !in line
    ensures FirstLine(line + NL + rest) == Some((line, rest))
  {
    var s := line + NL + rest;
    assert s[..|line|] == line && s[|line|] == NL[0];
    LineLengthIs(s, |line|);
    assert s[|line| + 1..] == rest;
  }

  function OldSide(path: string, created: bool): string {
    if created then ABSENT else OldLine(path)
  }

  lemma ReadsOldLine(path: string, created: bool, rest: string)
    requires '\n' !in path
    ensures ParseOldLine(OldSide(path, created) + rest) == Some((if created then None else Some(path), rest))
  {
    hide FirstLine;
    if created {
      SkipsPrefix(ABSENT, rest);
    } else {
      var s := OldLine(path) + rest;
      assert s == "--- a/" + (path + NL + rest);
      assert s[0] == '-' && ABSENT[0] == 'n';
      SkipsPrefix("--- a/", path + NL + rest);
      ReadsFirstLine(path, rest);
    }
  }

  lemma ReadsHeader(path: string, created: bool, rest: string)
    requires '\n' !in path
    ensures ParseHeader(NamesLine(path) + OldSide(path, created) + NewLine(path) + rest) == Some((path, created, rest))
  {
    hide FirstLine, ParseOldLine, OldSide, Skip;
    var third := NewLine(path) + rest;
    var second := OldSide(path, created) + third;
    var names := "diff --git a/" + path + " b/" + path;
    assert NamesLine(path) + OldSide(path, created) + NewLine(path) + rest == names + NL + second;
    ReadsFirstLine(names, second);
    ReadsOldLine(path, created, third);
    assert third == "+++ b/" + (path + NL + rest);
    SkipsPrefix("+++ b/", path + NL + rest);
    ReadsFirstLine(path, rest);
  }

  lemma OccursThere(s: string, p: string, j: nat)
    requires GreedyMatch.At(s, p, j)
    ensures j + |p| <= |s| && forall i :: 0 <= i < |p| ==> s[j + i] == p[i]
  {
    assert forall i :: 0 <= i < |p| ==> s[j + i] == s[j..][i] == p[i];
  }

  // The old side's line occurs first where the header has it: in the line before, only
  // the new side's name ends like it.
  lemma NotBefore(path: string, rest: string, j: nat)
    requires '\n' !in path && j < |NamesLine(path)|
    ensures !GreedyMatch.At(NamesLine(path) + OldLine(path) + rest, OldLine(path), j)
  {
    var names, p := NamesLine(path), OldLine(path);
    var s := names + p + rest;
    var last := |names| - 1;
    hide GreedyMatch.At;
    assert s[last] == '\n' && forall i :: 0 <= i < last ==> s[i] == names[i] != '\n';
    assert p[|p| - 1] == '\n' && forall i :: 0 <= i < |p| - 1 ==> p[i] != '\n';
    assert p[4] == 'a' && names[14 + |path|] == 'b';
    if GreedyMatch.At(s, p, j) { OccursThere(s, p, j); }
  }

  lemma OldLineIsReplaced(path: string, rest: string)
    requires '\n' !in path
    ensures GreedyMatch.ReplaceFirst(NamesLine(path) + OldLine(path) + rest, OldLine(path), ABSENT) ==
              NamesLine(path) + ABSENT + rest
  {
    hide GreedyMatch.FindFrom, NamesLine, ABSENT;
    var names, p := NamesLine(path), OldLine(path);
    var s := names + p + rest;
    GreedyMatch.FindsFirst(s, p, 0);
    assert s[|names|..] == p + rest;
    assert GreedyMatch.At(s, p, |names|);
    var first := GreedyMatch.FindFrom(s, p, 0).value;
    if first < |names| { NotBefore(path, rest, first); }
    assert s[..|names|] == names && s[|names| + |p|..] == rest;
  }

  lemma RenderFileIs(d: FileDiff)
    requires '\n' !in d.path
    ensures RenderFile(d) == NamesLine(d.path) + OldSide(d.path, d.created) + NewLine(d.path) + Render(d.hunk)
  {
    hide NamesLine, OldLine, ABSENT, GreedyMatch.ReplaceFirst, Render;
    var rest := NewLine(d.path) + Render(d.hunk);
    assert FileHeader(d.path) + Render(d.hunk) == NamesLine(d.path) + OldLine(d.path) + rest;
    OldLineIsReplaced(d.path, rest);
    assert NamesLine(d.path) + OldSide(d.path, d.created) + rest ==
           NamesLine(d.path) + OldSide(d.path, d.created) + NewLine(d.path) + Render(d.hunk);
  }

  // A printed file, read back with what follows it.
  lemma ReadsFile(d: FileDiff, rest: string)
    requires '\n' !in d.path && SingleLines(d.hunk.lines) && Follows(rest)
    ensures ParseFile(RenderFile(d) + rest) == Some((d, rest))
    ensures RenderFile(d)[..1] == "d"
  {
    hide RenderFile, Render, Parse, ParseHeader, OldSide, NewLine, SingleLines;
    RenderFileIs(d);
    var intro := NamesLine(d.path) + OldSide(d.path, d.created) + NewLine(d.path);
    assert intro[..1] == "d";
    assert RenderFile(d) + rest == intro + (Render(d.hunk) + rest);
    ReadsHeader(d.path, d.created, Render(d.hunk) + rest);
    ParseRender(d.hunk, rest);
  }

  lemma {:induction false} RenderPatchAppend(ds: seq<FileDiff>, d: FileDiff)
    ensures RenderPatch(ds + [d]) == RenderPatch(ds) + RenderFile(d)
  {
    hide RenderFile;
    if ds == [] {
      assert ds + [d] == [d] && [d][1..] == [];
    } else {
      assert (ds + [d])[1..] == ds[1..] + [d];
      RenderPatchAppend(ds[1..], d);
    }
  }

  lemma ReadsOneMore(d: FileDiff, rest: string, ds: seq<FileDiff>)
    requires '\n' !in d.path && SingleLines(d.hunk.lines) && Follows(rest) && ParsePatch(rest) == Some(ds)
    ensures ParsePatch(RenderFile(d) + rest) == Some([d] + ds) && Follows(RenderFile(d) + rest)
  {
    hide RenderFile, ParseFile, SingleLines;
    ReadsFile(d, rest);
    assert (RenderFile(d) + rest)[0] == RenderFile(d)[..1][0] == 'd';
  }

  lemma ReadsNothing()
    ensures ParsePatch(RenderPatch([])) == Some([]) && Follows(RenderPatch([]))
  {
    assert RenderPatch([]) == "";
  }

  lemma {:induction false} ReadsPatch(ds: seq<FileDiff>)
    requires forall k :: 0 <= k < |ds| ==> '\n' !in ds[k].path && SingleLines(ds[k].hunk.lines)
    ensures ParsePatch(RenderPatch(ds)) == Some(ds) && Follows(RenderPatch(ds))
  {
    hide RenderFile, ParsePatch, SingleLines, Follows;
    if ds == [] {
      ReadsNothing();
    } else {
      ReadsPatch(ds[1..]);
      ReadsOneMore(ds[0], RenderPatch(ds[1..]), ds[1..]);
      assert ds == [ds[0]] + ds[1..];
    }
  }

  // A printed patch reads back as the changes it was printed from exactly when no path
  // holds a newline.
  lemma PatchReadsBackIff(ds: seq<FileDiff>)
    requires forall k :: 0 <= k < |ds| ==> SingleLines(ds[k].hunk.lines)
    ensures ParsePatch(RenderPatch(ds)) == Some(ds) <==> forall k :: 0 <= k < |ds| ==> '\n' !in ds[k].path
  {
    hide RenderPatch, ParsePatch, SingleLines;
    if forall k :: 0 <= k < |ds| ==> '\n' !in ds[k].path { ReadsPatch(ds); }
  }

  lemma {:induction false} LinesEnd(ls: seq<HunkLine>)
    requires ls != []
    ensures EndsWithNewline(RenderLines(ls))
  {
    if |ls| == 1 {
      assert ls[1..] == [];
    } else {
      LinesEnd(ls[1..]);
    }
  }

  lemma RenderEnds(h: Hunk)
    ensures EndsWithNewline(Render(h))
  {
    hide Text.Decimal;
    if h.lines != [] {
      hide RenderLines;
      LinesEnd(h.lines);
    }
  }

  lemma FileEnds(d: FileDiff)
    ensures EndsWithNewline(RenderFile(d))
  {
    hide Render, FileHeader, GreedyMatch.FindFrom;
    RenderEnds(d.hunk);
  }

  // The final newline dropped from a shown diff is the only text dropped.
  lemma {:induction false} ShownWithNewline(ds: seq<FileDiff>)
    requires ds != []
    ensures EndsWithNewline(RenderPatch(ds)) && ShownDiff(ds) + NL == RenderPatch(ds)
  {
    hide RenderFile;
    FileEnds(ds[0]);
    if |ds| == 1 {
      assert RenderPatch(ds[1..]) == "";
    } else {
      ShownWithNewline(ds[1..]);
    }
  }

  // The path rules allow a newline, so such a patch can be shown.
  lemma NewlinePathIsMisread(h: Hunk)
    requires SingleLines(h.lines)
    ensures var ds := [FileDiff("a\nb", false, h)]; ParsePatch(RenderPatch(ds)) != Some(ds)
  {
    var ds := [FileDiff("a\nb", false, h)];
    hide ParsePatch, RenderPatch, SingleLines;
    PatchReadsBackIff(ds);
    assert "a\nb"[1] == '\n';
    assert '\n' in ds[0].path;
  }

  // ------------------------------------------------------- Applying

  // A line with its terminator, as a patch tool sees it.
  datatype Raw = Raw(text: string, ended: bool)

  function RawAt(lines: seq<string>, ends: bool, i: nat): Raw
    requires i < |lines|
  {
    Raw(lines[i], !(i == |lines| - 1 && !ends))
  }

  function Raws(lines: seq<string>, ends: bool): (rs: seq<Raw>)
    ensures |rs| == |lines| && forall i :: 0 <= i < |rs| ==> rs[i] == RawAt(lines, ends, i)
  {
    seq(|lines|, i requires 0 <= i < |lines| => RawAt(lines, ends, i))
  }

  function TextOf(l: HunkLine): string { l.text }

  function RawOf(l: HunkLine): Raw { Raw(l.text, !l.noNewline) }

  // The hunk's lines except those of one kind.
  function Side<T>(ls: seq<HunkLine>, dropped: Kind, view: HunkLine -> T): seq<T> {
    if ls == [] then []
    else (if ls[0].kind == dropped then [] else [view(ls[0])]) + Side(ls[1..], dropped, view)
  }

  // Applies a hunk to a file's lines. It is refused unless the header counts and
  // start lines agree with its lines and the old side matches the file there.
  function Patch<T(==)>(file: seq<T>, h: Hunk, view: HunkLine -> T): Option<seq<T>> {
    var removed, added := Side(h.lines, Insert, view), Side(h.lines, Delete, view);
    if |removed| != h.oldCount || |added| != h.newCount || (h.oldCount > 0 && h.oldStart == 0) then None
    else
      var at: nat := if h.oldCount == 0 then h.oldStart else h.oldStart - 1;
      if at + h.oldCount > |file| || file[at..at + h.oldCount] != removed
          || h.newStart != (if h.newCount == 0 then at else at + 1)
      then None
      else Some(file[..at] + added + file[at + h.oldCount..])
  }

  lemma {:induction false} SideAppend<T>(xs: seq<HunkLine>, ys: seq<HunkLine>, dropped: Kind, view: HunkLine -> T)
    ensures Side(xs + ys, dropped, view) == Side(xs, dropped, view) + Side(ys, dropped, view)
  {
    if xs == [] {
      assert xs + ys == ys;
    } else {
      assert (xs + ys)[1..] == xs[1..] + ys;
      SideAppend(xs[1..], ys, dropped, view);
    }
  }

  function View<T>(ls: seq<HunkLine>, view: HunkLine -> T): (vs: seq<T>)
    ensures |vs| == |ls| && forall i :: 0 <= i < |vs| ==> vs[i] == view(ls[i])
  {
    seq(|ls|, i requires 0 <= i < |ls| => view(ls[i]))
  }

  lemma {:induction false} SideOfOneKind<T>(ls: seq<HunkLine>, kind: Kind, dropped: Kind, view: HunkLine -> T)
    requires forall i :: 0 <= i < |ls| ==> ls[i].kind == kind
    ensures kind == dropped ==> Side(ls, dropped, view) == []
    ensures kind != dropped ==> Side(ls, dropped, view) == View(ls, view)
  {
    if ls != [] { SideOfOneKind(ls[1..], kind, dropped, view); }
  }

  lemma SideOfFour<T>(w: seq<HunkLine>, x: seq<HunkLine>, y: seq<HunkLine>, z: seq<HunkLine>, dropped: Kind,
                      view: HunkLine -> T)
    ensures Side(w + x + y + z, dropped, view) ==
            Side(w, dropped, view) + Side(x, dropped, view) + Side(y, dropped, view) + Side(z, dropped, view)
  {
    hide Side;
    SideAppend(w + x + y, z, dropped, view);
    SideAppend(w + x, y, dropped, view);
    SideAppend(w, x, dropped, view);
  }

  lemma SidesOfRuns<T>(c1: seq<HunkLine>, d: seq<HunkLine>, i: seq<HunkLine>, c2: seq<HunkLine>, view: HunkLine -> T)
    requires forall k :: 0 <= k < |c1| ==> c1[k].kind == Context
    requires forall k :: 0 <= k < |d| ==> d[k].kind == Delete
    requires forall k :: 0 <= k < |i| ==> i[k].kind == Insert
    requires forall k :: 0 <= k < |c2| ==> c2[k].kind == Context
    ensures Side(c1, Insert, view) == Side(c1, Delete, view) == View(c1, view)
    ensures Side(d, Insert, view) == View(d, view) && Side(d, Delete, view) == []
    ensures Side(i, Delete, view) == View(i, view) && Side(i, Insert, view) == []
    ensures Side(c2, Insert, view) == Side(c2, Delete, view) == View(c2, view)
  {
    SideOfOneKind(c1, Context, Insert, view); SideOfOneKind(c1, Context, Delete, view);
    SideOfOneKind(d, Delete, Insert, view); SideOfOneKind(d, Delete, Delete, view);
    SideOfOneKind(i, Insert, Insert, view); SideOfOneKind(i, Insert, Delete, view);
    SideOfOneKind(c2, Context, Insert, view); SideOfOneKind(c2, Context, Delete, view);
  }

  // The four runs of a hunk, seen from one side.
  lemma SideOfHunk<T>(c1: seq<HunkLine>, d: seq<HunkLine>, i: seq<HunkLine>, c2: seq<HunkLine>, view: HunkLine -> T)
    requires forall k :: 0 <= k < |c1| ==> c1[k].kind == Context
    requires forall k :: 0 <= k < |d| ==> d[k].kind == Delete
    requires forall k :: 0 <= k < |i| ==> i[k].kind == Insert
    requires forall k :: 0 <= k < |c2| ==> c2[k].kind == Context
    ensures Side(c1 + d + i + c2, Insert, view) == View(c1, view) + View(d, view) + View(c2, view)
    ensures Side(c1 + d + i + c2, Delete, view) == View(c1, view) + View(i, view) + View(c2, view)
  {
    hide Side, View;
    SideOfFour(c1, d, i, c2, Insert, view);
    SideOfFour(c1, d, i, c2, Delete, view);
    SidesOfRuns(c1, d, i, c2, view);
    var none: seq<T> := [];
    assert View(c1, view) + View(d, view) + none == View(c1, view) + View(d, view);
    assert View(c1, view) + none == View(c1, view);
  }

  lemma PatchWith<T>(file: seq<T>, h: Hunk, view: HunkLine -> T, at: nat)
    requires at + h.oldCount <= |file|
    requires |Side(h.lines, Insert, view)| == h.oldCount && |Side(h.lines, Delete, view)| == h.newCount
    requires h.oldStart == (if h.oldCount == 0 then at else at + 1)
             && h.newStart == (if h.newCount == 0 then at else at + 1)
    ensures Patch(file, h, view) == if file[at..at + h.oldCount] == Side(h.lines, Insert, view)
              then Some(file[..at] + Side(h.lines, Delete, view) + file[at + h.oldCount..]) else None
  {
    hide Side;
  }

  lemma KindsOf(e: Edit)
    requires e.Fits()
    ensures forall k :: 0 <= k < |e.Head()| ==> e.Head()[k].kind == Context
    ensures forall k :: 0 <= k < |e.Removed()| ==> e.Removed()[k].kind == Delete
    ensures forall k :: 0 <= k < |e.Inserted()| ==> e.Inserted()[k].kind == Insert
    ensures forall k :: 0 <= k < |e.Tail()| ==> e.Tail()[k].kind == Context
  {
  }

  // What applying the printed hunk to any file of the old length does.
  lemma PatchOfHunk<T>(file: seq<T>, e: Edit, view: HunkLine -> T)
    requires e.Fits() && |file| == |e.a|
    ensures Patch(file, e.ToHunk(), view) ==
              if file[e.Start()..e.AEnd()] == View(e.Head(), view) + View(e.Removed(), view) + View(e.Tail(), view)
              then Some(file[..e.Start()] + (View(e.Head(), view) + View(e.Inserted(), view) +
                  View(e.Tail(), view)) + file[e.AEnd()..])
              else None
  {
    hide Edit.Head, Edit.Removed, Edit.Inserted, Edit.Tail, Side, Patch;
    KindsOf(e);
    SideOfHunk(e.Head(), e.Removed(), e.Inserted(), e.Tail(), view);
    PatchWith(file, e.ToHunk(), view, e.Start());
  }

  lemma MarkedTexts(kind: Kind, lines: seq<string>, lo: nat, hi: nat, flag: bool)
    requires lo <= hi <= |lines|
    ensures View(Marked(kind, lines, lo, hi, flag), TextOf) == lines[lo..hi]
  {
  }

  lemma TextViews(e: Edit)
    requires e.Fits()
    ensures View(e.Head(), TextOf) == e.a[e.Start()..e.prefix]
    ensures View(e.Removed(), TextOf) == e.a[e.prefix..e.AChangeEnd()]
    ensures View(e.Inserted(), TextOf) == e.b[e.prefix..e.BChangeEnd()]
    ensures View(e.Tail(), TextOf) == e.a[e.AChangeEnd()..e.AEnd()]
  {
    hide Marked, View;
    MarkedTexts(Context, e.a, e.Start(), e.prefix, !e.aEnds);
    MarkedTexts(Delete, e.a, e.prefix, e.AChangeEnd(), !e.aEnds);
    MarkedTexts(Insert, e.b, e.prefix, e.BChangeEnd(), !e.bEnds);
    MarkedTexts(Context, e.a, e.AChangeEnd(), e.AEnd(), !e.aEnds && !e.bEnds);
  }

  // Three consecutive slices.
  lemma Slices<T>(s: seq<T>, i: nat, j: nat, k: nat, l: nat)
    requires i <= j <= k <= l <= |s|
    ensures s[i..j] + s[j..k] + s[k..l] == s[i..l]
  {
  }

  lemma Spliced(a: seq<string>, b: seq<string>, s: Span, start: nat, aEnd: nat)
    requires SpanOk(a, b, s) && start <= s.prefix && |a| - s.suffix <= aEnd <= |a|
    ensures a[..start] + (a[start..s.prefix] + b[s.prefix..|b| - s.suffix] + a[|a| - s.suffix..aEnd]) + a[aEnd..] == b
  {
    assert a[..s.prefix] == b[..s.prefix];
    assert a[|a| - s.suffix..] == b[|b| - s.suffix..];
    assert a[|a| - s.suffix..aEnd] + a[aEnd..] == a[|a| - s.suffix..];
    assert a[..start] + a[start..s.prefix] == a[..s.prefix];
    assert b == b[..s.prefix] + b[s.prefix..|b| - s.suffix] + b[|b| - s.suffix..];
  }

  // The hunk maps the old lines to the new lines, whatever the two files are.
  lemma DiffIsLineExact(before: string, after: string)
    ensures Patch(Lines(before), DiffHunk(before, after), TextOf) == Some(Lines(after))
  {
    hide Lines, Patch, EditOf, SpanOk, Edit.ToHunk, Edit.Head, Edit.Removed, Edit.Inserted, Edit.Tail, View;
    var e := EditOf(before, after);
    PatchOfHunk(e.a, e, TextOf);
    TextViews(e);
    Slices(e.a, e.Start(), e.prefix, e.AChangeEnd(), e.AEnd());
    assert DiffHunk(before, after) == e.ToHunk();
    Spliced(e.a, e.b, Span(e.prefix, e.suffix), e.Start(), e.AEnd());
  }

  // ------------------------------------------------------- Final newlines

  // The printed hunk reproduces the new file byte for byte exactly when this holds:
  // a shared last line must not change its terminator, and an unterminated last line
  // must not end up as leading context.
  predicate ByteExact(e: Edit) {
    if e.suffix > 0 then e.aEnds == e.bEnds
    else (0 < e.prefix == |e.a| ==> e.aEnds) && (0 < e.prefix == |e.b| ==> e.bEnds)
  }

  lemma MarkedRaws(kind: Kind, lines: seq<string>, ends: bool, lo: nat, hi: nat)
    requires lo <= hi <= |lines|
    ensures View(Marked(kind, lines, lo, hi, !ends), RawOf) == Raws(lines, ends)[lo..hi]
  {
  }

  lemma RawViews(e: Edit)
    requires e.Fits()
    ensures View(e.Head(), RawOf) == Raws(e.a, e.aEnds)[e.Start()..e.prefix]
    ensures View(e.Removed(), RawOf) == Raws(e.a, e.aEnds)[e.prefix..e.AChangeEnd()]
    ensures View(e.Inserted(), RawOf) == Raws(e.b, e.bEnds)[e.prefix..e.BChangeEnd()]
    ensures |View(e.Tail(), RawOf)| == e.AEnd() - e.AChangeEnd()
    ensures forall i :: 0 <= i < |View(e.Tail(), RawOf)| ==>
              View(e.Tail(), RawOf)[i] == RawAt(e.a, e.aEnds || e.bEnds, e.AChangeEnd() + i)
  {
    hide Marked, View, RawAt;
    MarkedRaws(Context, e.a, e.aEnds, e.Start(), e.prefix);
    MarkedRaws(Delete, e.a, e.aEnds, e.prefix, e.AChangeEnd());
    MarkedRaws(Insert, e.b, e.bEnds, e.prefix, e.BChangeEnd());
    MarkedRaws(Context, e.a, e.aEnds || e.bEnds, e.AChangeEnd(), e.AEnd());
  }

  // Patching succeeds when the trailing context matches, and is exact when moreover
  // both ends of the new file come out right.
  lemma ExactInParts<T>(ra: seq<T>, rb: seq<T>, tail: seq<T>, start: nat, p: nat, aChangeEnd: nat, aEnd: nat,
                        bChangeEnd: nat)
    requires start <= p <= aChangeEnd <= aEnd <= |ra| && p <= bChangeEnd <= |rb|
    requires |tail| == aEnd - aChangeEnd && |ra| - aChangeEnd == |rb| - bChangeEnd
    ensures ra[start..aEnd] == ra[start..p] + ra[p..aChangeEnd] + tail <==> tail == ra[aChangeEnd..aEnd]
    ensures ra[..start] + (ra[start..p] + rb[p..bChangeEnd] + tail) + ra[aEnd..] == rb <==>
            ra[..p] == rb[..p] && tail + ra[aEnd..] == rb[bChangeEnd..]
  {
    Slices(ra, start, p, aChangeEnd, aEnd);
    assert ra[start..p] + ra[p..aChangeEnd] == ra[start..aChangeEnd];
    assert ra[start..aEnd] == ra[start..aChangeEnd] + ra[aChangeEnd..aEnd];
    var result := ra[..start] + (ra[start..p] + rb[p..bChangeEnd] + tail) + ra[aEnd..];
    assert result == ra[..p] + rb[p..bChangeEnd] + (tail + ra[aEnd..]);
    assert rb == rb[..p] + rb[p..bChangeEnd] + rb[bChangeEnd..];
    assert result[..p] == ra[..p] && result[bChangeEnd..] == tail + ra[aEnd..];
  }

  lemma LeadingLines(e: Edit)
    requires e.Fits() && SpanOk(e.a, e.b, Span(e.prefix, e.suffix))
    ensures Raws(e.a, e.aEnds)[..e.prefix] == Raws(e.b, e.bEnds)[..e.prefix] <==>
            (0 < e.prefix == |e.a| ==> e.aEnds || (|e.a| == |e.b| && !e.bEnds)) &&
            (0 < e.prefix == |e.b| ==> e.bEnds || (|e.a| == |e.b| && !e.aEnds))
  {
    var x, y := Raws(e.a, e.aEnds)[..e.prefix], Raws(e.b, e.bEnds)[..e.prefix];
    assert forall i :: 0 <= i < e.prefix ==> x[i] == RawAt(e.a, e.aEnds, i) && y[i] == RawAt(e.b, e.bEnds, i);
    if e.prefix > 0 && x == y { assert x[e.prefix - 1] == y[e.prefix - 1]; }
  }

  lemma SameSuffix(e: Edit)
    requires e.Fits() && SpanOk(e.a, e.b, Span(e.prefix, e.suffix)) && (e.suffix == 0 || e.aEnds == e.bEnds)
    ensures Raws(e.a, e.aEnds)[|e.a| - e.suffix..] == Raws(e.b, e.bEnds)[|e.b| - e.suffix..]
  {
    var x, y := Raws(e.a, e.aEnds)[|e.a| - e.suffix..], Raws(e.b, e.bEnds)[|e.b| - e.suffix..];
    forall i | 0 <= i < e.suffix ensures x[i] == y[i] {
      var j := |e.a| - e.suffix + i;
      assert x[i] == RawAt(e.a, e.aEnds, j) && y[i] == RawAt(e.b, e.bEnds, j + |e.b| - |e.a|);
    }
  }

  lemma SharedEnds(e: Edit, tail: seq<Raw>)
    requires e.Fits() && SpanOk(e.a, e.b, Span(e.prefix, e.suffix)) && |tail| == e.AEnd() - e.AChangeEnd()
    requires forall i :: 0 <= i < |tail| ==> tail[i] == RawAt(e.a, e.aEnds || e.bEnds, e.AChangeEnd() + i)
    requires e.suffix == 0 || e.aEnds == e.bEnds
    ensures tail == Raws(e.a, e.aEnds)[e.AChangeEnd()..e.AEnd()]
    ensures tail + Raws(e.a, e.aEnds)[e.AEnd()..] == Raws(e.b, e.bEnds)[e.BChangeEnd()..]
  {
    hide SpanOk;
    var ra := Raws(e.a, e.aEnds);
    assert tail == ra[e.AChangeEnd()..e.AEnd()];
    assert ra[e.AChangeEnd()..e.AEnd()] + ra[e.AEnd()..] == ra[e.AChangeEnd()..];
    SameSuffix(e);
  }

  // With shared last lines, both sides of the trailing context agree only on equal flags.
  lemma TrailingLines(e: Edit, tail: seq<Raw>)
    requires e.Fits() && SpanOk(e.a, e.b, Span(e.prefix, e.suffix)) && |tail| == e.AEnd() - e.AChangeEnd()
    requires forall i :: 0 <= i < |tail| ==> tail[i] == RawAt(e.a, e.aEnds || e.bEnds, e.AChangeEnd() + i)
    ensures var ra, rb := Raws(e.a, e.aEnds), Raws(e.b, e.bEnds);
            (tail == ra[e.AChangeEnd()..e.AEnd()] && tail + ra[e.AEnd()..] == rb[e.BChangeEnd()..]) <==>
            (e.suffix == 0 || e.aEnds == e.bEnds)
  {
    hide SpanOk;
    var ra, rb := Raws(e.a, e.aEnds), Raws(e.b, e.bEnds);
    var x, y := tail + ra[e.AEnd()..], rb[e.BChangeEnd()..];
    assert |x| == |y| == e.suffix;
    if e.suffix > 0 {
      var last := e.suffix - 1;
      assert x[last] == Raw(e.a[|e.a| - 1], e.aEnds || (last < |tail| && e.bEnds));
      assert y[last] == Raw(e.b[|e.b| - 1], e.bEnds);
      if last < |tail| { assert ra[e.AChangeEnd()..e.AEnd()][last] == Raw(e.a[|e.a| - 1], e.aEnds); }
    }
    if e.suffix == 0 || e.aEnds == e.bEnds { SharedEnds(e, tail); }
  }

  // Different files never share all their lines and their last terminator.
  lemma FlagsOfSpan(before: string, after: string)
    requires before != after
    ensures var e := EditOf(before, after); !(e.prefix == |e.a| == |e.b|)
  {
    var a, b := Lines(before), Lines(after);
    ContentFromLines(before, after);
    assert CommonPrefix(a, b, 0) == |a| == |b| ==> a == b;
  }

  lemma DiffIsByteExactIff(before: string, after: string)
    requires before != after
    ensures var e := EditOf(before, after);
            Patch(Raws(e.a, e.aEnds), DiffHunk(before, after), RawOf) == Some(Raws(e.b, e.bEnds)) <==> ByteExact(e)
  {
    hide Lines, Patch, EditOf, SpanOk, Edit.ToHunk, Edit.Head, Edit.Removed, Edit.Inserted, Edit.Tail, View;
    var e := EditOf(before, after);
    var ra, rb := Raws(e.a, e.aEnds), Raws(e.b, e.bEnds);
    PatchOfHunk(ra, e, RawOf);
    RawViews(e);
    var tail := View(e.Tail(), RawOf);
    ExactInParts(ra, rb, tail, e.Start(), e.prefix, e.AChangeEnd(), e.AEnd(), e.BChangeEnd());
    LeadingLines(e);
    TrailingLines(e, tail);
    FlagsOfSpan(before, after);
  }

  // Files that are empty or newline-terminated, or that differ only in the final
  // newline, are always reproduced byte for byte.
  lemma {:induction false} TerminatedFilesAreExact(before: string, after: string)
    requires before != after
    requires ((before == "" || EndsWithNewline(before)) && (after == "" || EndsWithNewline(after)))
             || Lines(before) == Lines(after)
    ensures ByteExact(EditOf(before, after))
  {
    var a, b := Lines(before), Lines(after);
    ContentFromLines(before, after);
    if a == b {
      var p := CommonPrefix(a, b, 0);
      assert p == |a|;
    }
  }

  lemma SplitsOfSmallFiles()
    ensures Split("a") == ["a"] && Split("a\nb") == ["a", "b"] && Split("x\nb") == ["x", "b"]
  {
    assert Split("b") == ["b"] by { assert "b"[1..] == ""; }
    assert Split("\nb") == ["", "b"] by { assert "\nb"[1..] == "b"; }
    assert Split("a\nb") == ["a", "b"] by {
      assert "a\nb"[1..] == "\nb" && ["", "b"][1..] == ["b"] && ['a'] + "" == "a";
    }
    assert Split("x\nb") == ["x", "b"] by {
      assert "x\nb"[1..] == "\nb" && ["", "b"][1..] == ["b"] && ['x'] + "" == "x";
    }
    assert Split("a") == ["a"] by { assert "a"[1..] == ""; }
  }

  lemma SuffixLosesNewline()
    ensures !ByteExact(EditOf("a\nb", "x\nb\n"))
  {
    hide Split;
    SplitsOfSmallFiles();
    assert Lines("a\nb") == ["a", "b"];
    assert Lines("x\nb\n") == ["x", "b"] by { assert "x\nb\n"[..3] == "x\nb"; }
    assert CommonPrefix(["a", "b"], ["x", "b"], 0) == 0 by { assert "a"[0] != "x"[0]; }
    assert CommonSuffix(["a", "b"], ["x", "b"], 0, 0) == 1 by {
      assert CommonSuffix(["a", "b"], ["x", "b"], 0, 1) == 1 by { assert "a"[0] != "x"[0]; }
    }
  }

  lemma PrefixLosesNewline()
    ensures !ByteExact(EditOf("a", "a\nb"))
  {
    hide Split;
    SplitsOfSmallFiles();
    assert Lines("a\nb") == ["a", "b"] && Lines("a") == ["a"];
    assert CommonPrefix(["a"], ["a", "b"], 0) == 1;
  }

  // The exceptions are real: a lost final newline in trailing context, and a marker
  // printed on a leading context line.
  lemma UnterminatedFilesCanLoseBytes()
    ensures !ByteExact(EditOf("a\nb", "x\nb\n"))
    ensures !ByteExact(EditOf("a", "a\nb"))
  {
    SuffixLosesNewline();
    PrefixLosesNewline();
  }

  lemma SingleAppend(w: seq<HunkLine>, x: seq<HunkLine>, y: seq<HunkLine>, z: seq<HunkLine>)
    requires SingleLines(w) && SingleLines(x) && SingleLines(y) && SingleLines(z)
    ensures SingleLines(w + x + y + z)
  {
  }

  lemma LinesAreSingle(content: string)
    ensures forall i :: 0 <= i < |Lines(content)| ==> '\n' !in Lines(content)[i]
  {
  }

  lemma HunkLinesAreSingle(before: string, after: string)
    ensures SingleLines(DiffHunk(before, after).lines)
  {
    hide Lines, SpanOk, SpanOf;
    var e := EditOf(before, after);
    LinesAreSingle(before);
    LinesAreSingle(after);
    assert SingleLines(e.Head()) && SingleLines(e.Removed()) && SingleLines(e.Inserted()) && SingleLines(e.Tail());
    SingleAppend(e.Head(), e.Removed(), e.Inserted(), e.Tail());
  }

  // The printed hunk, parsed back and applied: it always maps old lines to new lines,
  // and old bytes to new bytes exactly under ByteExact.
  lemma PrintedDiffApplies(before: string, after: string)
    ensures Parse(Render(DiffHunk(before, after))) == Some((DiffHunk(before, after), ""))
    ensures Patch(Lines(before), Parse(Render(DiffHunk(before, after))).value.0, TextOf) == Some(Lines(after))
    ensures before != after ==>
      var e := EditOf(before, after);
      (Patch(Raws(e.a, e.aEnds), Parse(Render(DiffHunk(before, after))).value.0, RawOf) == Some(Raws(e.b, e.bEnds)) <==>
          ByteExact(e))
  {
    hide Parse, Render, Patch, DiffHunk, EditOf, ByteExact, Lines, SingleLines;
    HunkLinesAreSingle(before, after);
    ParseRender(DiffHunk(before, after), "");
    assert Render(DiffHunk(before, after)) + "" == Render(DiffHunk(before, after));
    DiffIsLineExact(before, after);
    if before != after { DiffIsByteExactIff(before, after); }
  }

  // Terminated lines determine the file's bytes.
  lemma RawsDetermineContent(before: string, after: string)
    ensures before == after <==>
              Raws(Lines(before), EndsWithNewline(before)) == Raws(Lines(after), EndsWithNewline(after))
  {
    hide Lines;
    var a, b := Lines(before), Lines(after);
    var ra, rb := Raws(a, EndsWithNewline(before)), Raws(b, EndsWithNewline(after));
    ContentFromLines(before, after);
    if ra == rb {
      assert |a| == |b|;
      forall i | 0 <= i < |a| ensures a[i] == b[i] { assert ra[i] == rb[i]; }
      if |a| > 0 { assert ra[|a| - 1] == rb[|a| - 1]; } else { NoLines(before); NoLines(after); }
    }
  }

  // ------------------------------------------------------- The builder

  method WriteChangeDiffLine(output: string, kind: Kind, line: string, noNewline: bool) returns (output': string)
    ensures output' == output + RenderLine(HunkLine(kind, line, noNewline))
  {
    output' := output + [Symbol(kind)] + line + NL;
    if noNewline { output' := output' + MARKER; }
    assert output' == output + RenderLine(HunkLine(kind, line, noNewline));
  }

  lemma RenderOneLine(l: HunkLine)
    ensures RenderLines([l]) == RenderLine(l)
  {
    assert [l][1..] == [];
  }

  // One of the builder's four loops.
  method WriteRun(output: string, kind: Kind, lines: seq<string>, lo: nat, hi: nat, flag: bool)
    returns (output': string)
    requires lo <= hi <= |lines|
    ensures output' == output + RenderLines(Marked(kind, lines, lo, hi, flag))
  {
    output' := output;
    hide MARKER, RenderLine;
    var index := lo;
    assert output' == output + RenderLines(Marked(kind, lines, lo, lo, flag));
    while index < hi
      invariant lo <= index <= hi
      invariant output' == output + RenderLines(Marked(kind, lines, lo, index, flag))
    {
      ghost var done := Marked(kind, lines, lo, index, flag);
      ghost var l := HunkLine(kind, lines[index], index == |lines| - 1 && flag);
      RenderLinesAppend(done, [l]);
      RenderOneLine(l);
      output' := WriteChangeDiffLine(output', kind, lines[index], index == |lines| - 1 && flag);
      index := index + 1;
    }
  }

  lemma RunsRender(intro: string, w: seq<HunkLine>, x: seq<HunkLine>, y: seq<HunkLine>, z: seq<HunkLine>)
    ensures intro + RenderLines(w) + RenderLines(x) + RenderLines(y) + RenderLines(z) ==
              intro + RenderLines(w + x + y + z)
  {
    hide RenderLines;
    RenderLinesAppend(w + x + y, z);
    RenderLinesAppend(w + x, y);
    RenderLinesAppend(w, x);
  }

  // The builder's four loops.
  method WriteRuns(intro: string, e: Edit) returns (output: string)
    requires e.Fits()
    ensures output == intro + RenderLines(e.ToHunk().lines)
  {
    hide RenderLines, Marked;
    output := WriteRun(intro, Context, e.a, e.Start(), e.prefix, !e.aEnds);
    output := WriteRun(output, Delete, e.a, e.prefix, e.AChangeEnd(), !e.aEnds);
    output := WriteRun(output, Insert, e.b, e.prefix, e.BChangeEnd(), !e.bEnds);
    output := WriteRun(output, Context, e.a, e.AChangeEnd(), e.AEnd(), !e.aEnds && !e.bEnds);
    RunsRender(intro, e.Head(), e.Removed(), e.Inserted(), e.Tail());
  }

  // The header numbers, computed as the builder does.
  method HunkCounts(a: seq<string>, b: seq<string>, prefix: nat, suffix: nat)
    returns (aStartLine: nat, aCount: nat, bStartLine: nat, bCount: nat)
    requires prefix + suffix <= |a| && prefix + suffix <= |b|
    ensures forall aEnds, bEnds :: var h := Edit(a, aEnds, b, bEnds, prefix, suffix).ToHunk();
              aStartLine == h.oldStart && aCount == h.oldCount && bStartLine == h.newStart && bCount == h.newCount
  {
    hide Marked;
    var start: int := prefix;
    start := start - 3;
    if start < 0 { start := 0; }
    var aEnd := |a| - suffix + 3;
    if aEnd > |a| { aEnd := |a|; }
    var bEnd := |b| - suffix + 3;
    if bEnd > |b| { bEnd := |b|; }
    aStartLine, bStartLine := start + 1, start + 1;
    if |a| == 0 { aStartLine := 0; }
    if |b| == 0 { bStartLine := 0; }
    aCount, bCount := aEnd - start, bEnd - start;
  }

  lemma Assembled(header: string, h: Hunk)
    ensures header + RenderCounts(h) + RenderLines(h.lines) == header + Render(h)
  {
    hide RenderCounts, RenderLines;
  }

  lemma CountsOnly(g: Hunk, h: Hunk)
    requires g.(lines := h.lines) == h
    ensures RenderCounts(g) == RenderCounts(h)
  {
  }

  // The two counting loops and the final-newline adjustment.
  method FindSpan(a: seq<string>, aEnds: bool, b: seq<string>, bEnds: bool) returns (prefix: nat, suffix: nat)
    ensures Span(prefix, suffix) == SpanOf(a, aEnds, b, bEnds)
  {
    prefix := 0;
    while prefix < |a| && prefix < |b| && a[prefix] == b[prefix]
      invariant prefix <= |a| && prefix <= |b|
      invariant CommonPrefix(a, b, 0) == CommonPrefix(a, b, prefix)
    {
      prefix := prefix + 1;
    }
    suffix := 0;
    while suffix < |a| - prefix && suffix < |b| - prefix && a[|a| - 1 - suffix] == b[|b| - 1 - suffix]
      invariant prefix + suffix <= |a| && prefix + suffix <= |b|
      invariant CommonSuffix(a, b, prefix, 0) == CommonSuffix(a, b, prefix, suffix)
    {
      suffix := suffix + 1;
    }
    if prefix == |a| && prefix == |b| && aEnds != bEnds && prefix > 0 {
      prefix := prefix - 1;
      suffix := 0;
    }
  }

  method BuildHostUnifiedDiff(path: string, before: string, after: string) returns (output: string)
    ensures output == FileHeader(path) + Render(DiffHunk(before, after))
  {
    hide Lines, EndsWithNewline, FileHeader, Render, RenderCounts, RenderLines, SpanOf, SpanOk, Edit.ToHunk;
    var a, aEnds := Lines(before), EndsWithNewline(before);
    var b, bEnds := Lines(after), EndsWithNewline(after);
    var prefix, suffix := FindSpan(a, aEnds, b, bEnds);
    var e := Edit(a, aEnds, b, bEnds, prefix, suffix);
    assert e == EditOf(before, after);
    var aStartLine, aCount, bStartLine, bCount := HunkCounts(a, b, prefix, suffix);
    var counts := Hunk(aStartLine, aCount, bStartLine, bCount, []);
    var intro := FileHeader(path) + RenderCounts(counts);
    output := WriteRuns(intro, e);
    CountsOnly(counts, e.ToHunk());
    Assembled(FileHeader(path), e.ToHunk());
  }

  // The change of a path; what a created file held before does not matter.
  function FileDiffOf(path: string, before: string, after: string, created: bool): FileDiff {
    FileDiff(path, created, DiffHunk(if created then "" else before, after))
  }

  method BuildHostUnifiedDiffForOperation(path: string, before: string, after: string, created: bool)
    returns (output: string)
    ensures output == RenderFile(FileDiffOf(path, before, after, created))
  {
    hide Render, DiffHunk, GreedyMatch.ReplaceFirst;
    if !created {
      output := BuildHostUnifiedDiff(path, before, after);
      return;
    }
    var diff := BuildHostUnifiedDiff(path, "", after);
    output := GreedyMatch.ReplaceFirst(diff, OldLine(path), ABSENT);
  }
}
