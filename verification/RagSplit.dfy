// The overlapping text splitter of the retrieval index.

module RagSplit {
  import Text

  // Runes lo..hi of the trimmed text.
  datatype Window = Window(lo: nat, hi: nat)

  predicate NoSpace(runes: string, from: nat, to: nat)
    requires to <= |runes|
  {
    forall k :: from <= k < to ==> !Text.IsSpace(runes[k])
  }

  predicate CutAt(runes: string, w: Window, chunkRunes: nat)
    requires w.lo < w.hi <= w.lo + chunkRunes <= |runes|
  {
    w.hi > w.lo + chunkRunes / 2 && Text.IsSpace(runes[w.hi - 1]) && NoSpace(runes, w.hi, w.lo + chunkRunes)
  }

  // A window that would not reach the end of the text is cut after the last space of its
  // second half, or is full if there is none.
  ghost predicate WindowOk(runes: string, w: Window, chunkRunes: nat) {
    && w.lo < w.hi <= |runes| && w.hi <= w.lo + chunkRunes
    && if w.lo + chunkRunes >= |runes| then w.hi == |runes|
       else CutAt(runes, w, chunkRunes) || (w.hi == w.lo + chunkRunes
                                            && NoSpace(runes, w.lo + chunkRunes / 2, w.lo + chunkRunes))
  }

  // The next window starts overlap runes before the end of this one, or at its end.
  ghost predicate Follows(w: Window, v: Window, overlapRunes: nat) {
    w.lo < v.lo <= w.hi && (v.lo == w.hi - overlapRunes || (v.lo == w.hi && w.hi - overlapRunes <= w.lo))
  }

  ghost predicate WindowsOk(runes: string, ws: seq<Window>, chunkRunes: nat, overlapRunes: nat) {
    && (forall i :: 0 <= i < |ws| ==> WindowOk(runes, ws[i], chunkRunes))
    && (forall i, j :: 0 <= i && j == i + 1 < |ws| ==> Follows(ws[i], ws[j], overlapRunes))
    && (ws != [] ==> ws[0].lo == 0)
    && (forall i :: 0 <= i < |ws| - 1 ==> ws[i].hi < |runes|)
  }

  lemma WindowIsUnique(runes: string, v: Window, w: Window, chunkRunes: nat)
    requires v.lo == w.lo && WindowOk(runes, v, chunkRunes) && WindowOk(runes, w, chunkRunes)
    ensures v == w
  {
  }

  lemma {:induction false} SplitsAgree(runes: string, vs: seq<Window>, ws: seq<Window>, chunkRunes: nat,
                                       overlapRunes: nat, n: nat)
    requires WindowsOk(runes, vs, chunkRunes, overlapRunes) && vs != [] && vs[|vs| - 1].hi == |runes|
    requires WindowsOk(runes, ws, chunkRunes, overlapRunes) && ws != [] && ws[|ws| - 1].hi == |runes|
    requires n <= |vs| <= |ws|
    ensures vs[..n] == ws[..n] && (n == |vs| ==> vs == ws)
  {
    hide WindowOk;
    if n > 0 {
      var k := n - 1;
      SplitsAgree(runes, vs, ws, chunkRunes, overlapRunes, k);
      assert vs[..n] == vs[..k] + [vs[k]] && ws[..n] == ws[..k] + [ws[k]];
      if k > 0 {
        assert vs[k - 1] == vs[..k][k - 1] == ws[..k][k - 1] == ws[k - 1];
        assert Follows(vs[k - 1], vs[k], overlapRunes) && Follows(ws[k - 1], ws[k], overlapRunes);
      }
      WindowIsUnique(runes, vs[k], ws[k], chunkRunes);
    }
  }

  // The windows up to the end of a text are determined by it.
  lemma SplitIsUnique(runes: string, vs: seq<Window>, ws: seq<Window>, chunkRunes: nat, overlapRunes: nat)
    requires WindowsOk(runes, vs, chunkRunes, overlapRunes) && vs != [] && vs[|vs| - 1].hi == |runes|
    requires WindowsOk(runes, ws, chunkRunes, overlapRunes) && ws != [] && ws[|ws| - 1].hi == |runes|
    ensures vs == ws
  {
    hide WindowsOk;
    if |vs| <= |ws| {
      SplitsAgree(runes, vs, ws, chunkRunes, overlapRunes, |vs|);
    } else {
      SplitsAgree(runes, ws, vs, chunkRunes, overlapRunes, |ws|);
    }
  }

  function Piece(runes: string, w: Window): string
    requires w.lo <= w.hi <= |runes|
  {
    Text.TrimSpace(runes[w.lo..w.hi])
  }

  // The trimmed, non-blank window texts.
  function Pieces(runes: string, ws: seq<Window>): seq<string>
    requires forall i :: 0 <= i < |ws| ==> ws[i].lo <= ws[i].hi <= |runes|
  {
    if ws == [] then []
    else
      var rest := Pieces(runes, ws[..|ws| - 1]);
      var piece := Piece(runes, ws[|ws| - 1]);
      if piece != "" then rest + [piece] else rest
  }

  predicate Covers(runes: string, chunk: string, lo: nat, p: nat) {
    lo <= p < lo + |chunk| <= |runes| && chunk == runes[lo..lo + |chunk|]
  }

  // The position lies in a returned chunk, which is a stretch of the text.
  ghost predicate Kept(runes: string, chunks: seq<string>, p: nat) {
    exists i, lo: nat :: 0 <= i < |chunks| && Covers(runes, chunks[i], lo, p)
  }

  lemma KeptBy(runes: string, chunks: seq<string>, p: nat, chunk: string, lo: nat)
    requires chunk in chunks && Covers(runes, chunk, lo, p)
    ensures Kept(runes, chunks, p)
  {
    var i :| 0 <= i < |chunks| && chunks[i] == chunk;
  }

  lemma {:induction false} PiecesAreShort(runes: string, ws: seq<Window>, chunkRunes: nat)
    requires forall k :: 0 <= k < |ws| ==> ws[k].lo <= ws[k].hi <= |runes|
    requires forall k :: 0 <= k < |ws| ==> WindowOk(runes, ws[k], chunkRunes)
    ensures forall i :: 0 <= i < |Pieces(runes, ws)| ==> 0 < |Pieces(runes, ws)[i]| <= chunkRunes
  {
    hide Text.TrimSpace, Text.IsSpace;
    if ws != [] {
      var w := ws[|ws| - 1];
      PiecesAreShort(runes, ws[..|ws| - 1], chunkRunes);
      var k := Text.TrimSpaceParts(runes[w.lo..w.hi]);
    }
  }

  lemma NextFollows(w: Window, next: nat, overlapRunes: nat)
    requires w.lo < next <= w.hi && next == if w.hi - overlapRunes <= w.lo then w.hi else w.hi - overlapRunes
    ensures forall hi :: Follows(w, Window(next, hi), overlapRunes)
  {
  }

  // The end of the window that starts here, moved back to a space if its second half has one.
  method WindowEnd(runes: string, start: nat, chunkRunes: nat) returns (end: nat)
    requires chunkRunes > 0 && start < |runes|
    ensures start < end <= |runes| && WindowOk(runes, Window(start, end), chunkRunes)
  {
    hide Text.IsSpace;
    end := if start + chunkRunes < |runes| then start + chunkRunes else |runes|;
    if end < |runes| {
      var originalEnd := end;
      var minimumEnd := start + chunkRunes / 2;
      while end > minimumEnd && !Text.IsSpace(runes[end - 1])
        invariant minimumEnd <= end <= originalEnd && NoSpace(runes, end, originalEnd)
      {
        end := end - 1;
      }
      if end == minimumEnd { end := originalEnd; }
    }
  }

  lemma {:induction false} PiecesContain(runes: string, ws: seq<Window>, i: nat)
    requires forall k :: 0 <= k < |ws| ==> ws[k].lo <= ws[k].hi <= |runes|
    requires i < |ws| && Piece(runes, ws[i]) != ""
    ensures Piece(runes, ws[i]) in Pieces(runes, ws)
  {
    var n := |ws| - 1;
    if i < n { PiecesContain(runes, ws[..n], i); }
  }

  // Some window covers every position up to the last end.
  lemma {:induction false} WindowsCover(runes: string, ws: seq<Window>, chunkRunes: nat, overlapRunes: nat, p: nat)
    returns (i: nat)
    requires WindowsOk(runes, ws, chunkRunes, overlapRunes) && ws != [] && p < ws[|ws| - 1].hi
    ensures i < |ws| && ws[i].lo <= p < ws[i].hi
    decreases |ws|
  {
    var n := |ws| - 1;
    if ws[n].lo <= p {
      i := n;
    } else {
      assert Follows(ws[n - 1], ws[n], overlapRunes);
      i := WindowsCover(runes, ws[..n], chunkRunes, overlapRunes, p);
    }
  }

  lemma SliceOfSlice(s: string, lo: nat, hi: nat, i: nat, j: nat)
    requires lo <= hi <= |s| && i <= j <= hi - lo
    ensures s[lo..hi][i..j] == s[lo + i..lo + j]
  {
    assert forall k :: 0 <= k < j - i ==> s[lo..hi][i..j][k] == s[lo + i + k];
  }

  // Every non-space rune of the text lies in some returned chunk.
  lemma EveryRuneIsKept(runes: string, ws: seq<Window>, chunkRunes: nat, overlapRunes: nat, p: nat)
    returns (chunk: string, lo: nat)
    requires WindowsOk(runes, ws, chunkRunes, overlapRunes) && ws != [] && ws[|ws| - 1].hi == |runes|
    requires p < |runes| && !Text.IsSpace(runes[p])
    ensures chunk in Pieces(runes, ws)
    ensures lo <= p < lo + |chunk| <= |runes| && chunk == runes[lo..lo + |chunk|]
  {
    hide Text.IsSpace, Text.TrimLeft, Text.TrimRight, Pieces, Follows;
    var i := WindowsCover(runes, ws, chunkRunes, overlapRunes, p);
    assert WindowOk(runes, ws[i], chunkRunes);
    var text := runes[ws[i].lo..ws[i].hi];
    chunk := Piece(runes, ws[i]);
    var k := Text.TrimSpaceParts(text);
    lo := ws[i].lo + k;
    assert text[p - ws[i].lo] == runes[p];
    SliceOfSlice(runes, ws[i].lo, ws[i].hi, k, k + |chunk|);
    PiecesContain(runes, ws, i);
  }

  lemma NoWindows(runes: string, chunkRunes: nat, overlapRunes: nat)
    ensures WindowsOk(runes, [], chunkRunes, overlapRunes) && Pieces(runes, []) == []
  {
  }

  lemma OneMoreWindow(runes: string, ws: seq<Window>, w: Window, chunkRunes: nat, overlapRunes: nat)
    requires WindowsOk(runes, ws, chunkRunes, overlapRunes) && WindowOk(runes, w, chunkRunes)
    requires forall i :: 0 <= i < |ws| ==> ws[i].hi < |runes|
    requires if ws == [] then w.lo == 0 else Follows(ws[|ws| - 1], w, overlapRunes)
    ensures WindowsOk(runes, ws + [w], chunkRunes, overlapRunes)
  {
    hide WindowOk, Follows;
  }

  lemma OneMorePiece(runes: string, ws: seq<Window>, w: Window)
    requires (forall i :: 0 <= i < |ws| ==> ws[i].lo <= ws[i].hi <= |runes|) && w.lo <= w.hi <= |runes|
    ensures Pieces(runes, ws + [w]) ==
              Pieces(runes, ws) + var piece := Text.TrimSpace(runes[w.lo..w.hi]); if piece != "" then [piece] else []
  {
    hide Text.TrimSpace;
    assert (ws + [w])[..|ws|] == ws;
  }

  lemma WindowsAreOk(runes: string, ws: seq<Window>, chunkRunes: nat, overlapRunes: nat)
    requires WindowsOk(runes, ws, chunkRunes, overlapRunes)
    ensures forall i :: 0 <= i < |ws| ==> WindowOk(runes, ws[i], chunkRunes) && ws[i].lo <= ws[i].hi <= |runes|
  {
    hide CutAt, NoSpace;
  }

  // Terminates for every text, with windows that leave no gap and reach the end.
  method SplitRagText(text: string, chunkRunes: nat, overlapRunes: nat)
    returns (chunks: seq<string>, ghost windows: seq<Window>)
    requires chunkRunes > 0 && overlapRunes < chunkRunes
    ensures WindowsOk(Text.TrimSpace(text), windows, chunkRunes, overlapRunes)
    ensures Text.TrimSpace(text) == "" <==> windows == []
    ensures windows != [] ==> windows[|windows| - 1].hi == |Text.TrimSpace(text)|
    ensures chunks == Pieces(Text.TrimSpace(text), windows)
    ensures forall i :: 0 <= i < |chunks| ==> 0 < |chunks[i]| <= chunkRunes
    ensures forall p :: 0 <= p < |Text.TrimSpace(text)| && !Text.IsSpace(Text.TrimSpace(text)[p]) ==>
              Kept(Text.TrimSpace(text), chunks, p)
  {
    hide Text.TrimSpace, Text.IsSpace, Follows, Kept, WindowOk, WindowsOk, Pieces, Piece;
    NoWindows(Text.TrimSpace(text), chunkRunes, overlapRunes);
    var runes := Text.TrimSpace(text);
    chunks, windows := [], [];
    if |runes| == 0 { return; }
    var start := 0;
    while start < |runes|
      invariant start < |runes|
      invariant WindowsOk(runes, windows, chunkRunes, overlapRunes)
      invariant forall i :: 0 <= i < |windows| ==> windows[i].lo < windows[i].hi < |runes|
      invariant chunks == Pieces(runes, windows)
      invariant if windows == [] then start == 0
                else forall hi :: Follows(windows[|windows| - 1], Window(start, hi), overlapRunes)
      decreases |runes| - start
    {
      var end := WindowEnd(runes, start, chunkRunes);
      ghost var w := Window(start, end);
      OneMoreWindow(runes, windows, w, chunkRunes, overlapRunes);
      OneMorePiece(runes, windows, w);
      windows := windows + [w];
      var chunk := Text.TrimSpace(runes[start..end]);
      if chunk != "" { chunks := chunks + [chunk]; }
      if end == |runes| { break; }
      var next: int := end;
      next := next - overlapRunes;
      if next <= start { next := end; }
      NextFollows(w, next, overlapRunes);
      start := next;
    }
    WindowsAreOk(runes, windows, chunkRunes, overlapRunes);
    PiecesAreShort(runes, windows, chunkRunes);
    forall p | 0 <= p < |runes| && !Text.IsSpace(runes[p]) ensures Kept(runes, chunks, p) {
      var chunk, lo := EveryRuneIsKept(runes, windows, chunkRunes, overlapRunes, p);
      KeptBy(runes, chunks, p, chunk, lo);
    }
  }
}
