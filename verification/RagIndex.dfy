// The inverted index: term postings built from the chunks of a corpus, and its validation.
// Scores are reals; the tokenizer and the logarithm are parameters.

module RagIndex {
  import opened Wrappers
  import RagSplit
  import Text

  datatype Document = Document(id: string, title: string, text: string)

  datatype Chunk = Chunk(documentId: string, title: string, number: nat, text: string, tokens: nat)

  datatype Posting = Posting(chunk: nat, frequency: nat)

  datatype Host = Host(tokenize: string -> seq<string>, log: real -> real)

  const TITLE_BOOST: nat := 5
  const TITLE_SCORE: real := 3.0
  const K1: real := 1.2
  const B: real := 0.75

  // Terms are not blank; the logarithm is zero at one and strictly increasing.
  ghost predicate HostOk(h: Host) {
    && (forall s: string, i: nat :: i < |h.tokenize(s)| ==> Text.TrimSpace(h.tokenize(s)[i]) != "")
    && h.log(1.0) == 0.0 && (forall x: real, y: real :: 0.0 < x < y ==> h.log(x) < h.log(y))
  }

  function Count(terms: seq<string>, t: string): nat {
    if terms == [] then 0 else Count(terms[..|terms| - 1], t) + if terms[|terms| - 1] == t then 1 else 0
  }

  lemma {:induction false} CountPositive(terms: seq<string>, t: string)
    ensures Count(terms, t) > 0 <==> t in terms
  {
    if terms != [] {
      CountPositive(terms[..|terms| - 1], t);
      assert t in terms <==> t in terms[..|terms| - 1] || t == terms[|terms| - 1];
    }
  }

  // The places where the term stands.
  function Places(terms: seq<string>, t: string): set<int> {
    set i | 0 <= i < |terms| && terms[i] == t
  }

  lemma PlacesStep(terms: seq<string>, t: string)
    requires terms != []
    ensures var n := |terms| - 1;
            |Places(terms, t)| == |Places(terms[..n], t)| + if terms[n] == t then 1 else 0
  {
    var n := |terms| - 1;
    var before := Places(terms[..n], t);
    assert n !in before;
    assert Places(terms, t) == if terms[n] == t then before + {n} else before;
  }

  // The count is of the places where the term stands.
  lemma {:induction false} CountIsOccurrences(terms: seq<string>, t: string)
    ensures Count(terms, t) == |Places(terms, t)|
  {
    if terms == [] {
      assert Places(terms, t) == {};
    } else {
      hide Places;
      PlacesStep(terms, t);
      CountIsOccurrences(terms[..|terms| - 1], t);
    }
  }

  // How often a chunk counts for a term, by scanning its text and, for the first
  // chunk of a document, its title.
  function Frequency(h: Host, c: Chunk, t: string): nat {
    Count(h.tokenize(c.text), t) + if c.number == 0 then TITLE_BOOST * Count(h.tokenize(c.title), t) else 0
  }

  // ------------------------------------------------------- Postings

  ghost predicate ListOk(h: Host, chunks: seq<Chunk>, t: string, list: seq<Posting>) {
    && list != []
    && (forall i :: 0 <= i < |list| ==>
          list[i].chunk < |chunks| && list[i].frequency == Frequency(h, chunks[list[i].chunk], t)
              && list[i].frequency > 0)
    && (forall i, j :: 0 <= i < j < |list| ==> list[i].chunk < list[j].chunk)
  }

  ghost predicate Lists(list: seq<Posting>, c: nat) {
    exists i :: 0 <= i < |list| && list[i].chunk == c
  }

  // The postings are exactly the direct scan, grouped by term, in chunk order.
  ghost predicate Faithful(h: Host, chunks: seq<Chunk>, postings: map<string, seq<Posting>>) {
    && (forall t :: t in postings ==> Text.TrimSpace(t) != "" && ListOk(h, chunks, t, postings[t]))
    && (forall t: string, c: nat :: c < |chunks| && Frequency(h, chunks[c], t) > 0 ==>
        t in postings && Lists(postings[t], c))
  }

  // The count with every occurrence worth weight.
  function Weighted(terms: seq<string>, t: string, weight: nat): nat {
    if terms == [] then 0 else Weighted(terms[..|terms| - 1], t, weight) + if terms[|terms| - 1] == t then weight else 0
  }

  lemma {:induction false} WeightedIsCount(terms: seq<string>, t: string, weight: nat)
    ensures Weighted(terms, t, weight) == weight * Count(terms, t)
  {
    if terms != [] { WeightedIsCount(terms[..|terms| - 1], t, weight); }
  }

  // Adds every term of the list, weight times, to a frequency table.
  method CountTerms(terms: seq<string>, weight: nat, before: map<string, nat>) returns (after: map<string, nat>)
    requires weight > 0 && forall t :: t in before ==> before[t] > 0
    ensures forall t: string :: t in after <==> t in before || Weighted(terms, t, weight) > 0
    ensures forall t :: t in after ==> after[t] == (if t in before then before[t] else 0) + Weighted(terms, t, weight)
    ensures forall t :: t in after ==> after[t] > 0
  {
    after := before;
    for i := 0 to |terms|
      invariant forall t: string :: t in after <==> t in before || Weighted(terms[..i], t, weight) > 0
      invariant forall t :: t in after ==>
                  after[t] == (if t in before then before[t] else 0) + Weighted(terms[..i], t, weight)
      invariant forall t :: t in after ==> after[t] > 0
    {
      assert terms[..i + 1][..i] == terms[..i];
      after := after[terms[i] := (if terms[i] in after then after[terms[i]] else 0) + weight];
    }
    assert terms[..|terms|] == terms;
  }

  // A chunk's own frequency table.
  method ChunkFrequencies(h: Host, c: Chunk) returns (frequencies: map<string, nat>)
    ensures forall t: string :: t in frequencies <==> Frequency(h, c, t) > 0
    ensures forall t :: t in frequencies ==> frequencies[t] == Frequency(h, c, t)
  {
    frequencies := CountTerms(h.tokenize(c.text), 1, map[]);
    if c.number == 0 { frequencies := CountTerms(h.tokenize(c.title), TITLE_BOOST, frequencies); }
    forall t: string
      ensures Weighted(h.tokenize(c.text), t, 1) == Count(h.tokenize(c.text), t)
      ensures Weighted(h.tokenize(c.title), t, TITLE_BOOST) == TITLE_BOOST * Count(h.tokenize(c.title), t)
    {
      WeightedIsCount(h.tokenize(c.text), t, 1);
      WeightedIsCount(h.tokenize(c.title), t, TITLE_BOOST);
    }
  }

  // Appends one posting per term of the table, whatever order the map is visited in.
  method AppendPostings(frequencies: map<string, nat>, n: nat, before: map<string, seq<Posting>>)
    returns (after: map<string, seq<Posting>>)
    ensures after.Keys == before.Keys + frequencies.Keys
    ensures forall t :: t in after ==>
              after[t] == (if t in before then before[t] else []) + (if t in frequencies
                  then [Posting(n, frequencies[t])] else [])
  {
    after := before;
    var todo := frequencies.Keys;
    while todo != {}
      invariant todo <= frequencies.Keys
      invariant after.Keys == before.Keys + (frequencies.Keys - todo)
      invariant forall t :: t in after ==>
        after[t] == (if t in before then before[t] else []) + (if t in frequencies && t !in todo
            then [Posting(n, frequencies[t])] else [])
      decreases todo
    {
      var t :| t in todo;
      todo := todo - {t};
      after := after[t := (if t in after then after[t] else []) + [Posting(n, frequencies[t])]];
    }
  }

  lemma AppendKeepsList(h: Host, chunks: seq<Chunk>, c: Chunk, t: string, list: seq<Posting>)
    requires list == [] || ListOk(h, chunks, t, list)
    ensures var list' := list + (if Frequency(h, c, t) > 0 then [Posting(|chunks|, Frequency(h, c, t))] else []);
            list' != [] ==> ListOk(h, chunks + [c], t, list')
  {
  }

  lemma AppendKeepsListed(list: seq<Posting>, p: Posting, c: nat)
    requires Lists(list, c) || p.chunk == c
    ensures Lists(list + [p], c)
  {
    if Lists(list, c) {
      var i :| 0 <= i < |list| && list[i].chunk == c;
      assert (list + [p])[i].chunk == c;
    } else {
      assert (list + [p])[|list|].chunk == c;
    }
  }

  lemma ListIsNotEmpty(h: Host, chunks: seq<Chunk>, t: string, list: seq<Posting>)
    requires ListOk(h, chunks, t, list)
    ensures list != []
  {
  }

  lemma AppendKeepsFaithful(h: Host, chunks: seq<Chunk>, c: Chunk, f: map<string, nat>,
                            before: map<string, seq<Posting>>, after: map<string, seq<Posting>>)
    requires Faithful(h, chunks, before)
    requires forall t: string :: t in f <==> Frequency(h, c, t) > 0
    requires forall t :: t in f ==> f[t] == Frequency(h, c, t) && Text.TrimSpace(t) != ""
    requires after.Keys == before.Keys + f.Keys
    requires forall t :: t in after ==>
               after[t] == (if t in before then before[t] else []) + (if t in f then [Posting(|chunks|, f[t])] else [])
    ensures Faithful(h, chunks + [c], after)
  {
    hide ListOk, Lists, Frequency, Text.TrimSpace;
    forall t | t in after ensures Text.TrimSpace(t) != "" && ListOk(h, chunks + [c], t, after[t]) {
      AppendKeepsList(h, chunks, c, t, if t in before then before[t] else []);
      assert after[t] != [] by {
        if t in before { ListIsNotEmpty(h, chunks, t, before[t]); }
      }
    }
    forall t: string, k: nat | k < |chunks + [c]| && Frequency(h, (chunks + [c])[k], t) > 0
      ensures t in after && Lists(after[t], k)
    {
      var list := if t in before then before[t] else [];
      if k < |chunks| { assert t in before && Lists(list, k); }
      if t in f { AppendKeepsListed(list, Posting(|chunks|, f[t]), k); } else { assert after[t] == list; }
    }
  }

  // ------------------------------------------------------- Building

  datatype Index = Index(version: int, manifestHash: string, chunkRunes: nat, overlapRunes: nat, averageTokens: real,
                         chunks: seq<Chunk>, postings: map<string, seq<Posting>>)

  datatype IndexError = BadParameters | NothingSearchable | InvalidIndex | BadQuery | UnsortedTerms

  const INDEX_VERSION := 2

  // The checks of validate on fields other than the postings.
  predicate HeaderOk(ix: Index) {
    ix.version == INDEX_VERSION && ix.manifestHash != "" && ix.overlapRunes < ix.chunkRunes && ix.chunks != []
        && ix.averageTokens > 0.0
  }

  predicate TermValid(chunks: seq<Chunk>, t: string, list: seq<Posting>) {
    Text.TrimSpace(t) != "" && forall i :: 0 <= i < |list| ==> list[i].chunk < |chunks| && list[i].frequency > 0
  }

  predicate PostingsValid(chunks: seq<Chunk>, postings: map<string, seq<Posting>>) {
    forall t :: t in postings ==> TermValid(chunks, t, postings[t])
  }

  method Validate(ix: Index) returns (ok: bool)
    ensures ok <==> HeaderOk(ix) && PostingsValid(ix.chunks, ix.postings)
  {
    hide Text.TrimSpace;
    if !HeaderOk(ix) { return false; }
    var todo := ix.postings.Keys;
    while todo != {}
      invariant todo <= ix.postings.Keys
      invariant forall t :: t in ix.postings && t !in todo ==> TermValid(ix.chunks, t, ix.postings[t])
      decreases todo
    {
      var t :| t in todo;
      todo := todo - {t};
      if Text.TrimSpace(t) == "" { return false; }
      for i := 0 to |ix.postings[t]|
        invariant forall k :: 0 <= k < i ==> ix.postings[t][k].chunk < |ix.chunks| && ix.postings[t][k].frequency > 0
      {
        if ix.postings[t][i].chunk >= |ix.chunks| || ix.postings[t][i].frequency <= 0 { return false; }
      }
    }
    ok := true;
  }

  // What the builder makes, validation accepts.
  lemma {:induction false} FaithfulIsValid(h: Host, chunks: seq<Chunk>, postings: map<string, seq<Posting>>)
    requires Faithful(h, chunks, postings)
    ensures PostingsValid(chunks, postings)
  {
    hide Text.TrimSpace, Frequency;
    forall t | t in postings ensures TermValid(chunks, t, postings[t]) {
      assert ListOk(h, chunks, t, postings[t]);
    }
  }

  function TotalTokens(chunks: seq<Chunk>): nat {
    if chunks == [] then 0 else TotalTokens(chunks[..|chunks| - 1]) + chunks[|chunks| - 1].tokens
  }

  ghost predicate ChunksOk(h: Host, chunks: seq<Chunk>) {
    forall i :: 0 <= i < |chunks| ==> chunks[i].tokens == |h.tokenize(chunks[i].text)| > 0
  }

  // The split of a document's text into windows: there is only one.
  ghost predicate SplitOf(document: Document, windows: seq<RagSplit.Window>, chunkRunes: nat, overlapRunes: nat) {
    var runes := Text.TrimSpace(document.text);
    && (forall i :: 0 <= i < |windows| ==> windows[i].lo <= windows[i].hi <= |runes|)
    && RagSplit.WindowsOk(runes, windows, chunkRunes, overlapRunes)
    && (runes == "" <==> windows == []) && (windows != [] ==> windows[|windows| - 1].hi == |runes|)
  }

  function ChunkOf(h: Host, document: Document, number: nat, piece: string): Chunk {
    Chunk(document.id, Text.TrimSpace(document.title), number, piece, |h.tokenize(piece)|)
  }

  // The pieces that have terms, numbered by their place among all pieces.
  function ChunksOf(h: Host, document: Document, pieces: seq<string>): seq<Chunk> {
    if pieces == [] then []
    else
      var n := |pieces| - 1;
      ChunksOf(h, document, pieces[..n]) + if h.tokenize(pieces[n]) == [] then []
          else [ChunkOf(h, document, n, pieces[n])]
  }

  ghost function PiecesOf(document: Document, windows: seq<RagSplit.Window>, chunkRunes: nat,
                          overlapRunes: nat): seq<string>
    requires SplitOf(document, windows, chunkRunes, overlapRunes)
  {
    RagSplit.Pieces(Text.TrimSpace(document.text), windows)
  }

  lemma WindowBounds(runes: string, windows: seq<RagSplit.Window>, chunkRunes: nat, overlapRunes: nat)
    requires RagSplit.WindowsOk(runes, windows, chunkRunes, overlapRunes)
    ensures forall i :: 0 <= i < |windows| ==> windows[i].lo <= windows[i].hi <= |runes|
  {
    forall i | 0 <= i < |windows| ensures windows[i].lo <= windows[i].hi <= |runes| {
      assert RagSplit.WindowOk(runes, windows[i], chunkRunes);
    }
  }

  lemma NextChunk(h: Host, document: Document, pieces: seq<string>, n: nat)
    requires n < |pieces|
    ensures ChunksOf(h, document, pieces[..n + 1]) ==
              ChunksOf(h, document, pieces[..n]) + if h.tokenize(pieces[n]) == [] then []
                  else [ChunkOf(h, document, n, pieces[n])]
  {
    assert pieces[..n + 1][..n] == pieces[..n];
  }

  lemma TermsAreNotBlank(h: Host, c: Chunk)
    requires HostOk(h)
    ensures forall t: string :: Frequency(h, c, t) > 0 ==> Text.TrimSpace(t) != ""
  {
    hide Text.TrimSpace;
    forall t: string | Frequency(h, c, t) > 0 ensures Text.TrimSpace(t) != "" {
      CountPositive(h.tokenize(c.text), t);
      CountPositive(h.tokenize(c.title), t);
    }
  }

  // The searchable chunks of one document: its pieces that have terms.
  method AddDocument(h: Host, document: Document, chunkRunes: nat, overlapRunes: nat, chunks: seq<Chunk>,
                     postings: map<string, seq<Posting>>)
    returns (chunks': seq<Chunk>, postings': map<string, seq<Posting>>, ghost windows: seq<RagSplit.Window>)
    requires HostOk(h) && chunkRunes > overlapRunes && Faithful(h, chunks, postings) && ChunksOk(h, chunks)
    ensures SplitOf(document, windows, chunkRunes, overlapRunes)
    ensures chunks' == chunks + ChunksOf(h, document, PiecesOf(document, windows, chunkRunes, overlapRunes))
    ensures Faithful(h, chunks', postings') && ChunksOk(h, chunks')
  {
    hide Faithful, HostOk, Frequency, Text.TrimSpace, RagSplit.Pieces, RagSplit.WindowsOk;
    var title := Text.TrimSpace(document.title);
    var pieces;
    pieces, windows := RagSplit.SplitRagText(document.text, chunkRunes, overlapRunes);
    WindowBounds(Text.TrimSpace(document.text), windows, chunkRunes, overlapRunes);
    chunks', postings' := chunks, postings;
    for number := 0 to |pieces|
      invariant Faithful(h, chunks', postings') && ChunksOk(h, chunks')
      invariant chunks' == chunks + ChunksOf(h, document, pieces[..number])
    {
      NextChunk(h, document, pieces, number);
      hide ChunksOf;
      var terms := h.tokenize(pieces[number]);
      if |terms| == 0 { continue; }
      var chunk := Chunk(document.id, title, number, pieces[number], |terms|);
      var frequencies := ChunkFrequencies(h, chunk);
      var appended := AppendPostings(frequencies, |chunks'|, postings');
      TermsAreNotBlank(h, chunk);
      AppendKeepsFaithful(h, chunks', chunk, frequencies, postings', appended);
      assert chunks' + [chunk] == chunks + ChunksOf(h, document, pieces[..number + 1]);
      chunks', postings' := chunks' + [chunk], appended;
    }
    assert pieces[..|pieces|] == pieces;
  }

  // How many documents are read under a limit; zero means no limit.
  function Considered(documents: seq<Document>, maximumDocuments: nat): nat {
    if 0 < maximumDocuments < |documents| then maximumDocuments else |documents|
  }

  ghost predicate SplitsOf(documents: seq<Document>, splits: seq<seq<RagSplit.Window>>, chunkRunes: nat,
                           overlapRunes: nat) {
    |splits| <= |documents| && forall k :: 0 <= k < |splits| ==>
        SplitOf(documents[k], splits[k], chunkRunes, overlapRunes)
  }

  // All chunks, document by document.
  ghost function AllChunks(h: Host, documents: seq<Document>, splits: seq<seq<RagSplit.Window>>, chunkRunes: nat,
                           overlapRunes: nat): seq<Chunk>
    requires SplitsOf(documents, splits, chunkRunes, overlapRunes)
    decreases |splits|
  {
    if splits == [] then []
    else
      var n := |splits| - 1;
      AllChunks(h, documents, splits[..n], chunkRunes, overlapRunes) +
      ChunksOf(h, documents[n], PiecesOf(documents[n], splits[n], chunkRunes, overlapRunes))
  }

  lemma NextDocument(h: Host, documents: seq<Document>, splits: seq<seq<RagSplit.Window>>,
                     windows: seq<RagSplit.Window>, chunkRunes: nat, overlapRunes: nat)
    requires SplitsOf(documents, splits, chunkRunes, overlapRunes) && |splits| < |documents|
    requires SplitOf(documents[|splits|], windows, chunkRunes, overlapRunes)
    ensures SplitsOf(documents, splits + [windows], chunkRunes, overlapRunes)
    ensures AllChunks(h, documents, splits + [windows], chunkRunes, overlapRunes) ==
              AllChunks(h, documents, splits, chunkRunes, overlapRunes) +
              ChunksOf(h, documents[|splits|], PiecesOf(documents[|splits|], windows, chunkRunes, overlapRunes))
  {
    hide SplitOf, ChunksOf;
    var more := splits + [windows];
    assert more[..|splits|] == splits && more[|splits|] == windows;
  }

  method CountTokens(h: Host, chunks: seq<Chunk>) returns (totalTokens: nat)
    requires ChunksOk(h, chunks)
    ensures totalTokens == TotalTokens(chunks) && totalTokens >= |chunks|
  {
    totalTokens := 0;
    for i := 0 to |chunks|
      invariant totalTokens == TotalTokens(chunks[..i]) && totalTokens >= i
    {
      assert chunks[..i + 1][..i] == chunks[..i];
      totalTokens := totalTokens + chunks[i].tokens;
    }
    assert chunks[..|chunks|] == chunks;
  }

  lemma NothingIsSplit(h: Host, documents: seq<Document>, chunkRunes: nat, overlapRunes: nat)
    ensures SplitsOf(documents, [], chunkRunes, overlapRunes)
            && AllChunks(h, documents, [], chunkRunes, overlapRunes) == []
  {
  }

  lemma NothingIsFaithful(h: Host)
    ensures Faithful(h, [], map[])
  {
  }

  lemma PositiveQuotient(x: real, y: real)
    requires x > 0.0 && y > 0.0
    ensures x / y > 0.0
  {
  }

  method BuildRagIndex(h: Host, manifestHash: string, documents: seq<Document>, chunkRunes: int, overlapRunes: int,
                       maximumDocuments: int)
    returns (r: Result<Index, IndexError>, ghost splits: seq<seq<RagSplit.Window>>)
    requires HostOk(h)
    ensures r == Err(BadParameters) <==>
              chunkRunes <= 0 || overlapRunes < 0 || overlapRunes >= chunkRunes || maximumDocuments < 0
    ensures r.Ok? ==>
      var ix := r.value;
      && |splits| == Considered(documents, maximumDocuments) && SplitsOf(documents, splits, chunkRunes, overlapRunes)
      && ix.chunks == AllChunks(h, documents, splits, chunkRunes, overlapRunes) != []
      && Faithful(h, ix.chunks, ix.postings) && ChunksOk(h, ix.chunks)
      && ix.averageTokens == TotalTokens(ix.chunks) as real / |ix.chunks| as real > 0.0
      && ix.version == INDEX_VERSION && ix.manifestHash == manifestHash && ix.chunkRunes == chunkRunes
          && ix.overlapRunes == overlapRunes
      && (manifestHash != "" ==> HeaderOk(ix)) && PostingsValid(ix.chunks, ix.postings)
    ensures r.Err? && r.error != BadParameters ==>
      && r.error == NothingSearchable
      && |splits| == Considered(documents, maximumDocuments) && SplitsOf(documents, splits, chunkRunes, overlapRunes)
      && AllChunks(h, documents, splits, chunkRunes, overlapRunes) == []
  {
    hide HostOk, Faithful, PostingsValid, SplitsOf, AllChunks, SplitOf, ChunksOf;
    splits := [];
    if chunkRunes <= 0 || overlapRunes < 0 || overlapRunes >= chunkRunes { return Err(BadParameters), []; }
    if maximumDocuments < 0 { return Err(BadParameters), []; }
    var chunks: seq<Chunk> := [];
    var postings: map<string, seq<Posting>> := map[];
    NothingIsFaithful(h);
    NothingIsSplit(h, documents, chunkRunes, overlapRunes);
    for n := 0 to |documents|
      invariant Faithful(h, chunks, postings) && ChunksOk(h, chunks)
      invariant |splits| == n && SplitsOf(documents, splits, chunkRunes, overlapRunes)
      invariant chunks == AllChunks(h, documents, splits, chunkRunes, overlapRunes)
      invariant n <= Considered(documents, maximumDocuments)
    {
      if maximumDocuments > 0 && n >= maximumDocuments { break; }
      ghost var windows;
      chunks, postings, windows := AddDocument(h, documents[n], chunkRunes, overlapRunes, chunks, postings);
      NextDocument(h, documents, splits, windows, chunkRunes, overlapRunes);
      splits := splits + [windows];
    }
    if |chunks| == 0 { return Err(NothingSearchable), splits; }
    var totalTokens := CountTokens(h, chunks);
    FaithfulIsValid(h, chunks, postings);
    PositiveQuotient(totalTokens as real, |chunks| as real);
    r := Ok(Index(INDEX_VERSION, manifestHash, chunkRunes, overlapRunes, totalTokens as real / |chunks| as real, chunks,
                  postings));
  }
}
