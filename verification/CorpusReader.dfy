// Reading a corpus: push iteration, the pull iterator and cursors. Both readers
// are proved against one sequence, Rest, and resuming is a property of Rest.

module CorpusReader {
  import opened CorpusModel
  import opened Wrappers
  import CorpusWriter
  import Text

  // What decoding a shard file yields: documents, then a decode error or end of file.
  datatype ShardFile = ShardFile(docs: seq<Doc>, corrupt: bool, hash: string, bytes: nat)

  datatype Cursor = Cursor(version: int, manifestHash: string, shard: int, document: int)

  // A manifest, its digest and the files below its directory.
  datatype Corpus = Corpus(shards: seq<Shard>, manifestHash: string, files: map<string, ShardFile>,
                           safePath: string -> bool)

  datatype Visit = Visit(document: Doc, next: Cursor)

  datatype ReadError = ForeignCursor | OutOfRange | UnsafePath | Missing | BadHash | BadData | CountsDiffer
                     | VisitorStopped | IteratorClosed

  function StartCursor(c: Corpus): Cursor { Cursor(MANIFEST_VERSION, c.manifestHash, 0, 0) }

  // An empty digest means "from the start".
  function Resolve(c: Corpus, cursor: Cursor): Cursor {
    if cursor.manifestHash == "" then StartCursor(c) else cursor
  }

  predicate CursorOk(c: Corpus, cursor: Cursor) {
    && cursor.version == MANIFEST_VERSION && cursor.manifestHash == c.manifestHash
    && 0 <= cursor.shard <= |c.shards|
    && 0 <= cursor.document
    && cursor.document <= if cursor.shard < |c.shards| then c.shards[cursor.shard].documents else 0
  }

  function DocsOf(c: Corpus, k: nat): seq<Doc>
    requires k < |c.shards|
  {
    if c.shards[k].path in c.files then c.files[c.shards[k].path].docs else []
  }

  predicate Openable(c: Corpus, k: nat, verify: bool)
    requires k < |c.shards|
  {
    && c.safePath(c.shards[k].path) && c.shards[k].path in c.files
    && (verify ==>
        c.files[c.shards[k].path].hash == c.shards[k].hash && c.files[c.shards[k].path].bytes == c.shards[k].fileBytes)
  }

  // The shard can be opened, decodes completely and has the counts its manifest claims.
  predicate ShardGood(c: Corpus, k: nat, verify: bool)
    requires k < |c.shards|
  {
    && Openable(c, k, verify)
    && !c.files[c.shards[k].path].corrupt
    && (forall i :: 0 <= i < |DocsOf(c, k)| ==> ValidDoc(DocsOf(c, k)[i]))
    && |DocsOf(c, k)| == c.shards[k].documents && TextBytes(DocsOf(c, k)) == c.shards[k].utf8Bytes
  }

  ghost predicate GoodFrom(c: Corpus, k: nat, verify: bool) {
    forall i :: k <= i < |c.shards| ==> ShardGood(c, i, verify)
  }

  // Points after document j - 1 of shard k, normalised at the end of the shard.
  function CursorAfter(c: Corpus, k: nat, j: nat): Cursor
    requires k < |c.shards|
  {
    if j == c.shards[k].documents then Cursor(MANIFEST_VERSION, c.manifestHash, k + 1, 0)
    else Cursor(MANIFEST_VERSION, c.manifestHash, k, j)
  }

  function ShardVisits(c: Corpus, k: nat, from: nat): (vs: seq<Visit>)
    requires k < |c.shards|
    ensures |vs| == if from <= |DocsOf(c, k)| then |DocsOf(c, k)| - from else 0
    ensures forall i :: 0 <= i < |vs| ==> vs[i] == Visit(DocsOf(c, k)[from + i], CursorAfter(c, k, from + i + 1))
  {
    seq(if from <= |DocsOf(c, k)| then |DocsOf(c, k)| - from else 0,
        i requires 0 <= i && from + i < |DocsOf(c, k)| => Visit(DocsOf(c, k)[from + i],
            CursorAfter(c, k, from + i + 1)))
  }

  // Everything still to be delivered from a position on.
  function Rest(c: Corpus, k: nat, from: nat): seq<Visit>
    decreases |c.shards| - k
  {
    if k >= |c.shards| then [] else ShardVisits(c, k, from) + Rest(c, k + 1, 0)
  }

  function RestAt(c: Corpus, cursor: Cursor): seq<Visit>
    requires CursorOk(c, cursor)
  {
    Rest(c, cursor.shard, cursor.document)
  }

  // ------------------------------------------------------- Resuming

  lemma Dropped<T>(a: seq<T>, b: seq<T>, i: nat)
    requires i < |a| + |b|
    ensures (a + b)[i + 1..] == if i < |a| then a[i + 1..] + b else b[i - |a| + 1..]
  {
  }

  lemma ResumeInShard(c: Corpus, k: nat, from: nat, verify: bool, i: nat)
    requires k < |c.shards| && ShardGood(c, k, verify) && i < |ShardVisits(c, k, from)|
    ensures var next := ShardVisits(c, k, from)[i].next;
            CursorOk(c, next) && RestAt(c, next) == ShardVisits(c, k, from)[i + 1..] + Rest(c, k + 1, 0)
  {
    hide ValidDoc;
    var j := from + i + 1;
    assert ShardVisits(c, k, from)[i].next == CursorAfter(c, k, j);
    assert ShardVisits(c, k, from)[i + 1..] == ShardVisits(c, k, j);
  }

  lemma RestStep(c: Corpus, k: nat, from: nat)
    requires k < |c.shards|
    ensures Rest(c, k, from) == ShardVisits(c, k, from) + Rest(c, k + 1, 0)
  {
  }

  lemma RestEnd(c: Corpus, k: nat, from: nat)
    requires k >= |c.shards|
    ensures Rest(c, k, from) == []
  {
  }

  // Saving the cursor delivered with a document and resuming from it yields exactly
  // the documents after it.
  lemma {:induction false} ResumeIsDrop(c: Corpus, k: nat, from: nat, verify: bool, i: nat)
    requires GoodFrom(c, k, verify) && k <= |c.shards| && (k < |c.shards| ==> from <= c.shards[k].documents)
    requires i < |Rest(c, k, from)|
    ensures CursorOk(c, Rest(c, k, from)[i].next)
    ensures RestAt(c, Rest(c, k, from)[i].next) == Rest(c, k, from)[i + 1..]
    decreases |c.shards| - k
  {
    hide ShardGood, ValidDoc, CursorOk, RestAt, ShardVisits, Rest;
    assert k < |c.shards| by {
      if k == |c.shards| { RestEnd(c, k, from); }
    }
    var here, later := ShardVisits(c, k, from), Rest(c, k + 1, 0);
    RestStep(c, k, from);
    assert ShardGood(c, k, verify);
    if i < |here| {
      ResumeInShard(c, k, from, verify, i);
      Dropped(here, later, i);
    } else {
      ResumeIsDrop(c, k + 1, 0, verify, i - |here|);
      Dropped(here, later, i);
    }
  }

  // The same sequence as one flat list of documents, dropped at the cursor.
  function Documents(c: Corpus, k: nat): seq<Doc>
    decreases |c.shards| - k
  {
    if k >= |c.shards| then [] else DocsOf(c, k) + Documents(c, k + 1)
  }

  function DocumentsOf(vs: seq<Visit>): (ds: seq<Doc>)
    ensures |ds| == |vs| && forall i :: 0 <= i < |ds| ==> ds[i] == vs[i].document
  {
    seq(|vs|, i requires 0 <= i < |vs| => vs[i].document)
  }

  lemma {:induction false} RestIsDroppedCorpus(c: Corpus, k: nat, from: nat)
    requires k < |c.shards| ==> from <= |DocsOf(c, k)|
    requires k >= |c.shards| ==> from == 0
    ensures from <= |Documents(c, k)| && DocumentsOf(Rest(c, k, from)) == Documents(c, k)[from..]
    decreases |c.shards| - k
  {
    if k < |c.shards| {
      hide ShardVisits;
      RestIsDroppedCorpus(c, k + 1, 0);
      var here, later := ShardVisits(c, k, from), Rest(c, k + 1, 0);
      assert DocumentsOf(here) == DocsOf(c, k)[from..];
      assert DocumentsOf(here + later) == DocumentsOf(here) + DocumentsOf(later);
      assert Documents(c, k + 1)[0..] == Documents(c, k + 1);
      assert Documents(c, k)[from..] == DocsOf(c, k)[from..] + Documents(c, k + 1);
    }
  }

  // ------------------------------------------------------- Push iteration

  method OpenShard(c: Corpus, k: nat, verify: bool) returns (r: Result<ShardFile, ReadError>)
    requires k < |c.shards|
    ensures r.Ok? <==> Openable(c, k, verify)
    ensures r.Ok? ==> r.value == c.files[c.shards[k].path]
    ensures r.Err? ==> r.error != VisitorStopped && r.error != IteratorClosed
  {
    var state := c.shards[k];
    if !c.safePath(state.path) { return Err(UnsafePath); }
    if state.path !in c.files { return Err(Missing); }
    var file := c.files[state.path];
    if verify && (file.hash != state.hash || file.bytes != state.fileBytes) { return Err(BadHash); }
    r := Ok(file);
  }

  // budget is how many documents the visitor accepts before it returns an error.
  lemma VisitAt(c: Corpus, k: nat, start: nat, n: nat)
    requires k < |c.shards| && n < |ShardVisits(c, k, start)|
    ensures ShardVisits(c, k, start)[n] ==
              Visit(DocsOf(c, k)[start + n],
                    if start + n + 1 == c.shards[k].documents then Cursor(MANIFEST_VERSION, c.manifestHash, k + 1, 0)
                    else Cursor(MANIFEST_VERSION, c.manifestHash, k, start + n + 1))
  {
  }

  predicate Accepts(budget: Option<nat>, n: nat) {
    budget.None? || n <= budget.value
  }

  method IterateShard(c: Corpus, k: nat, file: ShardFile, start: nat, visited: seq<Visit>, budget: Option<nat>)
    returns (r: Result<(nat, nat), ReadError>, visited': seq<Visit>, ghost n: nat)
    requires k < |c.shards| && c.shards[k].path in c.files && file == c.files[c.shards[k].path]
    requires Accepts(budget, |visited|)
    ensures n <= |ShardVisits(c, k, start)| && visited' == visited + ShardVisits(c, k, start)[..n]
            && Accepts(budget, |visited'|)
    ensures r.Ok? <==> !file.corrupt && (forall i :: 0 <= i < |file.docs| ==> ValidDoc(file.docs[i])) &&
                       Accepts(budget, |visited| + |ShardVisits(c, k, start)|)
    ensures r.Ok? ==> n == |ShardVisits(c, k, start)| && r.value == (|file.docs|, TextBytes(file.docs))
    ensures r == Err(VisitorStopped) ==> budget == Some(|visited'|)
  {
    hide ValidDoc, Rest, ShardVisits, TextBytes, JsonlBytes, LineBytes, Text.StringBytes;
    NoBytes();
    visited', n := visited, 0;
    var documentIndex, textBytes := 0, 0;
    ghost var all := ShardVisits(c, k, start);
    while documentIndex < |file.docs|
      invariant documentIndex <= |file.docs| && textBytes == TextBytes(file.docs[..documentIndex])
      invariant forall i :: 0 <= i < documentIndex ==> ValidDoc(file.docs[i])
      invariant n == (if documentIndex >= start then documentIndex - start else 0) && n <= |all|
      invariant visited' == visited + all[..n] && Accepts(budget, |visited'|)
    {
      var document := file.docs[documentIndex];
      if !ValidDoc(document) { return Err(BadData), visited', n; }
      JsonlAppend(file.docs[..documentIndex], document);
      assert file.docs[..documentIndex] + [document] == file.docs[..documentIndex + 1];
      textBytes := textBytes + Text.StringBytes(document.text);
      if documentIndex >= start {
        var next := Cursor(MANIFEST_VERSION, c.manifestHash, k, documentIndex + 1);
        if next.document == c.shards[k].documents { next := next.(shard := k + 1, document := 0); }
        if budget.Some? && |visited'| >= budget.value { return Err(VisitorStopped), visited', n; }
        VisitAt(c, k, start, n);
        assert all[..n + 1] == all[..n] + [all[n]];
        visited' := visited' + [Visit(document, next)];
        n := n + 1;
      }
      documentIndex := documentIndex + 1;
    }
    assert file.docs[..|file.docs|] == file.docs;
    if file.corrupt { return Err(BadData), visited', n; }
    r := Ok((documentIndex, textBytes));
  }

  // One turn of Iterate's loop: open, deliver, compare the counts.
  method IterateOne(c: Corpus, k: nat, start: nat, verify: bool, visited: seq<Visit>, budget: Option<nat>)
    returns (r: Result<(), ReadError>, visited': seq<Visit>, ghost n: nat)
    requires k < |c.shards| && Accepts(budget, |visited|)
    ensures n <= |ShardVisits(c, k, start)| && visited' == visited + ShardVisits(c, k, start)[..n]
            && Accepts(budget, |visited'|)
    ensures r.Ok? <==> ShardGood(c, k, verify) && Accepts(budget, |visited| + |ShardVisits(c, k, start)|)
    ensures r.Ok? ==> n == |ShardVisits(c, k, start)|
    ensures r == Err(VisitorStopped) ==> budget == Some(|visited'|)
  {
    hide ValidDoc, Rest, ShardVisits;
    visited', n := visited, 0;
    var file := OpenShard(c, k, verify);
    if file.Err? { return Err(file.error), visited', n; }
    var counts;
    counts, visited', n := IterateShard(c, k, file.value, start, visited, budget);
    if counts.Err? { return Err(counts.error), visited', n; }
    if counts.value.0 != c.shards[k].documents || counts.value.1 != c.shards[k].utf8Bytes {
      return Err(CountsDiffer), visited', n;
    }
    r := Ok(());
  }

  lemma PrefixOf<T>(a: seq<T>, b: seq<T>, c: seq<T>, n: nat)
    requires n <= |b|
    ensures a + b[..n] <= a + b + c
    ensures n == |b| ==> a + b[..n] + c == a + b + c
  {
  }

  // The loop of Iterate over the remaining shards.
  method IterateFrom(c: Corpus, shard: nat, document: nat, verify: bool, budget: Option<nat>)
    returns (r: Result<(), ReadError>, visited: seq<Visit>)
    requires shard < |c.shards|
    ensures r.Ok? <==> GoodFrom(c, shard, verify) && Accepts(budget, |Rest(c, shard, document)|)
    ensures r.Ok? ==> visited == Rest(c, shard, document)
    ensures visited <= Rest(c, shard, document)
    ensures r == Err(VisitorStopped) ==> budget == Some(|visited|)
  {
    hide ShardVisits, ShardGood, Rest;
    visited := [];
    ghost var all := Rest(c, shard, document);
    for k := shard to |c.shards|
      invariant visited + Rest(c, k, if k == shard then document else 0) == all
      invariant Accepts(budget, |visited|)
      invariant forall i :: shard <= i < k ==> ShardGood(c, i, verify)
    {
      var start := if k == shard then document else 0;
      ghost var before, here, later := visited, ShardVisits(c, k, start), Rest(c, k + 1, 0);
      RestStep(c, k, start);
      assert all == before + here + later;
      ghost var n;
      r, visited, n := IterateOne(c, k, start, verify, visited, budget);
      PrefixOf(before, here, later, n);
      if r.Err? { return; }
    }
    RestEnd(c, |c.shards|, 0);
    r := Ok(());
  }

  // Iterate delivers exactly Rest, or fails; it fails only for a bad cursor, a bad
  // remaining shard or a visitor error, and what it delivered is a prefix of Rest.
  method Iterate(c: Corpus, given: Cursor, verify: bool, budget: Option<nat>)
    returns (r: Result<(), ReadError>, visited: seq<Visit>)
    ensures var cursor := Resolve(c, given);
            r.Ok? <==> CursorOk(c, cursor) && GoodFrom(c, cursor.shard, verify) && Accepts(budget, |RestAt(c, cursor)|)
    ensures r.Ok? ==> visited == RestAt(c, Resolve(c, given))
    ensures !CursorOk(c, Resolve(c, given)) ==> visited == []
    ensures CursorOk(c, Resolve(c, given)) ==> visited <= RestAt(c, Resolve(c, given))
    ensures r == Err(VisitorStopped) ==> budget == Some(|visited|)
  {
    hide ShardGood;
    visited := [];
    var cursor := given;
    if cursor.manifestHash == "" { cursor := StartCursor(c); }
    if cursor.version != MANIFEST_VERSION
        || cursor.manifestHash != c.manifestHash { return Err(ForeignCursor), visited; }
    if cursor.shard < 0 || cursor.shard > |c.shards| { return Err(OutOfRange), visited; }
    if cursor.shard == |c.shards| {
      if cursor.document != 0 { return Err(OutOfRange), visited; }
      return Ok(()), visited;
    }
    if cursor.document < 0 || cursor.document > c.shards[cursor.shard].documents { return Err(OutOfRange), visited; }
    r, visited := IterateFrom(c, cursor.shard, cursor.document, verify, budget);
  }

  // ------------------------------------------------------- Pull iteration

  lemma OneLess(c: Corpus, k: nat, j: nat)
    requires k < |c.shards| && j < |DocsOf(c, k)|
    ensures Rest(c, k, j) == [Visit(DocsOf(c, k)[j], CursorAfter(c, k, j + 1))] + Rest(c, k, j + 1)
  {
    assert ShardVisits(c, k, j) == [Visit(DocsOf(c, k)[j], CursorAfter(c, k, j + 1))] + ShardVisits(c, k, j + 1);
  }

  class Iterator {
    const corpus: Corpus
    const verify: bool
    var shardIndex: nat
    var documentIndex: nat
    var decoder: Option<ShardFile>    // the open shard
    var decodedDocuments: nat
    var decodedUtf8Bytes: nat
    var closed: bool

    ghost predicate Valid()
      reads this
    {
      && shardIndex <= |corpus.shards|
      && (shardIndex == |corpus.shards| ==> documentIndex == 0 && decoder.None?)
      && (decoder.Some? ==>
            && Openable(corpus, shardIndex, verify) && decoder.value == corpus.files[corpus.shards[shardIndex].path]
            && decodedDocuments <= documentIndex && decodedDocuments <= |decoder.value.docs|
            && decodedUtf8Bytes == TextBytes(decoder.value.docs[..decodedDocuments])
            && (forall i :: 0 <= i < decodedDocuments ==> ValidDoc(decoder.value.docs[i])))
    }

    // What the iterator has still to return.
    ghost function Remaining(): seq<Visit>
      reads this
    {
      Rest(corpus, shardIndex, documentIndex)
    }

    constructor (c: Corpus, verify: bool, shard: nat, document: nat)
      requires shard <= |c.shards| && (shard == |c.shards| ==> document == 0)
      ensures Valid() && !closed && corpus == c && this.verify == verify && shardIndex == shard
              && documentIndex == document
    {
      corpus, this.verify, shardIndex, documentIndex := c, verify, shard, document;
      decoder, decodedDocuments, decodedUtf8Bytes, closed := None, 0, 0, false;
    }

    method OpenCurrent() returns (e: Option<ReadError>)
      requires Valid() && shardIndex < |corpus.shards| && decoder.None?
      modifies `decoder, `decodedDocuments, `decodedUtf8Bytes
      ensures Valid() && (e.None? <==> Openable(corpus, shardIndex, verify)) && (e.None? <==> decoder.Some?)
      ensures e.None? ==> decodedDocuments == 0
      ensures e.Some? ==> e.value != IteratorClosed && !ShardGood(corpus, shardIndex, verify)
    {
      var file := OpenShard(corpus, shardIndex, verify);
      if file.Err? { return Some(file.error); }
      decoder, decodedDocuments, decodedUtf8Bytes := Some(file.value), 0, 0;
      e := None;
    }

    // The end of the open shard: its counts must match before it is closed.
    method FinishShard() returns (e: Option<ReadError>)
      requires Valid() && decoder.Some? && decodedDocuments == |decoder.value.docs|
      modifies `decoder, `decodedDocuments, `decodedUtf8Bytes, `shardIndex, `documentIndex
      ensures Valid()
      ensures e.None? <==> ShardGood(corpus, old(shardIndex), verify)
      ensures e.Some? ==> e.value != IteratorClosed && shardIndex == old(shardIndex)
      ensures e.None? ==> shardIndex == old(shardIndex) + 1 && Remaining() == old(Remaining())
    {
      var docs := decoder.value.docs;
      assert docs[..decodedDocuments] == docs;
      if decoder.value.corrupt { return Some(BadData); }
      if decodedDocuments != corpus.shards[shardIndex].documents
          || decodedUtf8Bytes != corpus.shards[shardIndex].utf8Bytes {
        return Some(CountsDiffer);
      }
      assert ShardVisits(corpus, shardIndex, documentIndex) == [];
      decoder, decodedDocuments, decodedUtf8Bytes := None, 0, 0;
      shardIndex := shardIndex + 1;
      documentIndex := 0;
      e := None;
    }

    // Decodes one document; one before the cursor is counted and skipped.
    method DecodeOne() returns (r: Result<Option<Visit>, ReadError>)
      requires Valid() && decoder.Some? && decodedDocuments < |decoder.value.docs|
      modifies `decodedDocuments, `decodedUtf8Bytes, `documentIndex
      ensures Valid()
      ensures r.Err? ==> r.error != IteratorClosed && !ShardGood(corpus, shardIndex, verify)
      ensures r.Ok? ==> decodedDocuments == old(decodedDocuments) + 1
      ensures r == Ok(None) ==> Remaining() == old(Remaining())
      ensures r.Ok? && r.value.Some? ==>
                old(Remaining()) != [] && r.value.value == old(Remaining())[0] && Remaining() == old(Remaining())[1..]
    {
      hide ValidDoc, ShardVisits, Rest, TextBytes, JsonlBytes, LineBytes, Text.StringBytes;
      var docs := decoder.value.docs;
      assert docs == DocsOf(corpus, shardIndex);
      var document := docs[decodedDocuments];
      if !ValidDoc(document) { return Err(BadData); }
      var decodedIndex := decodedDocuments;
      JsonlAppend(docs[..decodedIndex], document);
      assert docs[..decodedIndex] + [document] == docs[..decodedIndex + 1];
      decodedDocuments := decodedDocuments + 1;
      decodedUtf8Bytes := decodedUtf8Bytes + Text.StringBytes(document.text);
      if decodedIndex < documentIndex { return Ok(None); }
      documentIndex := decodedIndex + 1;
      var next := Cursor(MANIFEST_VERSION, corpus.manifestHash, shardIndex, documentIndex);
      if next.document == corpus.shards[shardIndex].documents { next := next.(shard := next.shard + 1, document := 0); }
      OneLess(corpus, shardIndex, decodedIndex);
      r := Ok(Some(Visit(document, next)));
    }

    // One document and the cursor after it; Ok(None) is the end of the corpus. A shard
    // is left behind only when it is good, so the end is reached only past good shards.
    method Next() returns (r: Result<Option<Visit>, ReadError>)
      requires Valid()
      modifies this
      ensures Valid() && closed == old(closed)
      ensures r.Ok? && r.value.None? ==> old(Remaining()) == [] && Remaining() == []
      ensures r.Ok? && r.value.Some? ==>
                old(Remaining()) != [] && r.value.value == old(Remaining())[0] && Remaining() == old(Remaining())[1..]
      ensures r == Err(IteratorClosed) <==> old(closed)
      ensures !old(closed) && GoodFrom(corpus, old(shardIndex), verify) ==> r.Ok?
      ensures shardIndex >= old(shardIndex)
      ensures forall i :: old(shardIndex) <= i < shardIndex ==> ShardGood(corpus, i, verify)
      ensures r == Ok(None) ==> shardIndex == |corpus.shards|
    {
      hide ShardVisits, ShardGood, ValidDoc, TextBytes;
      if closed { return Err(IteratorClosed); }
      while shardIndex < |corpus.shards|
        invariant Valid() && shardIndex >= old(shardIndex) && closed == old(closed)
        invariant forall i :: old(shardIndex) <= i < shardIndex ==> ShardGood(corpus, i, verify)
        invariant Remaining() == old(Remaining())
        decreases |corpus.shards| - shardIndex, decoder.None?, if decoder.Some?
                  then |decoder.value.docs| - decodedDocuments else 0
      {
        if decoder.None? {
          var e := OpenCurrent();
          if e.Some? { return Err(e.value); }
        }
        if decodedDocuments == |decoder.value.docs| {
          var e := FinishShard();
          if e.Some? { return Err(e.value); }
          continue;
        }
        r := DecodeOne();
        if r.Err? || r.value.Some? { return; }
      }
      r := Ok(None);
    }
  }

  method NewIterator(c: Corpus, given: Cursor, verify: bool) returns (r: Result<Iterator, ReadError>)
    ensures r.Ok? <==> CursorOk(c, Resolve(c, given))
    ensures r.Ok? ==>
      && fresh(r.value) && r.value.Valid() && !r.value.closed && r.value.corpus == c && r.value.verify == verify
      && r.value.shardIndex == Resolve(c, given).shard && r.value.Remaining() == RestAt(c, Resolve(c, given))
  {
    var cursor := given;
    if cursor.manifestHash == "" { cursor := StartCursor(c); }
    if cursor.version != MANIFEST_VERSION || cursor.manifestHash != c.manifestHash { return Err(ForeignCursor); }
    if cursor.shard < 0 || cursor.shard > |c.shards| { return Err(OutOfRange); }
    if cursor.shard == |c.shards| && cursor.document != 0 { return Err(OutOfRange); }
    if cursor.shard < |c.shards| && (cursor.document < 0
                                     || cursor.document > c.shards[cursor.shard].documents) { return Err(OutOfRange); }
    var it := new Iterator(c, verify, cursor.shard, cursor.document);
    r := Ok(it);
  }

  // Calling Next to the end succeeds exactly when every remaining shard is good and
  // gives the sequence Iterate delivers; a failure comes after a prefix of it.
  method ReadAll(c: Corpus, given: Cursor, verify: bool) returns (r: Result<(), ReadError>, visited: seq<Visit>)
    requires CursorOk(c, Resolve(c, given))
    ensures r.Ok? <==> GoodFrom(c, Resolve(c, given).shard, verify)
    ensures r.Ok? ==> visited == RestAt(c, Resolve(c, given))
    ensures visited <= RestAt(c, Resolve(c, given))
  {
    hide CursorOk, ShardGood, Rest, ValidDoc;
    var created := NewIterator(c, given, verify);
    var it := created.value;
    visited := [];
    ghost var all, first := it.Remaining(), it.shardIndex;
    while true
      invariant it.Valid() && !it.closed && it.corpus == c && it.verify == verify && fresh(it)
      invariant it.shardIndex >= first
      invariant forall i :: first <= i < it.shardIndex ==> ShardGood(c, i, verify)
      invariant visited + it.Remaining() == all
      decreases |it.Remaining()|
    {
      var next := it.Next();
      if next.Err? { return Err(next.error), visited; }
      if next.value.None? { break; }
      visited := visited + [next.value.value];
    }
    r := Ok(());
  }

  // ------------------------------------------------------- Shard orders

  ghost predicate IsPermutation(order: seq<int>, n: nat) {
    && |order| == n
    && (forall i :: 0 <= i < n ==> 0 <= order[i] < n)
    && (forall i, j :: 0 <= i < j < n ==> order[i] != order[j])
  }

  // A reader whose cursor shard is a position in the order; refused unless every
  // shard appears exactly once.
  method WithShardOrder(c: Corpus, order: seq<int>) returns (r: Result<Corpus, ReadError>)
    ensures r.Ok? <==> order == [] || IsPermutation(order, |c.shards|)
    ensures order == [] ==> r == Ok(c)
    ensures r.Ok? && order != [] ==>
      && r.value == c.(shards := r.value.shards) && |r.value.shards| == |c.shards|
      && forall i :: 0 <= i < |order| ==> r.value.shards[i] == c.shards[order[i]]
  {
    if |order| == 0 { return Ok(c); }
    if |order| != |c.shards| { return Err(OutOfRange); }
    var seen := new bool[|order|](_ => false);
    var shards: seq<Shard> := [];
    for position := 0 to |order|
      invariant |shards| == position
      invariant forall i :: 0 <= i < position ==> 0 <= order[i] < |order| && shards[i] == c.shards[order[i]]
      invariant forall i, j :: 0 <= i < j < position ==> order[i] != order[j]
      invariant forall k :: 0 <= k < seen.Length ==> (seen[k] <==> k in order[..position])
    {
      var shardIndex := order[position];
      if shardIndex < 0 || shardIndex >= |order| || seen[shardIndex] { return Err(OutOfRange); }
      seen[shardIndex] := true;
      shards := shards + [c.shards[shardIndex]];
      assert order[..position + 1] == order[..position] + [shardIndex];
    }
    r := Ok(c.(shards := shards));
  }

  lemma {:induction false} DistinctCount(s: seq<int>)
    requires forall i, j :: 0 <= i < j < |s| ==> s[i] != s[j]
    ensures |set x | x in s| == |s|
  {
    if s != [] {
      var init, last := s[..|s| - 1], s[|s| - 1];
      DistinctCount(init);
      assert s == init + [last];
      assert (set x | x in s) == (set x | x in init) + {last};
    }
  }

  ghost function Range(n: nat): (r: set<int>)
    ensures forall x :: x in r <==> 0 <= x < n
    ensures |r| == n
  {
    if n == 0 then {} else Range(n - 1) + {n - 1}
  }

  lemma SubsetOfSameSize(a: set<int>, b: set<int>)
    requires a <= b && |a| == |b|
    ensures a == b
  {
    assert |b - a| == |b| - |a|;
  }

  lemma SameShardGood(c: Corpus, c': Corpus, k: nat, i: nat, verify: bool)
    requires k < |c.shards| && i < |c'.shards| && c'.shards[i] == c.shards[k] && c'.files == c.files
             && c'.safePath == c.safePath
    ensures ShardGood(c', i, verify) <==> ShardGood(c, k, verify)
  {
    assert DocsOf(c', i) == DocsOf(c, k);
  }

  // Pigeonhole: an accepted order leaves no shard out, so the reordered corpus is
  // good exactly when the original is.
  lemma PermutedCorpus(c: Corpus, order: seq<int>, shards: seq<Shard>, verify: bool)
    requires IsPermutation(order, |c.shards|) && |shards| == |order|
    requires forall i :: 0 <= i < |order| ==> shards[i] == c.shards[order[i]]
    ensures forall k :: 0 <= k < |c.shards| ==> k in order
    ensures GoodFrom(c.(shards := shards), 0, verify) <==> GoodFrom(c, 0, verify)
  {
    hide ShardGood;
    var c' := c.(shards := shards);
    var used := set x | x in order;
    DistinctCount(order);
    SubsetOfSameSize(used, Range(|order|));
    forall k | 0 <= k < |c.shards| ensures k in order {
      assert k in Range(|order|) && k in used;
    }
    forall i | 0 <= i < |order| ensures ShardGood(c', i, verify) <==> ShardGood(c, order[i], verify) {
      SameShardGood(c, c', order[i], i, verify);
    }
    if GoodFrom(c', 0, verify) {
      forall k | 0 <= k < |c.shards| ensures ShardGood(c, k, verify) {
        assert k in order;
        var i :| 0 <= i < |order| && order[i] == k;
      }
    }
  }

  // ------------------------------------------------------- Written, then read

  // The file of shard k holds these documents, and its entry describes it.
  ghost predicate Stored(c: Corpus, k: nat, docs: seq<Doc>)
    requires k < |c.shards|
  {
    && Describes(c.shards[k], docs) && c.safePath(c.shards[k].path)
    && c.shards[k].path in c.files
    && c.files[c.shards[k].path] == ShardFile(docs, false, c.shards[k].hash, c.shards[k].fileBytes)
  }

  lemma {:induction false} FlattenFront(shards: seq<seq<Doc>>)
    requires shards != []
    ensures Flatten(shards) == shards[0] + Flatten(shards[1..])
  {
    var n := |shards| - 1;
    if n > 0 {
      FlattenFront(shards[..n]);
      assert shards[..n][1..] == shards[1..][..n - 1];
      assert shards[1..][n - 1] == shards[n];
    } else {
      assert shards[..0] == [] && shards[1..] == [];
    }
  }

  lemma {:induction false} DocumentsAreFlattened(c: Corpus, files: seq<seq<Doc>>, k: nat)
    requires |c.shards| == |files| && k <= |files| && forall i :: 0 <= i < |files| ==> Stored(c, i, files[i])
    ensures Documents(c, k) == Flatten(files[k..])
    decreases |files| - k
  {
    if k < |files| {
      DocumentsAreFlattened(c, files, k + 1);
      FlattenFront(files[k..]);
      assert files[k..][1..] == files[k + 1..];
    }
  }

  // Round trip: a corpus written by the writer reads back, from the start, as the
  // added documents in order, with or without hash verification.
  lemma WrittenCorpusReadsBack(c: Corpus, added: seq<Doc>, target: nat, verify: bool)
    requires var files := AllShards(Pack(added, target));
             |c.shards| == |files| && forall i :: 0 <= i < |files| ==> Stored(c, i, files[i])
    requires forall i :: 0 <= i < |added| ==> ValidDoc(added[i])
    ensures CursorOk(c, StartCursor(c)) && GoodFrom(c, 0, verify)
    ensures DocumentsOf(RestAt(c, StartCursor(c))) == added
  {
    hide Pack, AllShards, Flatten, GreedyShards, Rest, ValidDoc;
    var files := AllShards(Pack(added, target));
    PackRoundTrip(added, target);
    forall k | 0 <= k < |c.shards| ensures ShardGood(c, k, verify) {
      assert Stored(c, k, files[k]);
      CorpusWriter.ShardDocsAreAdded(files, k);
    }
    DocumentsAreFlattened(c, files, 0);
    RestIsDroppedCorpus(c, 0, 0);
    assert files[0..] == files;
    if |c.shards| == 0 { RestEnd(c, 0, 0); }
  }
}
