// The sharded corpus: writer, push iteration, pull iteration and resumable cursors.

module CorpusModel {
  import Text

  // jsonBytes is the length of the document's JSON encoding; its line adds a newline.
  datatype Doc = Doc(id: string, text: string, metadata: map<string, string>, validUtf8: bool, jsonBytes: nat)

  datatype Shard = Shard(path: string, documents: nat, utf8Bytes: nat, jsonlBytes: nat, fileBytes: nat, hash: string)

  datatype Input = Input(path: string, hash: string, fileBytes: int)

  // Where documents came from and the terms that apply to them.
  datatype Source = Source(id: string, name: string, datasetUrl: string, license: string, licenseUrl: string,
                           attribution: string, revision: string, inputs: seq<Input>)

  datatype Manifest = Manifest(version: int, documentFormat: string, compression: string, documents: nat,
                               utf8Bytes: nat,
                               jsonlBytes: nat, sources: seq<Source>, shards: seq<Shard>)

  const MANIFEST_VERSION := 1

  predicate ValidDoc(d: Doc) {
    Text.TrimSpace(d.id) != "" && d.text != "" && d.validUtf8
  }

  function LineBytes(d: Doc): nat { d.jsonBytes + 1 }

  function TextBytes(docs: seq<Doc>): nat {
    if docs == [] then 0 else TextBytes(docs[..|docs| - 1]) + Text.StringBytes(docs[|docs| - 1].text)
  }

  function JsonlBytes(docs: seq<Doc>): nat {
    if docs == [] then 0 else JsonlBytes(docs[..|docs| - 1]) + LineBytes(docs[|docs| - 1])
  }

  function Flatten(shards: seq<seq<Doc>>): seq<Doc> {
    if shards == [] then [] else Flatten(shards[..|shards| - 1]) + shards[|shards| - 1]
  }

  // ------------------------------------------------------- Packing into shards

  // Finished shards and the one being filled; current is empty only at the start.
  datatype Packing = Packing(done: seq<seq<Doc>>, current: seq<Doc>)

  function PackOne(p: Packing, d: Doc, target: nat): Packing {
    if p.current == [] then Packing(p.done, [d])
    else if JsonlBytes(p.current) + LineBytes(d) > target then Packing(p.done + [p.current], [d])
    else Packing(p.done, p.current + [d])
  }

  function Pack(docs: seq<Doc>, target: nat): Packing {
    if docs == [] then Packing([], [])
    else PackOne(Pack(docs[..|docs| - 1], target), docs[|docs| - 1], target)
  }

  function AllShards(p: Packing): seq<seq<Doc>> {
    if p.current == [] then p.done else p.done + [p.current]
  }

  predicate Fits(docs: seq<Doc>, target: nat) {
    docs != [] && (JsonlBytes(docs) <= target || |docs| == 1)
  }

  // The first document of the next shard would not have fitted in this one.
  predicate Overflows(docs: seq<Doc>, next: seq<Doc>, target: nat) {
    next != [] && JsonlBytes(docs) + LineBytes(next[0]) > target
  }

  ghost predicate GreedyShards(shards: seq<seq<Doc>>, target: nat) {
    && (forall i :: 0 <= i < |shards| ==> Fits(shards[i], target))
    && (forall i, j :: 0 <= i && j == i + 1 < |shards| ==> Overflows(shards[i], shards[j], target))
  }

  lemma FlattenAppend(shards: seq<seq<Doc>>, last: seq<Doc>)
    ensures Flatten(shards + [last]) == Flatten(shards) + last
  {
    assert (shards + [last])[..|shards|] == shards;
  }

  lemma JsonlAppend(docs: seq<Doc>, d: Doc)
    ensures JsonlBytes(docs + [d]) == JsonlBytes(docs) + LineBytes(d)
    ensures TextBytes(docs + [d]) == TextBytes(docs) + Text.StringBytes(d.text)
  {
    assert (docs + [d])[..|docs|] == docs;
  }

  lemma NoBytes()
    ensures JsonlBytes([]) == 0 && TextBytes([]) == 0
  {
  }

  lemma PackOneKeepsDocs(p: Packing, d: Doc, target: nat)
    requires p.current == [] ==> p.done == []
    ensures Flatten(AllShards(PackOne(p, d, target))) == Flatten(AllShards(p)) + [d]
  {
    if p.current == [] {
      FlattenAppend([], [d]);
    } else {
      FlattenAppend(p.done, p.current);
      FlattenAppend(p.done + [p.current], [d]);
      FlattenAppend(p.done, p.current + [d]);
    }
  }

  lemma PackOneIsGreedy(p: Packing, d: Doc, target: nat)
    requires p.current == [] ==> p.done == []
    requires GreedyShards(AllShards(p), target)
    ensures GreedyShards(AllShards(PackOne(p, d, target)), target)
  {
    hide JsonlBytes;
    var was, now := AllShards(p), AllShards(PackOne(p, d, target));
    if p.current != [] {
      JsonlAppend(p.current, d);
      assert Fits(was[|was| - 1], target);
      if JsonlBytes(p.current) + LineBytes(d) > target {
        assert now == was + [[d]];
      } else {
        assert now == was[..|was| - 1] + [p.current + [d]];
        forall i, j | 0 <= i && j == i + 1 < |now| ensures Overflows(now[i], now[j], target) {
          assert Overflows(was[i], was[j], target);
        }
      }
    }
  }

  lemma PackAppend(docs: seq<Doc>, d: Doc, target: nat)
    ensures Pack(docs + [d], target) == PackOne(Pack(docs, target), d, target)
  {
    assert (docs + [d])[..|docs|] == docs;
  }

  lemma {:induction false} PackStarts(docs: seq<Doc>, target: nat)
    ensures Pack(docs, target).current == [] <==> docs == []
    ensures Pack(docs, target).current == [] ==> Pack(docs, target).done == []
  {
    if docs != [] { PackStarts(docs[..|docs| - 1], target); }
  }

  lemma NothingPacked(target: nat)
    ensures Flatten(AllShards(Pack([], target))) == [] && GreedyShards(AllShards(Pack([], target)), target)
  {
  }

  // Writer round trip: the shards hold the documents in order, none is empty, each is
  // within the target unless it holds one document, and none is closed early.
  lemma {:induction false} PackRoundTrip(docs: seq<Doc>, target: nat)
    ensures Flatten(AllShards(Pack(docs, target))) == docs
    ensures GreedyShards(AllShards(Pack(docs, target)), target)
  {
    hide PackOne, GreedyShards, AllShards, Flatten, ValidDoc, JsonlBytes;
    if docs == [] {
      NothingPacked(target);
    } else {
      var init, d := docs[..|docs| - 1], docs[|docs| - 1];
      PackRoundTrip(init, target);
      PackStarts(init, target);
      PackOneKeepsDocs(Pack(init, target), d, target);
      PackOneIsGreedy(Pack(init, target), d, target);
    }
  }

  // ------------------------------------------------------- Manifests

  function SumDocuments(shards: seq<Shard>): nat {
    if shards == [] then 0 else SumDocuments(shards[..|shards| - 1]) + shards[|shards| - 1].documents
  }

  function SumUtf8(shards: seq<Shard>): nat {
    if shards == [] then 0 else SumUtf8(shards[..|shards| - 1]) + shards[|shards| - 1].utf8Bytes
  }

  function SumJsonl(shards: seq<Shard>): nat {
    if shards == [] then 0 else SumJsonl(shards[..|shards| - 1]) + shards[|shards| - 1].jsonlBytes
  }

  // Digests and path safety are properties of the host, so they are parameters.
  datatype Host = Host(validHash: string -> bool, safePath: string -> bool)

  predicate ShardEntryOk(s: Shard, h: Host) {
    s.documents > 0 && s.utf8Bytes > 0 && s.jsonlBytes > 0 && s.fileBytes > 0 && h.validHash(s.hash)
        && h.safePath(s.path)
  }

  predicate InputOk(input: Input, h: Host) {
    Text.TrimSpace(input.path) != "" && input.fileBytes > 0 && h.validHash(input.hash)
  }

  predicate SourceOk(s: Source, h: Host) {
    && Text.TrimSpace(s.id) != "" && Text.TrimSpace(s.name) != "" && Text.TrimSpace(s.datasetUrl) != ""
    && Text.TrimSpace(s.license) != "" && Text.TrimSpace(s.licenseUrl) != "" && Text.TrimSpace(s.attribution) != ""
    && Text.TrimSpace(s.revision) != ""
    && forall i :: 0 <= i < |s.inputs| ==> InputOk(s.inputs[i], h)
  }

  predicate SourcesOk(sources: seq<Source>, h: Host) {
    && (forall i :: 0 <= i < |sources| ==> SourceOk(sources[i], h))
    && (forall i, j :: 0 <= i < j < |sources| ==> sources[i].id != sources[j].id)
  }

  method ValidateCorpusSources(sources: seq<Source>, h: Host) returns (ok: bool)
    ensures ok <==> SourcesOk(sources, h)
  {
    hide Text.TrimSpace;
    var seen := {};
    for index := 0 to |sources|
      invariant SourcesOk(sources[..index], h)
      invariant seen == set i | 0 <= i < index :: sources[i].id
    {
      var source := sources[index];
      if Text.TrimSpace(source.id) == "" || Text.TrimSpace(source.name) == ""
          || Text.TrimSpace(source.datasetUrl) == "" ||
         Text.TrimSpace(source.license) == "" || Text.TrimSpace(source.licenseUrl) == "" ||
         Text.TrimSpace(source.attribution) == "" || Text.TrimSpace(source.revision) == "" {
        return false;
      }
      if source.id in seen { return false; }
      seen := seen + {source.id};
      for inputIndex := 0 to |source.inputs|
        invariant forall i :: 0 <= i < inputIndex ==> InputOk(source.inputs[i], h)
      {
        var input := source.inputs[inputIndex];
        if Text.TrimSpace(input.path) == "" || input.fileBytes <= 0 { return false; }
        if !h.validHash(input.hash) { return false; }
      }
    }
    assert sources[..|sources|] == sources;
    ok := true;
  }

  predicate ManifestOk(m: Manifest, h: Host) {
    && m.version == MANIFEST_VERSION && m.documentFormat == "jsonl"
        && (m.compression == "none" || m.compression == "gzip")
    && m.shards != [] && SourcesOk(m.sources, h)
    && (forall i :: 0 <= i < |m.shards| ==> ShardEntryOk(m.shards[i], h))
    && m.documents == SumDocuments(m.shards) && m.utf8Bytes == SumUtf8(m.shards) && m.jsonlBytes == SumJsonl(m.shards)
  }

  method ValidateCorpusManifest(m: Manifest, h: Host) returns (ok: bool)
    ensures ok <==> ManifestOk(m, h)
  {
    hide SourcesOk;
    if m.version != MANIFEST_VERSION { return false; }
    if m.documentFormat != "jsonl" { return false; }
    if m.compression != "none" && m.compression != "gzip" { return false; }
    if |m.shards| == 0 { return false; }
    var sourcesOk := ValidateCorpusSources(m.sources, h);
    if !sourcesOk { return false; }
    var documents, utf8Bytes, jsonlBytes := 0, 0, 0;
    for index := 0 to |m.shards|
      invariant forall i :: 0 <= i < index ==> ShardEntryOk(m.shards[i], h)
      invariant documents == SumDocuments(m.shards[..index])
      invariant utf8Bytes == SumUtf8(m.shards[..index]) && jsonlBytes == SumJsonl(m.shards[..index])
    {
      var shard := m.shards[index];
      if shard.documents <= 0 || shard.utf8Bytes <= 0 || shard.jsonlBytes <= 0 || shard.fileBytes <= 0 { return false; }
      if !h.validHash(shard.hash) || !h.safePath(shard.path) { return false; }
      assert m.shards[..index + 1][..index] == m.shards[..index];
      documents := documents + shard.documents;
      utf8Bytes := utf8Bytes + shard.utf8Bytes;
      jsonlBytes := jsonlBytes + shard.jsonlBytes;
    }
    assert m.shards[..|m.shards|] == m.shards;
    ok := documents == m.documents && utf8Bytes == m.utf8Bytes && jsonlBytes == m.jsonlBytes;
  }

  // A manifest entry tells the truth about the documents of its shard.
  ghost predicate Describes(s: Shard, docs: seq<Doc>) {
    s.documents == |docs| && s.utf8Bytes == TextBytes(docs) && s.jsonlBytes == JsonlBytes(docs)
  }

  lemma NonEmptyShardCounts(docs: seq<Doc>)
    requires docs != [] && forall i :: 0 <= i < |docs| ==> ValidDoc(docs[i])
    ensures TextBytes(docs) > 0 && JsonlBytes(docs) > 0
  {
    hide Text.TrimSpace;
    assert Text.StringBytes(docs[|docs| - 1].text) > 0;
  }
}

module CorpusWriter {
  import opened CorpusModel
  import opened Wrappers
  import Text

  datatype WriterError = Closed | InvalidDocument | NoDocuments | TooLate | InvalidSources

  // The shard file being written; docs is what has reached it so far.
  datatype CurrentShard = CurrentShard(path: string, docs: seq<Doc>, documents: nat, utf8Bytes: nat, jsonlBytes: nat)

  lemma {:induction false} ShardDocsAreAdded(shards: seq<seq<Doc>>, i: nat)
    requires i < |shards|
    ensures forall k :: 0 <= k < |shards[i]| ==> shards[i][k] in Flatten(shards)
  {
    var n := |shards| - 1;
    if i < n { ShardDocsAreAdded(shards[..n], i); }
  }

  class Writer {
    const target: nat
    const host: Host
    const pathOf: nat -> string              // shard-00000.jsonl, ...
    const hashOf: seq<Doc> -> string         // digest of a finished shard file
    const sizeOf: seq<Doc> -> nat            // its size on disk
    var manifest: Manifest
    var current: Option<CurrentShard>
    var closed: bool
    var disk: seq<seq<Doc>>                  // finished shard files
    ghost var added: seq<Doc>                // every document accepted by Add

    ghost predicate EntryFor(s: Shard, docs: seq<Doc>, i: nat)
    {
      Describes(s, docs) && s.path == pathOf(i) && s.hash == hashOf(docs) && s.fileBytes == sizeOf(docs)
    }

    // The manifest describes these shard files, entry by entry and in total.
    ghost predicate ManifestCovers(files: seq<seq<Doc>>)
      reads `manifest
    {
      && manifest.version == MANIFEST_VERSION && manifest.documentFormat == "jsonl"
      && (manifest.compression == "none" || manifest.compression == "gzip")
      && SourcesOk(manifest.sources, host) && |manifest.shards| == |files|
      && (forall i :: 0 <= i < |files| ==> EntryFor(manifest.shards[i], files[i], i))
      && manifest.documents == SumDocuments(manifest.shards)
      && manifest.utf8Bytes == SumUtf8(manifest.shards) && manifest.jsonlBytes == SumJsonl(manifest.shards)
    }

    ghost predicate Valid()
      reads this
    {
      && Pack(added, target) == Packing(disk, if current.Some? then current.value.docs else [])
      && (current.Some? ==>
            && current.value.docs != [] && current.value.documents == |current.value.docs|
            && current.value.utf8Bytes == TextBytes(current.value.docs)
            && current.value.jsonlBytes == JsonlBytes(current.value.docs)
            && current.value.path == pathOf(|disk|))
      && (forall i :: 0 <= i < |added| ==> ValidDoc(added[i]))
      && ManifestCovers(disk)
    }

    constructor (target: nat, useGzip: bool, host: Host, pathOf: nat -> string, hashOf: seq<Doc> -> string,
                 sizeOf: seq<Doc> -> nat)
      requires target > 0
      ensures Valid() && added == [] && !closed && this.target == target && this.host == host
      ensures this.pathOf == pathOf && this.hashOf == hashOf && this.sizeOf == sizeOf
    {
      this.target, this.host, this.pathOf, this.hashOf, this.sizeOf := target, host, pathOf, hashOf, sizeOf;
      manifest := Manifest(MANIFEST_VERSION, "jsonl", if useGzip then "gzip" else "none", 0, 0, 0, [], []);
      current, closed, disk, added := None, false, [], [];
    }

    method FinishCurrentShard()
      requires ManifestCovers(disk)
      requires current.Some? ==>
        && current.value.documents == |current.value.docs| && current.value.utf8Bytes == TextBytes(current.value.docs)
        && current.value.jsonlBytes == JsonlBytes(current.value.docs) && current.value.path == pathOf(|disk|)
      modifies `manifest, `current, `disk
      ensures current == None && ManifestCovers(disk) && |manifest.shards| == |disk|
      ensures manifest.sources == old(manifest).sources
      ensures disk == if old(current).Some? then old(disk) + [old(current).value.docs] else old(disk)
    {
      if current.None? { return; }
      var shard := current.value;
      var state := Shard(shard.path, shard.documents, shard.utf8Bytes, shard.jsonlBytes, sizeOf(shard.docs),
                         hashOf(shard.docs));
      var shards := manifest.shards + [state];
      assert shards[..|shards| - 1] == manifest.shards;
      disk := disk + [shard.docs];
      manifest := manifest.(shards := shards, documents := manifest.documents + state.documents,
                            utf8Bytes := manifest.utf8Bytes + state.utf8Bytes,
                            jsonlBytes := manifest.jsonlBytes + state.jsonlBytes);
      current := None;
    }

    // Declares the sources, before the first document and once they are complete.
    method SetSources(sources: seq<Source>) returns (r: Result<(), WriterError>)
      requires Valid()
      modifies `manifest
      ensures Valid()
      ensures r.Ok? <==> !closed && added == [] && SourcesOk(sources, host)
      ensures manifest == if r.Ok? then old(manifest).(sources := sources) else old(manifest)
    {
      hide SourcesOk, Pack, ValidDoc;
      PackStarts(added, target);
      if closed { return Err(Closed); }
      if current.Some? || manifest.documents != 0 { return Err(TooLate); }
      var ok := ValidateCorpusSources(sources, host);
      if !ok { return Err(InvalidSources); }
      manifest := manifest.(sources := sources);
      r := Ok(());
    }

    // Accepts a document, starting a new shard when it would overflow the current one.
    method Add(document: Doc) returns (r: Result<(), WriterError>)
      requires Valid()
      modifies this
      ensures Valid() && closed == old(closed)
      ensures r.Ok? <==> !old(closed) && ValidDoc(document)
      ensures added == if r.Ok? then old(added) + [document] else old(added)
      ensures r.Err? ==> disk == old(disk) && manifest == old(manifest) && current == old(current)
    {
      hide ManifestCovers, ValidDoc, JsonlBytes, TextBytes, Pack;
      if closed { return Err(Closed); }
      if !ValidDoc(document) { return Err(InvalidDocument); }
      var line := LineBytes(document);
      ghost var p := Pack(added, target);
      if current.None? || (current.value.documents > 0 && current.value.jsonlBytes + line > target) {
        FinishCurrentShard();
        current := Some(CurrentShard(pathOf(|manifest.shards|), [], 0, 0, 0));
      }
      var shard := current.value;
      NoBytes();
      JsonlAppend(shard.docs, document);
      current := Some(shard.(docs := shard.docs + [document], documents := shard.documents + 1,
                             utf8Bytes := shard.utf8Bytes + Text.StringBytes(document.text),
                             jsonlBytes := shard.jsonlBytes + line));
      PackAppend(added, document, target);
      added := added + [document];
      r := Ok(());
    }

    lemma ManifestPasses()
      requires ManifestCovers(disk) && disk != [] && Flatten(disk) == added
      requires forall i :: 0 <= i < |disk| ==> disk[i] != []
      requires forall i :: 0 <= i < |added| ==> ValidDoc(added[i])
      ensures (forall i :: 0 <= i < |disk| ==>
                host.validHash(hashOf(disk[i])) && host.safePath(pathOf(i)) && sizeOf(disk[i]) > 0) ==>
                ManifestOk(manifest, host)
    {
      forall i | 0 <= i < |disk| ensures disk[i] != [] && forall k :: 0 <= k < |disk[i]| ==> ValidDoc(disk[i][k]) {
        ShardDocsAreAdded(disk, i);
      }
      forall i | 0 <= i < |disk| ensures TextBytes(disk[i]) > 0 && JsonlBytes(disk[i]) > 0 {
        NonEmptyShardCounts(disk[i]);
      }
      forall i | 0 <= i < |disk| ensures EntryFor(manifest.shards[i], disk[i], i) {}
    }

    // Closes the last shard. The manifest covers every accepted document and passes
    // validation whenever digests, paths and file sizes are well formed.
    method Close() returns (r: Result<Manifest, WriterError>)
      requires Valid()
      modifies this
      ensures closed
      ensures r.Ok? <==> !old(closed) && old(current).Some?
      ensures r.Ok? ==>
                added == old(added) && disk == AllShards(Pack(added, target)) && manifest == r.value
                    && ManifestCovers(disk)
      ensures r.Ok? ==> Flatten(disk) == added && GreedyShards(disk, target)
      ensures r.Ok? ==> r.value.sources == old(manifest).sources
      ensures r.Ok? && (forall i :: 0 <= i < |disk| ==>
                host.validHash(hashOf(disk[i])) && host.safePath(pathOf(i)) && sizeOf(disk[i]) > 0) ==>
                ManifestOk(r.value, host)
    {
      if closed { return Err(Closed); }
      closed := true;
      if current.None? { return Err(NoDocuments); }
      hide Pack, Flatten, ManifestOk, Describes, ValidDoc;
      PackRoundTrip(added, target);
      FinishCurrentShard();
      ManifestPasses();
      r := Ok(manifest);
    }
  }
}
