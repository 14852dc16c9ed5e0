// BM25 search over the postings, proved against a direct scan of all chunks.

module RagSearch {
  import opened RagIndex
  import opened Wrappers
  import Order
  import Text

  // Everything a score depends on: the tokenizer and logarithm, the chunks, their
  // average length and the query's terms.
  datatype Scoring = Scoring(h: Host, chunks: seq<Chunk>, average: real, query: seq<string>)

  ghost predicate ScoringOk(s: Scoring) {
    HostOk(s.h) && s.chunks != [] && s.average > 0.0
  }

  function QueryTerms(s: Scoring): set<string> {
    set t | t in s.query
  }

  // ------------------------------------------------------- The direct scan

  // Number of chunks containing the term.
  function DocumentFrequency(h: Host, chunks: seq<Chunk>, t: string): (n: nat)
    ensures n <= |chunks|
  {
    if chunks == [] then 0
    else DocumentFrequency(h, chunks[..|chunks| - 1], t) + if Frequency(h, chunks[|chunks| - 1], t) > 0 then 1 else 0
  }

  function IdfOf(h: Host, total: nat, df: nat): real {
    h.log(1.0 + (total as real - df as real + 0.5) / (df as real + 0.5))
  }

  function Idf(s: Scoring, t: string): real {
    IdfOf(s.h, |s.chunks|, DocumentFrequency(s.h, s.chunks, t))
  }

  function QueryWeight(s: Scoring, t: string): real {
    1.0 + s.h.log(Count(s.query, t) as real)
  }

  function Denominator(s: Scoring, c: Chunk, f: nat): real
    requires s.average > 0.0
  {
    f as real + K1 * (1.0 - B + B * (c.tokens as real / s.average))
  }

  function Saturated(idf: real, weight: real, f: nat, denominator: real): real
    requires denominator > 0.0
  {
    idf * weight * f as real * (K1 + 1.0) / denominator
  }

  lemma DenominatorPositive(s: Scoring, c: Chunk, f: nat)
    requires s.average > 0.0 && f > 0
    ensures Denominator(s, c, f) > 0.0
  {
    var ratio := c.tokens as real / s.average;
    assert ratio >= 0.0;
    assert B * ratio >= 0.0;
  }

  // One query term's share of a chunk's score.
  function TermScore(s: Scoring, c: Chunk, t: string): real
    requires s.average > 0.0
  {
    var f := Frequency(s.h, c, t);
    if f == 0 then 0.0
    else DenominatorPositive(s, c, f); Saturated(Idf(s, t), QueryWeight(s, t), f, Denominator(s, c, f))
  }

  // The bonus for a term in the title of a document's first chunk.
  function TitleScore(s: Scoring, c: Chunk, t: string): real {
    if c.number == 0 && c.title != "" && t in s.h.tokenize(c.title) then TITLE_SCORE * Idf(s, t) * QueryWeight(s, t)
    else 0.0
  }

  datatype Part = Body | Title

  function Share(s: Scoring, part: Part, c: Chunk, t: string): real
    requires s.average > 0.0
  {
    if part.Body? then TermScore(s, c, t) else TitleScore(s, c, t)
  }

  ghost function Sum(s: Scoring, part: Part, c: Chunk, terms: set<string>): real
    requires s.average > 0.0
  {
    if terms == {} then 0.0
    else var t :| t in terms; Share(s, part, c, t) + Sum(s, part, c, terms - {t})
  }

  // The score a scan of one chunk gives: no postings involved.
  ghost function DirectScore(s: Scoring, c: Chunk): real
    requires s.average > 0.0
  {
    Sum(s, Body, c, QueryTerms(s)) + Sum(s, Title, c, QueryTerms(s))
  }

  predicate Hit(s: Scoring, c: Chunk) {
    exists t :: t in s.query && Frequency(s.h, c, t) > 0
  }

  // The order in which terms are added up does not matter.
  lemma {:induction false} SumTakesAny(s: Scoring, part: Part, c: Chunk, terms: set<string>, x: string)
    requires s.average > 0.0 && x in terms
    ensures Sum(s, part, c, terms) == Share(s, part, c, x) + Sum(s, part, c, terms - {x})
    decreases terms
  {
    hide Share;
    var t :| t in terms && Sum(s, part, c, terms) == Share(s, part, c, t) + Sum(s, part, c, terms - {t});
    if t != x {
      SumTakesAny(s, part, c, terms - {t}, x);
      SumTakesAny(s, part, c, terms - {x}, t);
      assert terms - {t} - {x} == terms - {x} - {t};
    }
  }

  lemma SumAdds(s: Scoring, part: Part, c: Chunk, terms: set<string>, x: string)
    requires s.average > 0.0 && x !in terms
    ensures Sum(s, part, c, terms + {x}) == Sum(s, part, c, terms) + Share(s, part, c, x)
  {
    SumTakesAny(s, part, c, terms + {x}, x);
    assert terms + {x} - {x} == terms;
  }

  lemma IdfPositive(h: Host, total: nat, df: nat)
    requires HostOk(h) && df <= total
    ensures IdfOf(h, total, df) > 0.0
  {
    var x := (total as real - df as real + 0.5) / (df as real + 0.5);
    assert x > 0.0;
  }

  lemma WeightPositive(s: Scoring, t: string)
    requires HostOk(s.h) && t in s.query
    ensures QueryWeight(s, t) > 0.0
  {
    CountPositive(s.query, t);
    assert Count(s.query, t) == 1 || Count(s.query, t) as real > 1.0;
  }

  lemma SaturatedPositive(idf: real, weight: real, f: nat, denominator: real)
    requires idf > 0.0 && weight > 0.0 && f > 0 && denominator > 0.0
    ensures Saturated(idf, weight, f, denominator) > 0.0
  {
    var x := idf * weight;
    assert x > 0.0;
    var y := x * f as real;
    assert y > 0.0;
    assert y * (K1 + 1.0) > 0.0;
  }

  lemma ProductPositive(x: real, y: real)
    requires x > 0.0 && y > 0.0
    ensures TITLE_SCORE * x * y > 0.0
  {
    assert TITLE_SCORE * x > 0.0;
  }

  lemma SharePositive(s: Scoring, part: Part, c: Chunk, t: string)
    requires ScoringOk(s) && t in s.query
    ensures Share(s, part, c, t) >= 0.0
    ensures part.Body? ==> (Share(s, part, c, t) > 0.0 <==> Frequency(s.h, c, t) > 0)
    ensures part.Title? && Share(s, part, c, t) != 0.0 ==> Frequency(s.h, c, t) > 0
  {
    hide HostOk, IdfOf, QueryWeight, Saturated, Denominator;
    IdfPositive(s.h, |s.chunks|, DocumentFrequency(s.h, s.chunks, t));
    WeightPositive(s, t);
    var f := Frequency(s.h, c, t);
    if part.Body? && f > 0 {
      DenominatorPositive(s, c, f);
      SaturatedPositive(Idf(s, t), QueryWeight(s, t), f, Denominator(s, c, f));
    }
    if part.Title? {
      CountPositive(s.h.tokenize(c.title), t);
      ProductPositive(Idf(s, t), QueryWeight(s, t));
    }
  }

  lemma {:induction false} SumSign(s: Scoring, part: Part, c: Chunk, terms: set<string>)
    requires ScoringOk(s) && terms <= QueryTerms(s)
    ensures Sum(s, part, c, terms) >= 0.0
    ensures (forall t :: t in terms ==> Frequency(s.h, c, t) == 0) ==> Sum(s, part, c, terms) == 0.0
    ensures part.Body? && (exists t :: t in terms && Frequency(s.h, c, t) > 0) ==> Sum(s, part, c, terms) > 0.0
    decreases terms
  {
    hide Share, Frequency, HostOk;
    if terms != {} {
      var t :| t in terms && Sum(s, part, c, terms) == Share(s, part, c, t) + Sum(s, part, c, terms - {t});
      SumSign(s, part, c, terms - {t});
      SharePositive(s, part, c, t);
    }
  }

  // A chunk has a positive direct score exactly when it contains a query term.
  lemma ScoreIsPositiveIffHit(s: Scoring, c: Chunk)
    requires ScoringOk(s)
    ensures DirectScore(s, c) > 0.0 <==> Hit(s, c)
    ensures !Hit(s, c) ==> DirectScore(s, c) == 0.0
  {
    hide Sum, Frequency, HostOk;
    SumSign(s, Body, c, QueryTerms(s));
    SumSign(s, Title, c, QueryTerms(s));
  }

  // ------------------------------------------------------- From postings

  // The list holds exactly the chunks among the first n that contain the term.
  ghost predicate Enumerated(h: Host, chunks: seq<Chunk>, t: string, list: seq<Posting>) {
    && (forall i :: 0 <= i < |list| ==> list[i].chunk < |chunks| && Frequency(h, chunks[list[i].chunk], t) > 0)
    && (forall i, j :: 0 <= i < j < |list| ==> list[i].chunk < list[j].chunk)
    && (forall c :: 0 <= c < |chunks| && Frequency(h, chunks[c], t) > 0 ==> Lists(list, c))
  }

  lemma LastIsListed(h: Host, chunks: seq<Chunk>, t: string, list: seq<Posting>)
    requires Enumerated(h, chunks, t, list) && chunks != [] && Frequency(h, chunks[|chunks| - 1], t) > 0
    ensures list != [] && list[|list| - 1].chunk == |chunks| - 1
  {
    hide Frequency;
    assert Lists(list, |chunks| - 1);
    var k :| 0 <= k < |list| && list[k].chunk == |chunks| - 1;
    assert list[k].chunk <= list[|list| - 1].chunk < |chunks|;
  }

  lemma DropLastHit(h: Host, chunks: seq<Chunk>, t: string, list: seq<Posting>)
    requires Enumerated(h, chunks, t, list) && chunks != [] && Frequency(h, chunks[|chunks| - 1], t) > 0
    ensures list != [] && Enumerated(h, chunks[..|chunks| - 1], t, list[..|list| - 1])
  {
    hide Frequency;
    var n := |chunks| - 1;
    LastIsListed(h, chunks, t, list);
    var k := |list| - 1;
    forall c | 0 <= c < n && Frequency(h, chunks[c], t) > 0 ensures Lists(list[..k], c) {
      assert Lists(list, c);
      var i :| 0 <= i < |list| && list[i].chunk == c;
      assert list[..k][i].chunk == c;
    }
  }

  lemma DropLastMiss(h: Host, chunks: seq<Chunk>, t: string, list: seq<Posting>)
    requires Enumerated(h, chunks, t, list) && chunks != [] && Frequency(h, chunks[|chunks| - 1], t) == 0
    ensures Enumerated(h, chunks[..|chunks| - 1], t, list)
  {
    hide Frequency;
  }

  lemma NothingListed(h: Host, t: string, list: seq<Posting>)
    requires Enumerated(h, [], t, list)
    ensures list == []
  {
    hide Frequency;
    assert forall i :: 0 <= i < |list| ==> list[i].chunk < 0;
    assert |list| > 0 ==> list[0].chunk < 0;
  }

  // A faithful list is as long as the term's document frequency.
  lemma {:induction false} ListLength(h: Host, chunks: seq<Chunk>, t: string, list: seq<Posting>)
    requires Enumerated(h, chunks, t, list)
    ensures |list| == DocumentFrequency(h, chunks, t)
  {
    if chunks != [] {
      hide Frequency, Enumerated;
      var n := |chunks| - 1;
      if Frequency(h, chunks[n], t) > 0 {
        DropLastHit(h, chunks, t, list);
        ListLength(h, chunks[..n], t, list[..|list| - 1]);
      } else {
        DropLastMiss(h, chunks, t, list);
        ListLength(h, chunks[..n], t, list);
      }
    } else {
      assert list == [] by { NothingListed(h, t, list); }
    }
  }

  lemma FaithfulEnumerates(h: Host, chunks: seq<Chunk>, postings: map<string, seq<Posting>>, t: string)
    requires Faithful(h, chunks, postings)
    ensures Enumerated(h, chunks, t, if t in postings then postings[t] else [])
  {
    hide Frequency;
    if t in postings { assert ListOk(h, chunks, t, postings[t]); }
  }

  lemma PostingsCount(h: Host, chunks: seq<Chunk>, postings: map<string, seq<Posting>>, t: string)
    requires Faithful(h, chunks, postings)
    ensures (if t in postings then |postings[t]| else 0) == DocumentFrequency(h, chunks, t)
  {
    hide Faithful, Enumerated, DocumentFrequency;
    FaithfulEnumerates(h, chunks, postings, t);
    ListLength(h, chunks, t, if t in postings then postings[t] else []);
  }

  // ------------------------------------------------------- The scoring loops

  // After some of the query's terms: exactly the chunks they hit, each with their shares.
  ghost predicate PartialScores(s: Scoring, done: set<string>, scores: map<nat, real>)
    requires s.average > 0.0
  {
    && (forall c :: c in scores ==> c < |s.chunks|)
    && (forall c: nat :: c < |s.chunks| ==>
        (c in scores <==> exists t :: t in done && Frequency(s.h, s.chunks[c], t) > 0))
    && (forall c :: c in scores ==> scores[c] == Sum(s, Body, s.chunks[c], done))
  }

  lemma ListGrows(list: seq<Posting>, i: nat)
    requires i < |list| && forall j, k :: 0 <= j < k < |list| ==> list[j].chunk < list[k].chunk
    ensures forall c: nat :: Lists(list[..i + 1], c) <==> Lists(list[..i], c) || c == list[i].chunk
    ensures !Lists(list[..i], list[i].chunk)
  {
    forall c: nat ensures Lists(list[..i + 1], c) <==> Lists(list[..i], c) || c == list[i].chunk {
      if Lists(list[..i], c) {
        var k :| 0 <= k < i && list[..i][k].chunk == c;
        assert list[..i + 1][k].chunk == c;
      }
      if c == list[i].chunk { assert list[..i + 1][i].chunk == c; }
    }
  }

  lemma NoneListed(list: seq<Posting>)
    ensures forall c: nat :: !Lists(list[..0], c)
  {
  }

  // One term: adds its share to every chunk on its list.
  method AddPostings(s: Scoring, list: seq<Posting>, t: string, idf: real, weight: real, before: map<nat, real>)
    returns (after: map<nat, real>)
    requires ScoringOk(s) && ListOk(s.h, s.chunks, t, list) && idf == Idf(s, t) && weight == QueryWeight(s, t)
    ensures forall c: nat :: c in after <==> c in before || Lists(list, c)
    ensures forall c :: c in after ==> c < |s.chunks| || c in before
    ensures forall c :: c in after && Lists(list, c) ==>
              after[c] == (if c in before then before[c] else 0.0) + TermScore(s, s.chunks[c], t)
    ensures forall c :: c in after && !Lists(list, c) ==> after[c] == before[c]
  {
    hide Frequency, Saturated, Denominator, QueryWeight, Idf, HostOk, Lists;
    NoneListed(list);
    after := before;
    for i := 0 to |list|
      invariant forall c: nat :: c in after <==> c in before || Lists(list[..i], c)
      invariant forall c :: c in after && Lists(list[..i], c) ==>
        c < |s.chunks| && after[c] == (if c in before then before[c] else 0.0) + TermScore(s, s.chunks[c], t)
      invariant forall c :: c in after && !Lists(list[..i], c) ==> after[c] == before[c]
    {
      var posting := list[i];
      var chunk := s.chunks[posting.chunk];
      DenominatorPositive(s, chunk, posting.frequency);
      ListGrows(list, i);
      var share := Saturated(idf, weight, posting.frequency, Denominator(s, chunk, posting.frequency));
      after := after[posting.chunk := (if posting.chunk in after then after[posting.chunk] else 0.0) + share];
    }
    assert list[..|list|] == list;
  }

  // The list holds exactly the chunks that contain the term.
  lemma ListsIffHit(s: Scoring, postings: map<string, seq<Posting>>, t: string, c: nat)
    requires Faithful(s.h, s.chunks, postings) && c < |s.chunks|
    ensures (t in postings && Lists(postings[t], c)) <==> Frequency(s.h, s.chunks[c], t) > 0
  {
    hide Frequency;
    if t in postings {
      assert ListOk(s.h, s.chunks, t, postings[t]);
    }
  }

  lemma NoFrequencyNoScore(s: Scoring, c: Chunk, t: string)
    requires s.average > 0.0 && Frequency(s.h, c, t) == 0
    ensures TermScore(s, c, t) == 0.0
  {
  }

  // A whole term processed: absent terms change nothing.
  lemma TermDone(s: Scoring, postings: map<string, seq<Posting>>, done: set<string>, t: string,
                 before: map<nat, real>, after: map<nat, real>)
    requires ScoringOk(s) && Faithful(s.h, s.chunks, postings) && PartialScores(s, done, before)
    requires t in s.query && t !in done && done <= QueryTerms(s)
    requires forall c: nat :: c in after <==> c in before || (t in postings && Lists(postings[t], c))
    requires forall c :: c in after ==> c < |s.chunks|
    requires forall c :: c in after ==>
               after[c] == (if c in before then before[c] else 0.0) +
                           (if t in postings && Lists(postings[t], c) then TermScore(s, s.chunks[c], t) else 0.0)
    ensures PartialScores(s, done + {t}, after)
  {
    hide Frequency, TermScore, Faithful, HostOk, Sum;
    forall c: nat | c < |s.chunks|
      ensures c in after <==> exists x :: x in done + {t} && Frequency(s.h, s.chunks[c], x) > 0
      ensures c in after ==> after[c] == Sum(s, Body, s.chunks[c], done + {t})
    {
      ListsIffHit(s, postings, t, c);
      SumAdds(s, Body, s.chunks[c], done, t);
      SharePositive(s, Body, s.chunks[c], t);
      SumSign(s, Body, s.chunks[c], done);
      if Frequency(s.h, s.chunks[c], t) == 0 { NoFrequencyNoScore(s, s.chunks[c], t); }
      if c in after { assert c in before || Frequency(s.h, s.chunks[c], t) > 0; }
    }
  }

  lemma NothingScored(s: Scoring)
    requires s.average > 0.0
    ensures PartialScores(s, {}, map[])
  {
  }

  lemma ScoredChunks(s: Scoring, done: set<string>, scores: map<nat, real>)
    requires s.average > 0.0 && PartialScores(s, done, scores)
    ensures forall c :: c in scores ==> c < |s.chunks|
    ensures forall c: nat :: !Lists([], c)
  {
  }

  // The length of a term's list gives its idf.
  lemma KnownIdf(s: Scoring, postings: map<string, seq<Posting>>, t: string)
    requires Faithful(s.h, s.chunks, postings)
    ensures t in postings ==> IdfOf(s.h, |s.chunks|, |postings[t]|) == Idf(s, t)
    ensures (if t in postings then |postings[t]| else 0) == DocumentFrequency(s.h, s.chunks, t)
  {
    hide Faithful, IdfOf, DocumentFrequency;
    PostingsCount(s.h, s.chunks, postings, t);
  }

  lemma FaithfulList(h: Host, chunks: seq<Chunk>, postings: map<string, seq<Posting>>, t: string)
    requires Faithful(h, chunks, postings) && t in postings
    ensures ListOk(h, chunks, t, postings[t])
  {
  }

  lemma WeightIs(s: Scoring, t: string)
    ensures QueryWeight(s, t) == 1.0 + s.h.log(Count(s.query, t) as real)
  {
  }

  // Scores every chunk the postings reach, term by term in any order.
  method ScoreBodies(s: Scoring, postings: map<string, seq<Posting>>, queryFrequency: map<string, nat>)
    returns (scores: map<nat, real>, idfByTerm: map<string, real>)
    requires ScoringOk(s) && Faithful(s.h, s.chunks, postings)
    requires queryFrequency.Keys == QueryTerms(s) && forall t :: t in queryFrequency ==>
               queryFrequency[t] == Count(s.query, t)
    ensures PartialScores(s, QueryTerms(s), scores)
    ensures forall t :: t in idfByTerm ==> idfByTerm[t] == Idf(s, t)
    ensures forall t :: t in s.query && DocumentFrequency(s.h, s.chunks, t) > 0 ==> t in idfByTerm
  {
    hide HostOk, Faithful, DocumentFrequency, TermScore, PartialScores, Idf, IdfOf, QueryWeight, ListOk, Lists;
    scores, idfByTerm := map[], map[];
    NothingScored(s);
    var todo := queryFrequency.Keys;
    assert QueryTerms(s) - todo == {};
    while todo != {}
      invariant todo <= QueryTerms(s)
      invariant PartialScores(s, QueryTerms(s) - todo, scores)
      invariant forall t :: t in idfByTerm ==> idfByTerm[t] == Idf(s, t)
      invariant forall t :: t in s.query && t !in todo && DocumentFrequency(s.h, s.chunks, t) > 0 ==> t in idfByTerm
      decreases todo
    {
      var t :| t in todo;
      ghost var done := QueryTerms(s) - todo;
      ghost var before := scores;
      todo := todo - {t};
      KnownIdf(s, postings, t);
      var list := if t in postings then postings[t] else [];
      if |list| > 0 {
        var idf := IdfOf(s.h, |s.chunks|, |list|);
        idfByTerm := idfByTerm[t := idf];
        FaithfulList(s.h, s.chunks, postings, t);
        WeightIs(s, t);
        scores := AddPostings(s, list, t, idf, 1.0 + s.h.log(queryFrequency[t] as real), scores);
      }
      ScoredChunks(s, done, before);
      TermDone(s, postings, done, t, before, scores);
      assert done + {t} == QueryTerms(s) - todo;
    }
    assert QueryTerms(s) - todo == QueryTerms(s);
  }

  lemma TitleShare(s: Scoring, c: Chunk, t: string)
    requires s.average > 0.0 && c.number == 0 && c.title != ""
    ensures Share(s, Title, c, t) ==
              if t in s.h.tokenize(c.title) then TITLE_SCORE * Idf(s, t) * (1.0 + s.h.log(Count(s.query, t) as real))
              else 0.0
  {
    hide Idf;
  }

  lemma NothingSummed(s: Scoring, part: Part, c: Chunk)
    requires s.average > 0.0
    ensures Sum(s, part, c, {}) == 0.0
  {
  }

  lemma {:induction false} NoTitleNoBonus(s: Scoring, c: Chunk, terms: set<string>)
    requires s.average > 0.0 && (c.number != 0 || c.title == "")
    ensures Sum(s, Title, c, terms) == 0.0
    decreases terms
  {
    if terms != {} {
      var t :| t in terms && Sum(s, Title, c, terms) == Share(s, Title, c, t) + Sum(s, Title, c, terms - {t});
      NoTitleNoBonus(s, c, terms - {t});
      assert Share(s, Title, c, t) == TitleScore(s, c, t) == 0.0;
    }
  }

  lemma {:induction false} FrequencyCounts(h: Host, chunks: seq<Chunk>, c: nat, t: string)
    requires c < |chunks| && Frequency(h, chunks[c], t) > 0
    ensures DocumentFrequency(h, chunks, t) > 0
  {
    hide Frequency;
    if c < |chunks| - 1 { FrequencyCounts(h, chunks[..|chunks| - 1], c, t); }
  }

  // A title term of a first chunk is on that chunk's list, so its idf is known.
  lemma TitleTermIsPosted(s: Scoring, c: nat, t: string)
    requires c < |s.chunks| && s.chunks[c].number == 0 && t in s.h.tokenize(s.chunks[c].title)
    ensures DocumentFrequency(s.h, s.chunks, t) > 0
  {
    CountPositive(s.h.tokenize(s.chunks[c].title), t);
    FrequencyCounts(s.h, s.chunks, c, t);
  }

  // The title bonus of one scored chunk.
  method TitleBonus(s: Scoring, c: nat, queryFrequency: map<string, nat>, idfByTerm: map<string, real>)
    returns (bonus: real)
    requires ScoringOk(s) && c < |s.chunks|
    requires queryFrequency.Keys == QueryTerms(s) && forall t :: t in queryFrequency ==>
               queryFrequency[t] == Count(s.query, t)
    requires forall t :: t in idfByTerm ==> idfByTerm[t] == Idf(s, t)
    requires forall t :: t in s.query && DocumentFrequency(s.h, s.chunks, t) > 0 ==> t in idfByTerm
    ensures bonus == Sum(s, Title, s.chunks[c], QueryTerms(s))
  {
    hide HostOk, DocumentFrequency, Idf, QueryWeight, Share, Sum;
    var chunk := s.chunks[c];
    bonus := 0.0;
    NothingSummed(s, Title, chunk);
    if chunk.number != 0 || chunk.title == "" {
      NoTitleNoBonus(s, chunk, QueryTerms(s));
      return;
    }
    var titleTerms := set t | t in s.h.tokenize(chunk.title);
    var todo := queryFrequency.Keys;
    assert QueryTerms(s) - todo == {};
    while todo != {}
      invariant todo <= QueryTerms(s)
      invariant bonus == Sum(s, Title, chunk, QueryTerms(s) - todo)
      decreases todo
    {
      var t :| t in todo;
      ghost var done := QueryTerms(s) - todo;
      todo := todo - {t};
      SumAdds(s, Title, chunk, done, t);
      assert done + {t} == QueryTerms(s) - todo;
      TitleShare(s, chunk, t);
      if t in titleTerms {
        TitleTermIsPosted(s, c, t);
        var idf := if t in idfByTerm then idfByTerm[t] else 0.0;
        bonus := bonus + TITLE_SCORE * idf * (1.0 + s.h.log(queryFrequency[t] as real));
      }
    }
    assert QueryTerms(s) - todo == QueryTerms(s);
  }

  // Every chunk a direct scan would score above zero, with exactly that score.
  ghost predicate DirectScores(s: Scoring, scores: map<nat, real>)
    requires s.average > 0.0
  {
    && (forall c :: c in scores ==> c < |s.chunks|)
    && (forall c: nat :: c < |s.chunks| ==> (c in scores <==> DirectScore(s, s.chunks[c]) > 0.0))
    && (forall c :: c in scores ==> scores[c] == DirectScore(s, s.chunks[c]))
  }

  // The second pass: titles.
  method AddTitles(s: Scoring, bodies: map<nat, real>, queryFrequency: map<string, nat>, idfByTerm: map<string, real>)
    returns (scores: map<nat, real>)
    requires ScoringOk(s) && forall c :: c in bodies ==>
               c < |s.chunks| && bodies[c] == Sum(s, Body, s.chunks[c], QueryTerms(s))
    requires queryFrequency.Keys == QueryTerms(s) && forall t :: t in queryFrequency ==>
               queryFrequency[t] == Count(s.query, t)
    requires forall t :: t in idfByTerm ==> idfByTerm[t] == Idf(s, t)
    requires forall t :: t in s.query && DocumentFrequency(s.h, s.chunks, t) > 0 ==> t in idfByTerm
    ensures scores.Keys == bodies.Keys && forall c :: c in scores ==> scores[c] == DirectScore(s, s.chunks[c])
  {
    hide HostOk, DocumentFrequency, Idf, Sum;
    scores := bodies;
    var todo := bodies.Keys;
    while todo != {}
      invariant todo <= bodies.Keys == scores.Keys
      invariant forall c :: c in scores ==> scores[c] == if c in todo then bodies[c] else DirectScore(s, s.chunks[c])
      decreases todo
    {
      var c :| c in todo;
      todo := todo - {c};
      var bonus := TitleBonus(s, c, queryFrequency, idfByTerm);
      scores := scores[c := scores[c] + bonus];
    }
  }

  method ScoreChunks(s: Scoring, postings: map<string, seq<Posting>>) returns (scores: map<nat, real>)
    requires ScoringOk(s) && Faithful(s.h, s.chunks, postings)
    ensures DirectScores(s, scores)
  {
    hide HostOk, Faithful, DocumentFrequency, Idf, Frequency, Weighted, Sum, TermScore, TitleScore;
    var queryFrequency: map<string, nat> := CountTerms(s.query, 1, map[]);
    forall t: string ensures Weighted(s.query, t, 1) == Count(s.query, t) && (Count(s.query, t) > 0 <==> t in s.query) {
      WeightedIsCount(s.query, t, 1);
      CountPositive(s.query, t);
    }
    var bodies, idfByTerm := ScoreBodies(s, postings, queryFrequency);
    scores := AddTitles(s, bodies, queryFrequency, idfByTerm);
    forall c: nat | c < |s.chunks| ensures c in scores <==> DirectScore(s, s.chunks[c]) > 0.0 {
      ScoreIsPositiveIffHit(s, s.chunks[c]);
      assert c in bodies <==> exists t :: t in QueryTerms(s) && Frequency(s.h, s.chunks[c], t) > 0;
    }
  }

  // ------------------------------------------------------- Ranking

  predicate Before(scores: map<nat, real>, a: nat, b: nat)
    requires a in scores && b in scores
  {
    scores[a] > scores[b] || (scores[a] == scores[b] && a < b)
  }

  ghost predicate Ranked(scores: map<nat, real>, order: seq<nat>) {
    && (forall i :: 0 <= i < |order| ==> order[i] in scores)
    && (forall i, j :: 0 <= i < j < |order| ==> Before(scores, order[i], order[j]))
  }

  // Score descending, index ascending.
  method Rank(scores: map<nat, real>) returns (order: seq<nat>)
    ensures Ranked(scores, order) && forall c :: c in scores <==> c in order
  {
    order := [];
    var rest := scores.Keys;
    while rest != {}
      invariant rest <= scores.Keys && Ranked(scores, order)
      invariant forall c :: c in scores <==> c in order || c in rest
      invariant forall i, c :: 0 <= i < |order| && c in rest ==> Before(scores, order[i], c)
      decreases rest
    {
      var best :| best in rest;
      var others := rest - {best};
      while others != {}
        invariant best in rest && others <= rest
        invariant forall c :: c in rest && c !in others && c != best ==> Before(scores, best, c)
        decreases others
      {
        var c :| c in others;
        others := others - {c};
        if Before(scores, c, best) { best := c; }
      }
      order := order + [best];
      rest := rest - {best};
    }
  }

  // One result: the chunk it came from and its score.
  datatype Found = Found(rank: nat, score: real, chunk: nat)

  function DocumentId(s: Scoring, c: nat): string
    requires c < |s.chunks|
  {
    s.chunks[c].documentId
  }

  // The best chunks of distinct documents, best first; a document is missing only
  // when k results are all better than its chunks.
  ghost predicate TopDocuments(s: Scoring, scores: map<nat, real>, found: seq<Found>, k: nat)
    requires forall c :: c in scores ==> c < |s.chunks|
  {
    && |found| <= k
    && (forall i :: 0 <= i < |found| ==>
          found[i].rank == i + 1 && found[i].chunk in scores && found[i].score == scores[found[i].chunk])
    && (forall i, j :: 0 <= i < j < |found| ==>
          Before(scores, found[i].chunk, found[j].chunk)
              && DocumentId(s, found[i].chunk) != DocumentId(s, found[j].chunk))
    && (forall i, c :: 0 <= i < |found| && c in scores && DocumentId(s, c) == DocumentId(s,
        found[i].chunk) && c != found[i].chunk ==>
          Before(scores, found[i].chunk, c))
    && (forall c :: c in scores ==>
          (exists i :: 0 <= i < |found| && DocumentId(s, found[i].chunk) == DocumentId(s, c)) ||
          (|found| == k && forall i :: 0 <= i < |found| ==> Before(scores, found[i].chunk, c)))
  }

  // After n entries of the ranking.
  ghost predicate Taken(s: Scoring, scores: map<nat, real>, order: seq<nat>, n: nat, found: seq<Found>,
                        seen: set<string>)
    requires n <= |order| && (forall i :: 0 <= i < |order| ==> order[i] in scores)
             && (forall c :: c in scores ==> c < |s.chunks|)
  {
    && (forall i :: 0 <= i < |found| ==>
          found[i].rank == i + 1 && found[i].chunk in scores && found[i].score == scores[found[i].chunk]
              && found[i].chunk in order[..n])
    && (forall i, j :: 0 <= i < j < |found| ==>
          Before(scores, found[i].chunk, found[j].chunk)
              && DocumentId(s, found[i].chunk) != DocumentId(s, found[j].chunk))
    && (forall d :: d in seen <==> exists i :: 0 <= i < |found| && DocumentId(s, found[i].chunk) == d)
    && (forall p, i :: 0 <= p < n && 0 <= i < |found| && DocumentId(s, order[p]) == DocumentId(s,
        found[i].chunk) && order[p] != found[i].chunk ==>
          Before(scores, found[i].chunk, order[p]))
    && (forall p :: 0 <= p < n ==> DocumentId(s, order[p]) in seen)
  }

  lemma NothingTaken(s: Scoring, scores: map<nat, real>, order: seq<nat>)
    requires Ranked(scores, order) && (forall c :: c in scores ==> c < |s.chunks|)
    ensures (forall i :: 0 <= i < |order| ==> order[i] in scores) && Taken(s, scores, order, 0, [], {})
  {
  }

  lemma RankedEntry(scores: map<nat, real>, order: seq<nat>, n: nat)
    requires Ranked(scores, order) && n < |order|
    ensures order[n] in scores
  {
  }

  lemma TakenGrows(s: Scoring, scores: map<nat, real>, order: seq<nat>, n: nat, found: seq<Found>)
    requires n < |order| && forall i :: 0 <= i < |found| ==> found[i].chunk in order[..n]
    ensures forall i :: 0 <= i < |found| ==> found[i].chunk in order[..n + 1]
  {
    assert order[..n + 1] == order[..n] + [order[n]];
  }

  lemma TakeNew(s: Scoring, scores: map<nat, real>, order: seq<nat>, n: nat, found: seq<Found>, seen: set<string>)
    requires n < |order| && (forall c :: c in scores ==> c < |s.chunks|)
             && (forall i :: 0 <= i < |order| ==> order[i] in scores)
    requires Taken(s, scores, order, n, found, seen) && DocumentId(s, order[n]) !in seen
    requires forall i :: 0 <= i < |found| ==>
               Before(scores, found[i].chunk, order[n]) && found[i].chunk in order[..n + 1]
    ensures Taken(s, scores, order, n + 1, found + [Found(|found| + 1, scores[order[n]], order[n])],
                  seen + {DocumentId(s, order[n])})
  {
    hide Before;
    var c := order[n];
    var id := DocumentId(s, c);
    var found' := found + [Found(|found| + 1, scores[c], c)];
    var seen' := seen + {id};
    assert c in order[..n + 1] by { assert order[..n + 1][n] == c; }
    forall d ensures d in seen' <==> exists i :: 0 <= i < |found'| && DocumentId(s, found'[i].chunk) == d {
      assert found'[|found|].chunk == c;
      if d in seen {
        var i :| 0 <= i < |found| && DocumentId(s, found[i].chunk) == d;
        assert found'[i] == found[i];
      }
    }
  }

  lemma LaterIsWorse(scores: map<nat, real>, order: seq<nat>, n: nat, a: nat, p: nat)
    requires Ranked(scores, order) && n <= |order| && a in order[..n] && p < |order|
    ensures n <= p ==> Before(scores, a, order[p])
  {
    var q :| 0 <= q < n && order[..n][q] == a;
    assert order[q] == a;
  }

  // The next entry is skipped when its document was seen, and appended otherwise.
  lemma TakeStep(s: Scoring, scores: map<nat, real>, order: seq<nat>, n: nat, found: seq<Found>, seen: set<string>)
    requires n < |order| && (forall c :: c in scores ==> c < |s.chunks|) && Ranked(scores, order)
    requires Taken(s, scores, order, n, found, seen)
    ensures DocumentId(s, order[n]) in seen ==> Taken(s, scores, order, n + 1, found, seen)
    ensures DocumentId(s, order[n]) !in seen ==>
              Taken(s, scores, order, n + 1, found + [Found(|found| + 1, scores[order[n]], order[n])],
                    seen + {DocumentId(s, order[n])})
  {
    var c := order[n];
    var id := DocumentId(s, c);
    forall i | 0 <= i < |found| ensures Before(scores, found[i].chunk, c) {
      LaterIsWorse(scores, order, n, found[i].chunk, n);
    }
    hide Before, Ranked;
    TakenGrows(s, scores, order, n, found);
    if id !in seen {
      TakeNew(s, scores, order, n, found, seen);
    }
  }

  lemma TakenIsTop(s: Scoring, scores: map<nat, real>, order: seq<nat>, n: nat, found: seq<Found>, seen: set<string>,
                   k: nat)
    requires n <= |order| && (forall c :: c in scores ==> c < |s.chunks|)
    requires Ranked(scores, order) && (forall c :: c in scores <==> c in order)
             && Taken(s, scores, order, n, found, seen)
    requires |found| <= k && (n == |order| || |found| == k)
    ensures TopDocuments(s, scores, found, k)
  {
    forall i, c | 0 <= i < |found| && c in scores && DocumentId(s, c) == DocumentId(s, found[i].chunk)
        && c != found[i].chunk
      ensures Before(scores, found[i].chunk, c)
    {
      var p :| 0 <= p < |order| && order[p] == c;
      LaterIsWorse(scores, order, n, found[i].chunk, p);
    }
    forall c | c in scores
      ensures (exists i :: 0 <= i < |found| && DocumentId(s, found[i].chunk) == DocumentId(s, c)) ||
              (|found| == k && forall i :: 0 <= i < |found| ==> Before(scores, found[i].chunk, c))
    {
      var p :| 0 <= p < |order| && order[p] == c;
      if p >= n {
        forall i | 0 <= i < |found| ensures Before(scores, found[i].chunk, c) {
          LaterIsWorse(scores, order, n, found[i].chunk, p);
        }
      }
    }
  }

  // The last loop of Search: first occurrence of each document, until k results.
  method TakeDocuments(s: Scoring, scores: map<nat, real>, order: seq<nat>, k: nat) returns (found: seq<Found>)
    requires k > 0 && (forall c :: c in scores ==> c < |s.chunks|)
    requires Ranked(scores, order) && forall c :: c in scores <==> c in order
    ensures TopDocuments(s, scores, found, k)
  {
    hide Taken, Ranked, TopDocuments;
    found := [];
    var seen: set<string> := {};
    NothingTaken(s, scores, order);
    for n := 0 to |order|
      invariant |found| < k
      invariant Taken(s, scores, order, n, found, seen)
    {
      RankedEntry(scores, order, n);
      var c := order[n];
      TakeStep(s, scores, order, n, found, seen);
      if DocumentId(s, c) in seen { continue; }
      seen := seen + {DocumentId(s, c)};
      found := found + [Found(|found| + 1, scores[c], c)];
      if |found| == k {
        TakenIsTop(s, scores, order, n + 1, found, seen, k);
        return;
      }
    }
    TakenIsTop(s, scores, order, |order|, found, seen, k);
  }

  // ------------------------------------------------------- What scores mean

  lemma FactorSign(p: real, q: real)
    requires q > 0.0 && p * q > 0.0
    ensures p > 0.0
  {
  }

  lemma QuotientTimes(a: real, b: real, c: real)
    requires b > 0.0
    ensures a / b * (b * c) == a * c
  {
    var x := a / b;
    assert x * b == a;
    assert x * (b * c) == x * b * c;
  }

  // Quotients compare as their cross products do.
  lemma LessByCross(a: real, b: real, c: real, d: real)
    requires b > 0.0 && d > 0.0 && a * d > c * b
    ensures a / b > c / d
  {
    var x, y := a / b, c / d;
    QuotientTimes(a, b, d);
    QuotientTimes(c, d, b);
    assert b * d == d * b && b * d > 0.0;
    assert (x - y) * (b * d) == x * (b * d) - y * (d * b);
    FactorSign(x - y, b * d);
  }

  lemma LargerOverSmaller(a: real, b: real, c: real, d: real)
    requires a > c > 0.0 && 0.0 < b < d
    ensures a / b > c / d > 0.0
  {
    assert a * d > c * d;
    assert c * d > c * b;
    LessByCross(a, b, c, d);
  }

  // A term in fewer chunks weighs more.
  lemma {:induction false} RarerWeighsMore(h: Host, total: nat, rare: nat, common: nat)
    requires HostOk(h) && rare < common <= total
    ensures IdfOf(h, total, rare) > IdfOf(h, total, common) > 0.0
  {
    var n, r, c := total as real, rare as real, common as real;
    IdfPositive(h, total, common);
    var x, y := (n - r + 0.5) / (r + 0.5), (n - c + 0.5) / (c + 0.5);
    LargerOverSmaller(n - r + 0.5, r + 0.5, n - c + 0.5, c + 0.5);
    assert 1.0 + x > 1.0 + y > 0.0;
  }

  // Asked once a term counts as it is, asked more often it counts more.
  lemma AskedMoreWeighsMore(s: Scoring, t: string, u: string)
    requires HostOk(s.h) && t in s.query && u in s.query
    ensures Count(s.query, t) == 1 ==> QueryWeight(s, t) == 1.0
    ensures Count(s.query, t) < Count(s.query, u) ==> QueryWeight(s, t) < QueryWeight(s, u)
  {
    CountPositive(s.query, t);
    CountPositive(s.query, u);
  }

  lemma CrossTerms(a: real, b: real, f: real, g: real, k: real)
    requires a * g == b * f
    ensures b * (f + k) - a * (g + k) == (b - a) * k
  {
    assert b * (f + k) == b * f + b * k && a * (g + k) == a * g + a * k;
    assert (b - a) * k == b * k - a * k;
  }

  lemma SaturationGrows(w: real, f: real, g: real, k: real)
    requires w > 0.0 && 0.0 < f < g && k > 0.0
    ensures w * f / (f + k) < w * g / (g + k)
  {
    var a, b := w * f, w * g;
    assert b - a == w * (g - f) > 0.0;
    assert (b - a) * k > 0.0;
    assert a * g == b * f;
    CrossTerms(a, b, f, g, k);
    LessByCross(b, g + k, a, f + k);
  }

  lemma SaturationEnds(w: real, f: real, k: real)
    requires w > 0.0 && f > 0.0 && k > 0.0
    ensures w * f / (f + k) < w
  {
    assert w * k > 0.0;
    assert w * (f + k) == w * f + w * k;
    LessByCross(w, 1.0, w * f, f + k);
  }

  lemma WeightOf(s: Scoring, t: string) returns (w: real)
    requires ScoringOk(s) && t in s.query
    ensures w == Idf(s, t) * QueryWeight(s, t) * (K1 + 1.0) > 0.0
  {
    hide QueryWeight, IdfOf, HostOk;
    IdfPositive(s.h, |s.chunks|, DocumentFrequency(s.h, s.chunks, t));
    WeightPositive(s, t);
    var x := Idf(s, t) * QueryWeight(s, t);
    assert x > 0.0;
    w := x * (K1 + 1.0);
  }

  // The part of the denominator that does not depend on the frequency.
  function Norm(s: Scoring, c: Chunk): real
    requires s.average > 0.0
  {
    K1 * (1.0 - B + B * (c.tokens as real / s.average))
  }

  lemma QuotientOfSelf(a: real)
    requires a > 0.0
    ensures a / a == 1.0 && 0.0 / a == 0.0
  {
  }

  lemma LessFactor(p: real, q: real, a: real)
    requires a > 0.0 && p * a < q * a
    ensures p < q
  {
    assert (q - p) * a == q * a - p * a;
    FactorSign(q - p, a);
  }

  lemma QuotientOf(x: real, a: real) returns (p: real)
    requires a > 0.0
    ensures p == x / a && p * a == x
  {
    p := x / a;
  }

  lemma QuotientsGrow(x: real, y: real, a: real)
    requires a > 0.0 && x < y
    ensures x / a < y / a
  {
    var p := QuotientOf(x, a);
    var q := QuotientOf(y, a);
    LessFactor(p, q, a);
  }

  lemma QuotientNotNegative(x: real, a: real)
    requires a > 0.0 && x >= 0.0
    ensures x / a >= 0.0
  {
    QuotientOfSelf(a);
    if x > 0.0 { QuotientsGrow(0.0, x, a); }
  }

  lemma NormGrows(s: Scoring, c: Chunk, d: Chunk)
    requires s.average > 0.0
    ensures Norm(s, c) > 0.0
    ensures c.tokens == d.tokens ==> Norm(s, c) == Norm(s, d)
    ensures c.tokens < d.tokens ==> Norm(s, c) < Norm(s, d)
    ensures c.tokens as real == s.average ==> Norm(s, c) == K1
  {
    QuotientNotNegative(c.tokens as real, s.average);
    QuotientOfSelf(s.average);
    if c.tokens < d.tokens { QuotientsGrow(c.tokens as real, d.tokens as real, s.average); }
  }

  lemma ScoreIs(s: Scoring, c: Chunk, t: string, w: real)
    requires ScoringOk(s) && t in s.query && Frequency(s.h, c, t) > 0
    requires w == Idf(s, t) * QueryWeight(s, t) * (K1 + 1.0)
    ensures var f := Frequency(s.h, c, t) as real;
            f + Norm(s, c) > 0.0 && TermScore(s, c, t) == w * f / (f + Norm(s, c))
  {
    hide Idf, QueryWeight, HostOk, Frequency;
    NormGrows(s, c, c);
    var f := Frequency(s.h, c, t);
    var i, q, g := Idf(s, t), QueryWeight(s, t), f as real;
    assert i * q * g * (K1 + 1.0) == i * q * (K1 + 1.0) * g;
  }

  // More occurrences score more, at most the term's weight times K1 + 1.
  lemma MoreScoresMore(s: Scoring, c: Chunk, d: Chunk, t: string)
    requires ScoringOk(s) && t in s.query && 0 < Frequency(s.h, c, t) < Frequency(s.h, d, t) && c.tokens == d.tokens
    ensures TermScore(s, c, t) < TermScore(s, d, t) < Idf(s, t) * QueryWeight(s, t) * (K1 + 1.0)
  {
    hide HostOk, Frequency, QueryWeight, Idf, TermScore, Norm;
    var w := WeightOf(s, t);
    ScoreIs(s, c, t, w);
    ScoreIs(s, d, t, w);
    NormGrows(s, c, d);
    SaturationGrows(w, Frequency(s.h, c, t) as real, Frequency(s.h, d, t) as real, Norm(s, c));
    SaturationEnds(w, Frequency(s.h, d, t) as real, Norm(s, d));
  }

  lemma LongerDivides(a: real, b: real, d: real)
    requires a > 0.0 && 0.0 < b < d
    ensures a / b > a / d > 0.0
  {
    assert a * d > a * b;
    LessByCross(a, b, a, d);
  }

  // As many occurrences score less in a longer chunk.
  lemma LongerScoresLess(s: Scoring, c: Chunk, d: Chunk, t: string)
    requires ScoringOk(s) && t in s.query && 0 < Frequency(s.h, c, t) == Frequency(s.h, d, t) && c.tokens < d.tokens
    ensures TermScore(s, c, t) > TermScore(s, d, t) > 0.0
  {
    hide HostOk, Frequency, QueryWeight, Idf, TermScore, Norm;
    var w := WeightOf(s, t);
    ScoreIs(s, c, t, w);
    ScoreIs(s, d, t, w);
    NormGrows(s, c, d);
    NormGrows(s, d, d);
    var f := Frequency(s.h, c, t) as real;
    assert w * f > 0.0;
    LongerDivides(w * f, f + Norm(s, c), f + Norm(s, d));
  }

  lemma WeightItself(s: Scoring, c: Chunk, t: string, w: real)
    requires s.average > 0.0 && w == Idf(s, t) * QueryWeight(s, t) * (K1 + 1.0)
    requires TermScore(s, c, t) == w * 1.0 / (1.0 + K1)
    ensures TermScore(s, c, t) == Idf(s, t) * QueryWeight(s, t)
  {
    hide Idf, QueryWeight, TermScore;
    var x := Idf(s, t) * QueryWeight(s, t);
    assert w == x * 2.2;
  }

  // One occurrence in a chunk of average length scores the weight itself.
  lemma AverageScoresWeight(s: Scoring, c: Chunk, t: string)
    requires ScoringOk(s) && t in s.query && Frequency(s.h, c, t) == 1 && c.tokens as real == s.average
    ensures TermScore(s, c, t) == Idf(s, t) * QueryWeight(s, t)
  {
    hide HostOk, Frequency, QueryWeight, Idf, TermScore, Norm;
    var w := WeightOf(s, t);
    ScoreIs(s, c, t, w);
    NormGrows(s, c, c);
    WeightItself(s, c, t, w);
  }

  lemma {:induction false} SumOfNone(s: Scoring, part: Part, c: Chunk, terms: set<string>)
    requires s.average > 0.0 && forall u :: u in terms ==> Share(s, part, c, u) == 0.0
    ensures Sum(s, part, c, terms) == 0.0
    decreases terms
  {
    hide Share;
    if terms != {} {
      var t :| t in terms && Sum(s, part, c, terms) == Share(s, part, c, t) + Sum(s, part, c, terms - {t});
      SumOfNone(s, part, c, terms - {t});
    }
  }

  lemma {:induction false} SumOfOne(s: Scoring, part: Part, c: Chunk, terms: set<string>, t: string)
    requires ScoringOk(s) && terms <= QueryTerms(s) && t in terms
    requires forall u :: u in terms && u != t ==> Share(s, part, c, u) == 0.0
    ensures Sum(s, part, c, terms) == Share(s, part, c, t)
  {
    hide Share, HostOk;
    SumTakesAny(s, part, c, terms, t);
    SumOfNone(s, part, c, terms - {t});
  }

  // The chunk gets no title bonus and contains this term of the query only.
  ghost predicate HitOnlyBy(s: Scoring, c: Chunk, t: string) {
    && (c.number != 0 || c.title == "") && t in s.query && Frequency(s.h, c, t) > 0
    && forall u :: u in s.query && u != t ==> Frequency(s.h, c, u) == 0
  }

  lemma OnlyHitScore(s: Scoring, c: Chunk, t: string)
    requires ScoringOk(s) && HitOnlyBy(s, c, t)
    ensures DirectScore(s, c) == TermScore(s, c, t) && t in s.query && Frequency(s.h, c, t) > 0
  {
    hide HostOk, Idf, QueryWeight, Frequency, Saturated, Denominator;
    forall u | u in QueryTerms(s) ensures Share(s, Title, c, u) == 0.0 {}
    SumOfNone(s, Title, c, QueryTerms(s));
    SumOfOne(s, Body, c, QueryTerms(s), t);
  }

  // Of the query's terms only this one is in the chunk, which is a first one and has it in
  // its title.
  ghost predicate TitledBy(s: Scoring, c: Chunk, t: string) {
    && c.number == 0 && c.title != "" && t in s.h.tokenize(c.title) && t in s.query
    && forall u :: u in s.query && u != t ==> Frequency(s.h, c, u) == 0
  }

  lemma TitleIsInFrequency(s: Scoring, c: Chunk, u: string)
    requires c.number == 0 && u in s.h.tokenize(c.title)
    ensures Frequency(s.h, c, u) > 0
  {
    CountPositive(s.h.tokenize(c.title), u);
  }

  lemma TitledScore(s: Scoring, c: Chunk, t: string)
    requires ScoringOk(s) && TitledBy(s, c, t)
    ensures Frequency(s.h, c, t) > 0 && DirectScore(s, c) == TermScore(s, c, t) + TitleScore(s, c, t)
  {
    hide HostOk, Idf, QueryWeight, Saturated, Denominator, Frequency;
    TitleIsInFrequency(s, c, t);
    forall u | u in QueryTerms(s) && u != t ensures Share(s, Body, c, u) == 0.0 && Share(s, Title, c, u) == 0.0 {
      if u in s.h.tokenize(c.title) { TitleIsInFrequency(s, c, u); }
      NoFrequencyNoScore(s, c, u);
    }
    SumOfOne(s, Body, c, QueryTerms(s), t);
    SumOfOne(s, Title, c, QueryTerms(s), t);
  }

  lemma TitleScoreIs(s: Scoring, c: Chunk, t: string)
    requires ScoringOk(s) && TitledBy(s, c, t)
    ensures TitleScore(s, c, t) > 0.0
  {
    hide HostOk, IdfOf, QueryWeight, Frequency;
    IdfPositive(s.h, |s.chunks|, DocumentFrequency(s.h, s.chunks, t));
    WeightPositive(s, t);
    ProductPositive(Idf(s, t), QueryWeight(s, t));
  }

  // A match in the title counts on top: of two chunks alike in length and in how often
  // their one term occurs, the one that has it in its title has the larger score.
  lemma TitleMatchScoresMore(s: Scoring, a: Chunk, b: Chunk, t: string)
    requires ScoringOk(s) && TitledBy(s, a, t) && HitOnlyBy(s, b, t)
    requires a.tokens == b.tokens && Frequency(s.h, a, t) == Frequency(s.h, b, t)
    ensures DirectScore(s, a) > DirectScore(s, b)
  {
    hide HostOk, Idf, QueryWeight, Frequency, DirectScore, TitledBy, HitOnlyBy;
    TitledScore(s, a, t);
    OnlyHitScore(s, b, t);
    TitleScoreIs(s, a, t);
    assert TermScore(s, a, t) == TermScore(s, b, t);
  }

  lemma AskedAlike(s: Scoring, t: string, u: string)
    requires Count(s.query, t) == Count(s.query, u)
    ensures QueryWeight(s, t) == QueryWeight(s, u)
  {
  }

  lemma LargerProduct(x: real, v: real, y: real, w: real)
    requires x >= y > 0.0 && v >= w > 0.0 && (x > y || v > w)
    ensures TITLE_SCORE * x * v > TITLE_SCORE * y * w
  {
    assert x * v >= y * v && y * v >= y * w;
    assert x * v > y * w;
    assert TITLE_SCORE * x * v == TITLE_SCORE * (x * v) && TITLE_SCORE * y * w == TITLE_SCORE * (y * w);
  }

  // In the title too the rarer term counts more, and the one asked more often.
  lemma RarerTitleScoresMore(s: Scoring, a: Chunk, b: Chunk, t: string, u: string)
    requires ScoringOk(s) && TitledBy(s, a, t) && TitledBy(s, b, u)
    requires DocumentFrequency(s.h, s.chunks, t) <= DocumentFrequency(s.h, s.chunks, u)
    requires Count(s.query, t) >= Count(s.query, u)
    requires DocumentFrequency(s.h, s.chunks, t) < DocumentFrequency(s.h, s.chunks, u)
             || Count(s.query, t) > Count(s.query, u)
    ensures TitleScore(s, a, t) > TitleScore(s, b, u) > 0.0
  {
    hide HostOk, Frequency, IdfOf, QueryWeight, DocumentFrequency;
    TitleScoreIs(s, b, u);
    AskedMoreWeighsMore(s, u, t);
    if Count(s.query, t) == Count(s.query, u) { AskedAlike(s, u, t); }
    WeightPositive(s, u);
    IdfPositive(s.h, |s.chunks|, DocumentFrequency(s.h, s.chunks, u));
    if DocumentFrequency(s.h, s.chunks, t) < DocumentFrequency(s.h, s.chunks, u) {
      RarerWeighsMore(s.h, |s.chunks|, DocumentFrequency(s.h, s.chunks, t), DocumentFrequency(s.h, s.chunks, u));
    }
    LargerProduct(Idf(s, t), QueryWeight(s, t), Idf(s, u), QueryWeight(s, u));
  }

  lemma OnlyHitScoreIs(s: Scoring, c: Chunk, t: string, w: real, f: real, k: real)
    requires ScoringOk(s) && HitOnlyBy(s, c, t) && w == Idf(s, t) * QueryWeight(s, t) * (K1 + 1.0)
    requires f == Frequency(s.h, c, t) as real && k == Norm(s, c)
    ensures f > 0.0 && k > 0.0 && DirectScore(s, c) == w * f / (f + k)
  {
    hide HostOk, Frequency, QueryWeight, Idf, TermScore, DirectScore, Norm, HitOnlyBy;
    OnlyHitScore(s, c, t);
    ScoreIs(s, c, t, w);
    NormGrows(s, c, c);
  }

  lemma LargerWeightScoresMore(i: real, j: real, v: real, w: real, f: real, k: real)
    requires i > j > 0.0 && v == i * 1.0 * (K1 + 1.0) && w == j * 1.0 * (K1 + 1.0) && f > 0.0 && k > 0.0
    ensures v * f / (f + k) > w * f / (f + k)
  {
    assert v > w;
    assert v * f > w * f;
    assert v * f * (f + k) > w * f * (f + k);
    LessByCross(v * f, f + k, w * f, f + k);
  }

  // Of two chunks alike in length and in how often their one term occurs, asked once each,
  // the one with the rarer term has the larger score.
  lemma RarerScoresMore(s: Scoring, a: Chunk, b: Chunk, t: string, u: string)
    requires ScoringOk(s) && HitOnlyBy(s, a, t) && HitOnlyBy(s, b, u)
    requires a.tokens == b.tokens && Frequency(s.h, a, t) == Frequency(s.h, b, u)
    requires Count(s.query, t) == 1 && Count(s.query, u) == 1
    requires DocumentFrequency(s.h, s.chunks, t) < DocumentFrequency(s.h, s.chunks, u)
    ensures DirectScore(s, a) > DirectScore(s, b)
  {
    hide HostOk, Frequency, QueryWeight, IdfOf, DirectScore, Norm, DocumentFrequency;
    RarerWeighsMore(s.h, |s.chunks|, DocumentFrequency(s.h, s.chunks, t), DocumentFrequency(s.h, s.chunks, u));
    AskedMoreWeighsMore(s, t, t);
    AskedMoreWeighsMore(s, u, u);
    var v := WeightOf(s, t);
    var w := WeightOf(s, u);
    NormGrows(s, a, b);
    var f, k := Frequency(s.h, a, t) as real, Norm(s, a);
    OnlyHitScoreIs(s, a, t, v, f, k);
    OnlyHitScoreIs(s, b, u, w, f, k);
    LargerWeightScoresMore(Idf(s, t), Idf(s, u), v, w, f, k);
  }

  // So a search gives its document a better place.
  lemma RarerRanksFirst(s: Scoring, scores: map<nat, real>, found: seq<Found>, k: nat, a: nat, b: nat, t: string,
                        u: string)
    requires ScoringOk(s) && DirectScores(s, scores) && TopDocuments(s, scores, found, k)
    requires a < |s.chunks| && b < |s.chunks| && HitOnlyBy(s, s.chunks[a], t) && HitOnlyBy(s, s.chunks[b], u)
    requires s.chunks[a].tokens == s.chunks[b].tokens
             && Frequency(s.h, s.chunks[a], t) == Frequency(s.h, s.chunks[b], u)
    requires Count(s.query, t) == 1 && Count(s.query, u) == 1
    requires DocumentFrequency(s.h, s.chunks, t) < DocumentFrequency(s.h, s.chunks, u)
    ensures a in scores && b in scores && Before(scores, a, b)
    ensures forall j :: 0 <= j < |found| && found[j].chunk == b ==>
              exists i :: 0 <= i <= j && DocumentId(s, found[i].chunk) == DocumentId(s, a)
  {
    RarerScoresMore(s, s.chunks[a], s.chunks[b], t, u);
    ScoreIsPositiveIffHit(s, s.chunks[a]);
    ScoreIsPositiveIffHit(s, s.chunks[b]);
    hide HostOk, Frequency, DirectScore, DocumentFrequency;
    forall j | 0 <= j < |found| && found[j].chunk == b
      ensures exists i :: 0 <= i <= j && DocumentId(s, found[i].chunk) == DocumentId(s, a)
    {
      if i :| 0 <= i < |found| && DocumentId(s, found[i].chunk) == DocumentId(s, a) {
        assert found[i].chunk == a || Before(scores, found[i].chunk, a);
      }
    }
  }

  // ------------------------------------------------------- Search

  // Search over faithful postings ranks chunks by the direct-scan score and returns
  // the top documents, each by its best chunk.
  method Search(h: Host, ix: Index, query: string, topK: int)
    returns (r: Result<seq<Found>, IndexError>, ghost scores: map<nat, real>)
    requires HostOk(h) && Faithful(h, ix.chunks, ix.postings)
    ensures r.Ok? <==> HeaderOk(ix) && topK > 0 && h.tokenize(query) != []
    ensures r.Ok? ==>
      var s := Scoring(h, ix.chunks, ix.averageTokens, h.tokenize(query));
      DirectScores(s, scores) && TopDocuments(s, scores, r.value, topK)
  {
    hide HostOk, Faithful, TopDocuments, PostingsValid;
    scores := map[];
    FaithfulIsValid(h, ix.chunks, ix.postings);
    var valid := Validate(ix);
    if !valid { return Err(InvalidIndex), scores; }
    if topK <= 0 { return Err(BadQuery), scores; }
    var queryTerms := h.tokenize(query);
    if |queryTerms| == 0 { return Err(BadQuery), scores; }
    var s := Scoring(h, ix.chunks, ix.averageTokens, queryTerms);
    var scored := ScoreChunks(s, ix.postings);
    scores := scored;
    var order := Rank(scored);
    var found := TakeDocuments(s, scored, order, topK);
    r := Ok(found);
  }

  // ------------------------------------------------------- Saving and loading

  datatype DiskTerm = DiskTerm(term: string, postings: seq<Posting>)

  // The runtime map as a list in term order.
  method ToDisk(postings: map<string, seq<Posting>>) returns (terms: seq<DiskTerm>)
    ensures |terms| == |postings| && forall i :: 0 <= i < |terms| ==>
              terms[i].term in postings && terms[i].postings == postings[terms[i].term]
    ensures forall i, j :: 0 <= i < j < |terms| ==> Order.Less(terms[i].term, terms[j].term)
    ensures forall t :: t in postings ==> exists i :: 0 <= i < |terms| && terms[i].term == t
  {
    var names := Order.SortedKeys(postings.Keys);
    terms := [];
    for position := 0 to |names|
      invariant |terms| == position
      invariant forall i :: 0 <= i < position ==> terms[i] == DiskTerm(names[i], postings[names[i]])
    {
      assert names[position] in names;
      terms := terms + [DiskTerm(names[position], postings[names[position]])];
    }
    forall t | t in postings ensures exists i :: 0 <= i < |terms| && terms[i].term == t {
      assert t in names;
      var i :| 0 <= i < |names| && names[i] == t;
      assert terms[i].term == t;
    }
  }

  // Back to a map; refused unless the terms are non-empty and strictly sorted.
  method FromDisk(terms: seq<DiskTerm>) returns (r: Result<map<string, seq<Posting>>, IndexError>)
    ensures r.Ok? <==> (forall i :: 0 <= i < |terms| ==> terms[i].term != "") &&
                       (forall i, j :: 0 <= i && j == i + 1 < |terms| ==> Order.Less(terms[i].term, terms[j].term))
    ensures r.Ok? ==> forall t :: t in r.value <==> exists i :: 0 <= i < |terms| && terms[i].term == t
    ensures r.Ok? ==>
              forall i :: 0 <= i < |terms| ==> terms[i].term in r.value && r.value[terms[i].term] == terms[i].postings
  {
    hide Order.Less;
    var postings: map<string, seq<Posting>> := map[];
    var previous := "";
    for position := 0 to |terms|
      invariant position > 0 ==> previous == terms[position - 1].term
      invariant forall i :: 0 <= i < position ==> terms[i].term != ""
      invariant forall i, j :: 0 <= i < j < position ==> Order.Less(terms[i].term, terms[j].term)
      invariant forall t :: t in postings <==> exists i :: 0 <= i < position && terms[i].term == t
      invariant forall i :: 0 <= i < position ==>
                  terms[i].term in postings && postings[terms[i].term] == terms[i].postings
    {
      var term := terms[position];
      if term.term == "" { return Err(UnsortedTerms); }
      if position > 0 && !Order.Less(previous, term.term) {
        assert !Order.Less(terms[position - 1].term, terms[position].term);
        return Err(UnsortedTerms);
      }
      forall i | 0 <= i < position ensures Order.Less(terms[i].term, term.term) && terms[i].term != term.term {
        if i < position - 1 { Order.LessIsTransitive(terms[i].term, previous, term.term); }
        Order.LessIsTotal(terms[i].term, term.term);
      }
      postings := postings[term.term := term.postings];
      previous := term.term;
    }
    r := Ok(postings);
  }

  lemma NamesAreNotBlank(h: Host, chunks: seq<Chunk>, postings: map<string, seq<Posting>>)
    requires Faithful(h, chunks, postings)
    ensures "" !in postings
  {
    assert Text.TrimSpace("") == "";
  }

  // Saving and loading an index gives its postings back.
  method SaveAndLoad(h: Host, chunks: seq<Chunk>, postings: map<string, seq<Posting>>)
    returns (r: Result<map<string, seq<Posting>>, IndexError>)
    requires Faithful(h, chunks, postings)
    ensures r == Ok(postings)
  {
    hide ListOk, Frequency;
    var terms := ToDisk(postings);
    r := FromDisk(terms);
    assert forall i :: 0 <= i < |terms| ==> terms[i].term != "" by { NamesAreNotBlank(h, chunks, postings); }
    assert r.Ok?;
    forall t ensures t in r.value <==> t in postings
             ensures t in postings ==> t in r.value && r.value[t] == postings[t] {
      if t in postings {
        var i :| 0 <= i < |terms| && terms[i].term == t;
        assert r.value[terms[i].term] == terms[i].postings;
      }
    }
    assert r.value == postings;
  }
}
