// Structured investigation results: normalisation and validation against host evidence.

module Investigation {
  import opened Wrappers
  import Order
  import Text

  const MAXIMUM_TEXT_RUNES := 4096
  const MAXIMUM_LIST_ITEMS := 64
  const MAXIMUM_ITEM_RUNES := 1024

  datatype FindingStatus = Confirmed | Suspected | Inconclusive | UnknownFinding | OtherFinding

  datatype Actionability = ProposalPossible | RequiresHuman | NoAction | OtherAction

  datatype Confidence = High | Medium | Low | OtherConfidence

  datatype Finding = Finding(finding: FindingStatus, action: Actionability, confidence: Confidence,
                             summary: string, hypothesis: string, impact: string,
                             evidence: seq<string>, ruledOut: seq<string>, affected: seq<string>,
                             recommended: seq<string>,
                             productionWrites: int)

  datatype Field = FindingField | ActionField | ConfidenceField | Summary | Hypothesis | Impact
                 | Evidence | Affected | RuledOut | ProductionWrites | Recommended

  datatype Defect = TooManyItems | Empty(index: nat) | TooLong(index: nat) | Duplicate(index: nat)

  datatype Problem = BadText(field: Field) | BadList(field: Field, defect: Defect) | BadReference(index: nat)
                   | UnknownReference(index: nat)

  // ------------------------------------------------------- Normalisation

  function Trimmed(values: seq<string>): seq<string> {
    seq(|values|, i requires 0 <= i < |values| => Text.TrimSpace(values[i]))
  }

  function NormalizedList(values: seq<string>): (r: seq<string>)
    ensures |r| == |values|
  {
    Order.Sort(Trimmed(values))
  }

  function Normalized(f: Finding): Finding {
    f.(summary := Text.TrimSpace(f.summary), hypothesis := Text.TrimSpace(f.hypothesis),
       impact := Text.TrimSpace(f.impact),
    evidence := NormalizedList(f.evidence), ruledOut := NormalizedList(f.ruledOut),
    affected := NormalizedList(f.affected), recommended := NormalizedList(f.recommended))
  }

  lemma NormalizedListTwice(values: seq<string>)
    ensures NormalizedList(NormalizedList(values)) == NormalizedList(values)
  {
    var t := Trimmed(values);
    var n := NormalizedList(values);
    forall i | 0 <= i < |n| ensures Text.TrimSpace(n[i]) == n[i] {
      assert n[i] in multiset(n) && multiset(n) == multiset(t);
      assert n[i] in t;
      var k :| 0 <= k < |t| && t[k] == n[i];
      Text.TrimTwice(values[k]);
    }
    assert Trimmed(n) == n;
    Order.SortIsOrdered(t);
    Order.SortOrderedIsFixed(n);
  }

  // Normalising again changes nothing: the replayed value is the stored one.
  lemma NormalizedTwice(f: Finding)
    ensures Normalized(Normalized(f)) == Normalized(f)
  {
    Text.TrimTwice(f.summary);
    Text.TrimTwice(f.hypothesis);
    Text.TrimTwice(f.impact);
    NormalizedListTwice(f.evidence);
    NormalizedListTwice(f.ruledOut);
    NormalizedListTwice(f.affected);
    NormalizedListTwice(f.recommended);
  }

  // ------------------------------------------------------- Validation

  predicate TextOk(value: string, required: bool) {
    var t := Text.TrimSpace(value);
    (required ==> t != "") && |t| <= MAXIMUM_TEXT_RUNES
  }

  predicate ItemOk(value: string) {
    0 < |Text.TrimSpace(value)| <= MAXIMUM_ITEM_RUNES
  }

  ghost predicate PrefixOk(values: seq<string>, n: nat)
    requires n <= |values|
  {
    && (forall i :: 0 <= i < n ==> ItemOk(values[i]))
    && (forall i, j :: 0 <= i < j < n ==> Text.TrimSpace(values[i]) != Text.TrimSpace(values[j]))
  }

  ghost predicate ListOk(values: seq<string>) {
    |values| <= MAXIMUM_LIST_ITEMS && PrefixOk(values, |values|)
  }

  // What a reported defect says about the list; everything before it is in order.
  ghost predicate DefectOf(values: seq<string>, d: Defect) {
    match d
    case TooManyItems => |values| > MAXIMUM_LIST_ITEMS
    case Empty(i) => i < |values| && PrefixOk(values, i) && Text.TrimSpace(values[i]) == ""
    case TooLong(i) => i < |values| && PrefixOk(values, i) && |Text.TrimSpace(values[i])| > MAXIMUM_ITEM_RUNES
    case Duplicate(i) => i < |values| && PrefixOk(values, i) && ItemOk(values[i]) &&
                         exists k :: 0 <= k < i && Text.TrimSpace(values[k]) == Text.TrimSpace(values[i])
  }

  method ValidateList(values: seq<string>) returns (defect: Option<Defect>)
    ensures defect.None? <==> ListOk(values)
    ensures defect.Some? ==> DefectOf(values, defect.value)
  {
    hide Text.TrimSpace;
    if |values| > MAXIMUM_LIST_ITEMS { return Some(TooManyItems); }
    var seen: set<string> := {};
    for i := 0 to |values|
      invariant PrefixOk(values, i)
      invariant forall t :: t in seen <==> exists k :: 0 <= k < i && Text.TrimSpace(values[k]) == t
    {
      var trimmed := Text.TrimSpace(values[i]);
      if trimmed == "" { return Some(Empty(i)); }
      if |trimmed| > MAXIMUM_ITEM_RUNES { return Some(TooLong(i)); }
      if trimmed in seen { return Some(Duplicate(i)); }
      seen := seen + {trimmed};
    }
    defect := None;
  }

  // A reference is a kind, a colon and a name of at most 128 runes.
  predicate ReferenceOk(s: string) {
    || ("tool-call:" <= s && Text.IsName(s[10..]))
    || ("context:" <= s && Text.IsName(s[8..]))
    || ("event:" <= s && Text.IsName(s[6..]))
    || ("artifact:" <= s && Text.IsName(s[9..]))
  }

  predicate EnumsOk(f: Finding) {
    !f.finding.OtherFinding? && !f.action.OtherAction? && !f.confidence.OtherConfidence?
  }

  // A result the host accepts: complete, bounded, and citing only evidence it owns.
  ghost predicate Acceptable(f: Finding, available: set<string>) {
    && EnumsOk(f)
    && TextOk(f.summary, true) && TextOk(f.hypothesis, false) && TextOk(f.impact, false)
    && ListOk(f.evidence) && ListOk(f.affected) && ListOk(f.ruledOut) && ListOk(f.recommended)
    && f.productionWrites == 0
    && forall i :: 0 <= i < |f.evidence| ==> ReferenceOk(f.evidence[i]) && f.evidence[i] in available
  }

  method ValidateHead(f: Finding) returns (problem: Option<Problem>)
    ensures problem.None? <==>
              EnumsOk(f) && TextOk(f.summary, true) && TextOk(f.hypothesis, false) && TextOk(f.impact, false)
  {
    if f.finding.OtherFinding? { return Some(BadText(FindingField)); }
    if f.action.OtherAction? { return Some(BadText(ActionField)); }
    if f.confidence.OtherConfidence? { return Some(BadText(ConfidenceField)); }
    if !TextOk(f.summary, true) { return Some(BadText(Summary)); }
    if !TextOk(f.hypothesis, false) { return Some(BadText(Hypothesis)); }
    if !TextOk(f.impact, false) { return Some(BadText(Impact)); }
    problem := None;
  }

  method Validate(f: Finding, available: set<string>) returns (problem: Option<Problem>)
    ensures problem.None? <==> Acceptable(f, available)
  {
    hide TextOk, ListOk, ReferenceOk, EnumsOk, DefectOf;
    problem := ValidateHead(f);
    if problem.Some? { return; }
    var defect := ValidateList(f.evidence);
    if defect.Some? { return Some(BadList(Evidence, defect.value)); }
    defect := ValidateList(f.affected);
    if defect.Some? { return Some(BadList(Affected, defect.value)); }
    defect := ValidateList(f.ruledOut);
    if defect.Some? { return Some(BadList(RuledOut, defect.value)); }
    if f.productionWrites != 0 { return Some(BadText(ProductionWrites)); }
    defect := ValidateList(f.recommended);
    if defect.Some? { return Some(BadList(Recommended, defect.value)); }
    for i := 0 to |f.evidence|
      invariant forall k :: 0 <= k < i ==> ReferenceOk(f.evidence[k]) && f.evidence[k] in available
    {
      if !ReferenceOk(f.evidence[i]) { return Some(BadReference(i)); }
      if f.evidence[i] !in available { return Some(UnknownReference(i)); }
    }
    problem := None;
  }

  // More evidence never invalidates a result.
  lemma AcceptableGrows(f: Finding, available: set<string>, more: set<string>)
    requires Acceptable(f, available) && available <= more
    ensures Acceptable(f, more)
  {
  }
}
