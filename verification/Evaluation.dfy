/**
  Evaluation of a build result: the quality each requirement's evidence
  supports, the per-requirement evidence trace, and the final decision.
*/
module Evaluation {
  import opened Dictionary
  import opened Identifiers
  import opened Ordering
  import opened Text
  import Drift

  // ----- Inputs -----

  datatype Dimension =
    | Correctness | Completeness | Usability | Consistency | Reliability | EvidenceQuality | ConstraintCompliance

  const DIMENSIONS: seq<Dimension> :=
    [Correctness, Completeness, Usability, Consistency, Reliability, EvidenceQuality, ConstraintCompliance]

  datatype Status = Fail | Unproven | Partial | Pass | NotApplicable
  {
    function Rank(): nat {
      match this
      case Fail => 0
      case Unproven => 1
      case Partial => 2
      case Pass => 3
      case NotApplicable => 4
    }
  }

  // What a text can state about a dimension.
  type Claim = s: Status | s != NotApplicable witness Pass

  datatype Ref = Ref(evidenceId: string, hash: string)

  // `claims` are the dimensions its text states something about.
  datatype Evidence = Evidence(evidenceId: string, hash: string, evidenceStatus: string, collectedBy: string,
                               visibility: string, evidenceType: string, claims: map<Dimension, Claim>)

  datatype Requirement = Requirement(requirementId: string, blocking: bool, dimensions: set<Dimension>)

  datatype Proof = Proof(requirementIds: seq<string>, requiredTypes: set<string>)

  datatype Success = Success(requirements: seq<Requirement>, proofs: seq<Proof>, outcomeIds: seq<string>)

  datatype Validation = Validation(validationId: string, requirementIds: seq<string>)

  datatype Output = Output(outputId: string, requirementIds: seq<string>, refs: seq<Ref>)

  datatype ValidationResult = ValidationResult(validationId: string, passed: bool, refs: seq<Ref>)

  datatype Check = Check(outcomeId: string, present: bool, refs: seq<Ref>)

  datatype BuildStatus = BuildCompleted | BuildFailed | BuildOther

  datatype Build = Build(buildId: string, status: BuildStatus, outputs: seq<Output>, results: seq<ValidationResult>,
                         checks: seq<Check>, environmentMatches: bool)

  datatype Inputs = Inputs(success: Success, validations: seq<Validation>, build: Build, evidence: seq<Evidence>,
                           locked: Drift.Baseline, current: Drift.Baseline)

  function EvidenceId(e: Evidence): string { e.evidenceId }
  function RequirementId(r: Requirement): string { r.requirementId }
  function ValidationId(v: Validation): string { v.validationId }
  function ResultId(r: ValidationResult): string { r.validationId }
  function OutputId(o: Output): string { o.outputId }
  function OutcomeId(c: Check): string { c.outcomeId }

  // What schema validation demands of lists: none of these is empty.
  predicate Filled(inp: Inputs) {
    && inp.success.requirements != [] && inp.success.proofs != [] && inp.validations != []
    && (forall r | r in inp.success.requirements :: r.dimensions != {})
    && (forall p | p in inp.success.proofs :: p.requirementIds != [])
    && (forall v | v in inp.validations :: v.requirementIds != [])
    && (forall o | o in inp.build.outputs :: o.requirementIds != [] && o.refs != [])
  }

  // What schema validation demands, of lists and of the ids that appear in the
  // result.
  predicate IdsAdmitted(inp: Inputs) {
    && Filled(inp) && AllIdentifiers(Ids(inp.success.requirements, RequirementId))
    && AllIdentifiers(inp.success.outcomeIds)
    && Identifier(inp.build.buildId) && Identifier(inp.current.baselineId)
  }

  // What evaluation demands of its inputs beyond the bindings of the lock.
  predicate Admitted(inp: Inputs) {
    && IdsAdmitted(inp)
    && Distinct(Ids(inp.success.requirements, RequirementId)) && Distinct(inp.success.outcomeIds)
    && Distinct(Ids(inp.validations, ValidationId)) && Distinct(Ids(inp.build.outputs, OutputId))
    && Distinct(Ids(inp.build.results, ResultId)) && Distinct(Ids(inp.build.checks, OutcomeId))
    && Distinct(Ids(inp.evidence, EvidenceId))
    && (forall o, r | o in inp.build.outputs && r in o.requirementIds :: r in Ids(inp.success.requirements, RequirementId))
    && (forall v | v in inp.build.results :: v.validationId in Ids(inp.validations, ValidationId))
    && (forall c | c in inp.build.checks :: c.outcomeId in inp.success.outcomeIds)
    && Drift.BaselineValid(inp.locked) && Drift.BaselineValid(inp.current)
  }

  // ----- Quality -----

  predicate Trusted(e: Evidence) {
    && e.evidenceStatus == "verified"
    && e.collectedBy in {"deterministic_local", "external_harness", "human"}
    && e.visibility == "build_result_input"
  }

  // The worst of the claims made about a dimension.
  function Worst(evidence: seq<Evidence>, d: Dimension): Option<Claim> {
    if evidence == [] then None
    else
      var n := |evidence| - 1;
      var earlier := Worst(evidence[..n], d);
      if d !in evidence[n].claims then earlier
      else if earlier.Some? && earlier.value.Rank() <= evidence[n].claims[d].Rank() then earlier
      else Some(evidence[n].claims[d])
  }

  method ExplicitQuality(evidence: seq<Evidence>, d: Dimension) returns (status: Option<Claim>)
    ensures status == Worst(evidence, d)
  {
    status := None;
    for i := 0 to |evidence|
      invariant status == Worst(evidence[..i], d)
    {
      assert evidence[..i + 1][..i] == evidence[..i];
      if d in evidence[i].claims {
        if status.None? || evidence[i].claims[d].Rank() < status.value.Rank() {
          status := Some(evidence[i].claims[d]);
        }
      }
    }
    assert evidence[..|evidence|] == evidence;
  }

  // No claim is worse than the worst, and the worst was claimed; so it is a
  // pass exactly when something was claimed and everything claimed is a pass.
  lemma {:induction false} WorstIsWorst(evidence: seq<Evidence>, d: Dimension)
    ensures Worst(evidence, d).None? <==> forall e :: e in evidence ==> d !in e.claims
    ensures Worst(evidence, d).Some? ==> exists e :: e in evidence && d in e.claims && e.claims[d] == Worst(evidence, d).value
    ensures forall e :: e in evidence && d in e.claims ==>
      Worst(evidence, d).Some? && Worst(evidence, d).value.Rank() <= e.claims[d].Rank()
  {
    if evidence != [] {
      var n := |evidence| - 1;
      WorstIsWorst(evidence[..n], d);
      assert evidence == evidence[..n] + [evidence[n]];
      assert evidence[n] in evidence;
    }
  }

  // ----- References -----

  predicate Resolves(evidence: map<string, Evidence>, ref: Ref) {
    ref.evidenceId in evidence && evidence[ref.evidenceId].hash == ref.hash
  }

  predicate ResolvesTrusted(evidence: map<string, Evidence>, ref: Ref) {
    Resolves(evidence, ref) && Trusted(evidence[ref.evidenceId])
  }

  // The references without repetition, in order of first occurrence.
  function Dedupe(refs: seq<Ref>): (distinct: seq<Ref>)
    ensures forall r :: r in distinct <==> r in refs
  {
    if refs == [] then []
    else
      var n := |refs| - 1;
      assert refs == refs[..n] + [refs[n]];
      var earlier := Dedupe(refs[..n]);
      if refs[n] in earlier then earlier else earlier + [refs[n]]
  }

  function Visible(evidence: map<string, Evidence>, refs: seq<Ref>): seq<Evidence> {
    if refs == [] then []
    else
      var n := |refs| - 1;
      Visible(evidence, refs[..n]) + (if Resolves(evidence, refs[n]) then [evidence[refs[n].evidenceId]] else [])
  }

  lemma {:induction false} VisibleCount(evidence: map<string, Evidence>, refs: seq<Ref>)
    ensures |Visible(evidence, refs)| <= |refs|
    ensures |Visible(evidence, refs)| == |refs| <==> forall r :: r in refs ==> Resolves(evidence, r)
  {
    if refs != [] {
      var n := |refs| - 1;
      VisibleCount(evidence, refs[..n]);
      assert refs == refs[..n] + [refs[n]];
    }
  }

  lemma {:induction false} VisibleMembers(evidence: map<string, Evidence>, refs: seq<Ref>)
    ensures forall e :: e in Visible(evidence, refs) <==> exists r :: r in refs && Resolves(evidence, r) && evidence[r.evidenceId] == e
  {
    if refs != [] {
      var n := |refs| - 1;
      VisibleMembers(evidence, refs[..n]);
      assert refs == refs[..n] + [refs[n]];
    }
  }

  lemma VisibleAre(evidence: map<string, Evidence>, refs: seq<Ref>)
    ensures |Visible(evidence, refs)| <= |refs|
    ensures |Visible(evidence, refs)| == |refs| <==> forall r :: r in refs ==> Resolves(evidence, r)
    ensures forall e :: e in Visible(evidence, refs) <==> exists r :: r in refs && Resolves(evidence, r) && evidence[r.evidenceId] == e
  {
    VisibleCount(evidence, refs);
    VisibleMembers(evidence, refs);
  }

  function TrustedOnly(evidence: seq<Evidence>): (trusted: seq<Evidence>)
    ensures forall e :: e in trusted <==> e in evidence && Trusted(e)
  {
    if evidence == [] then []
    else
      var n := |evidence| - 1;
      assert evidence == evidence[..n] + [evidence[n]];
      TrustedOnly(evidence[..n]) + (if Trusted(evidence[n]) then [evidence[n]] else [])
  }

  function OutputRefs(outputs: seq<Output>, requirement: string): (refs: seq<Ref>)
    ensures forall r :: r in refs <==> exists o :: o in outputs && requirement in o.requirementIds && r in o.refs
  {
    if outputs == [] then []
    else
      var n := |outputs| - 1;
      assert outputs == outputs[..n] + [outputs[n]];
      OutputRefs(outputs[..n], requirement) + (if requirement in outputs[n].requirementIds then outputs[n].refs else [])
  }

  function ResultRefs(validations: seq<Validation>, results: map<string, ValidationResult>, requirement: string): (refs: seq<Ref>)
    ensures forall r :: r in refs <==>
      exists v :: v in validations && requirement in v.requirementIds && v.validationId in results && r in results[v.validationId].refs
  {
    if validations == [] then []
    else
      var n := |validations| - 1;
      assert validations == validations[..n] + [validations[n]];
      ResultRefs(validations[..n], results, requirement) +
      (if requirement in validations[n].requirementIds && validations[n].validationId in results
       then results[validations[n].validationId].refs else [])
  }

  // ----- The trace -----

  datatype Quality = Quality(dimension: Dimension, status: Status)

  datatype EntryStatus = Proven | PartiallyProven | EntryUnproven | Contradicted | Invalidated

  datatype Entry = Entry(requirementId: string, refs: seq<Ref>, quality: seq<Quality>, status: EntryStatus)

  // What the trace knows about one requirement.
  datatype Facts = Facts(refs: seq<Ref>, visible: seq<Evidence>, trusted: seq<Evidence>, hasOutput: bool,
                         refsValid: bool, typesMatch: bool, contradicted: bool, baseProven: bool)

  function EvidenceMap(inp: Inputs): map<string, Evidence> {
    ById(inp.evidence, EvidenceId)
  }

  function ResultMap(inp: Inputs): map<string, ValidationResult> {
    ById(inp.build.results, ResultId)
  }

  predicate ProhibitedPresent(inp: Inputs) {
    exists c | c in inp.build.checks :: c.present
  }

  // Every prohibited outcome is checked, with nothing but trusted evidence.
  predicate AbsenceEvidenced(inp: Inputs) {
    && (set o | o in inp.success.outcomeIds) == (set c | c in inp.build.checks :: c.outcomeId)
    && forall c, r | c in inp.build.checks && r in c.refs :: ResolvesTrusted(EvidenceMap(inp), r)
  }

  function RequiredTypes(proofs: seq<Proof>, requirement: string): (types: set<string>)
    ensures forall t :: t in types <==> exists p :: p in proofs && requirement in p.requirementIds && t in p.requiredTypes
  {
    if proofs == [] then {}
    else
      var n := |proofs| - 1;
      assert proofs == proofs[..n] + [proofs[n]];
      RequiredTypes(proofs[..n], requirement) + (if requirement in proofs[n].requirementIds then proofs[n].requiredTypes else {})
  }

  predicate ValidationsPass(inp: Inputs, requirement: string) {
    && (exists v | v in inp.validations :: requirement in v.requirementIds)
    && forall v | v in inp.validations && requirement in v.requirementIds ::
         v.validationId in ResultMap(inp) && ResultMap(inp)[v.validationId].passed
  }

  function RefsOf(inp: Inputs, requirement: string): seq<Ref> {
    Dedupe(OutputRefs(inp.build.outputs, requirement) + ResultRefs(inp.validations, ResultMap(inp), requirement))
  }

  function FactsOf(inp: Inputs, requirement: string): Facts {
    var refs := RefsOf(inp, requirement);
    var visible := Visible(EvidenceMap(inp), refs);
    var trusted := TrustedOnly(visible);
    var hasOutput := exists o | o in inp.build.outputs :: requirement in o.requirementIds;
    var refsValid := |visible| == |refs| && refs != [];
    var typesMatch := RequiredTypes(inp.success.proofs, requirement) <= (set e | e in trusted :: e.evidenceType);
    Facts(refs, visible, trusted, hasOutput, refsValid, typesMatch,
          inp.build.status == BuildFailed || exists e | e in visible :: e.evidenceStatus == "contradicted",
          hasOutput && ValidationsPass(inp, requirement) && refsValid && inp.build.environmentMatches && typesMatch
            && !ProhibitedPresent(inp) && AbsenceEvidenced(inp))
  }

  // The status of one dimension of one requirement.
  function QualityOf(inp: Inputs, r: Requirement, facts: Facts, d: Dimension): Status {
    var stated := Worst(facts.trusted, d);
    if d !in r.dimensions then NotApplicable
    else if d == ConstraintCompliance && ProhibitedPresent(inp) then Fail
    else if stated.Some? then stated.value
    else if d == EvidenceQuality then (if facts.refsValid && facts.typesMatch then Pass else Unproven)
    else if d == ConstraintCompliance then
      (if AbsenceEvidenced(inp) && inp.build.status == BuildCompleted then Pass else Unproven)
    else if facts.baseProven && d in {Correctness, Completeness} then Pass
    else Unproven
  }

  method DimensionStatus(inp: Inputs, r: Requirement, facts: Facts, d: Dimension) returns (status: Status)
    ensures status == QualityOf(inp, r, facts, d)
  {
    var applicable := d in r.dimensions;
    var stated := ExplicitQuality(facts.trusted, d);
    status := if stated.Some? then stated.value else Unproven;
    if d == ConstraintCompliance && applicable && ProhibitedPresent(inp) {
      status := Fail;
    } else if d == EvidenceQuality && applicable && stated.None? {
      status := if facts.refsValid && facts.typesMatch then Pass else Unproven;
    } else if d == ConstraintCompliance && applicable && stated.None? {
      status := if AbsenceEvidenced(inp) && inp.build.status == BuildCompleted then Pass else Unproven;
    } else if applicable && stated.None? {
      status := if facts.baseProven && d in {Correctness, Completeness} then Pass else Unproven;
    } else if !applicable {
      status := NotApplicable;
    }
  }

  function QualitiesOf(inp: Inputs, r: Requirement, facts: Facts, dimensions: seq<Dimension>): seq<Quality> {
    seq(|dimensions|, i requires 0 <= i < |dimensions| => Quality(dimensions[i], QualityOf(inp, r, facts, dimensions[i])))
  }

  method Qualities(inp: Inputs, r: Requirement, facts: Facts) returns (quality: seq<Quality>)
    ensures quality == QualitiesOf(inp, r, facts, DIMENSIONS)
  {
    quality := [];
    ghost var all := QualitiesOf(inp, r, facts, DIMENSIONS);
    for i := 0 to |DIMENSIONS|
      invariant quality == all[..i]
    {
      var status := DimensionStatus(inp, r, facts, DIMENSIONS[i]);
      assert all[..i + 1] == all[..i] + [all[i]];
      quality := quality + [Quality(DIMENSIONS[i], status)];
    }
  }

  function StatusOf(r: Requirement, facts: Facts, quality: seq<Quality>): EntryStatus {
    var required := set q | q in quality && q.dimension in r.dimensions :: q.status;
    if facts.contradicted || Fail in required then Contradicted
    else if facts.baseProven && required <= {Pass} then Proven
    else if (Pass in required || Partial in required) && facts.hasOutput then PartiallyProven
    else EntryUnproven
  }

  function EntryOf(inp: Inputs, r: Requirement): Entry {
    var facts := FactsOf(inp, r.requirementId);
    var quality := QualitiesOf(inp, r, facts, DIMENSIONS);
    Entry(r.requirementId, facts.refs, quality, StatusOf(r, facts, quality))
  }

  function TraceOf(inp: Inputs, requirements: seq<Requirement>): seq<Entry> {
    seq(|requirements|, i requires 0 <= i < |requirements| => EntryOf(inp, requirements[i]))
  }

  method TraceEntry(inp: Inputs, r: Requirement) returns (entry: Entry)
    ensures entry == EntryOf(inp, r)
  {
    var facts := FactsOf(inp, r.requirementId);
    var quality := Qualities(inp, r, facts);
    entry := Entry(r.requirementId, facts.refs, quality, StatusOf(r, facts, quality));
  }

  lemma TraceNext(inp: Inputs, requirements: seq<Requirement>, i: nat)
    requires i < |requirements|
    ensures TraceOf(inp, requirements[..i + 1]) == TraceOf(inp, requirements[..i]) + [EntryOf(inp, requirements[i])]
  {
  }

  method BuildTrace(inp: Inputs) returns (entries: seq<Entry>)
    ensures entries == TraceOf(inp, inp.success.requirements)
  {
    entries := [];
    for i := 0 to |inp.success.requirements|
      invariant entries == TraceOf(inp, inp.success.requirements[..i])
    {
      TraceNext(inp, inp.success.requirements, i);
      var entry := TraceEntry(inp, inp.success.requirements[i]);
      entries := entries + [entry];
    }
    assert inp.success.requirements[..|inp.success.requirements|] == inp.success.requirements;
  }

  // ----- What a proven entry means -----

  ghost predicate CitedBy(inp: Inputs, requirement: string, ref: Ref) {
    || (exists o :: o in inp.build.outputs && requirement in o.requirementIds && ref in o.refs)
    || (exists v :: v in inp.validations && requirement in v.requirementIds && v.validationId in ResultMap(inp)
                    && ref in ResultMap(inp)[v.validationId].refs)
  }

  // Evidence that is cited for a requirement, under its true hash.
  ghost predicate CitedEvidence(inp: Inputs, requirement: string, e: Evidence) {
    exists ref :: CitedBy(inp, requirement, ref) && Resolves(EvidenceMap(inp), ref) && EvidenceMap(inp)[ref.evidenceId] == e
  }

  ghost predicate TypesObserved(inp: Inputs, requirement: string) {
    forall p, t :: p in inp.success.proofs && requirement in p.requirementIds && t in p.requiredTypes ==>
      exists e :: CitedEvidence(inp, requirement, e) && Trusted(e) && e.evidenceType == t
  }

  // Nothing trusted says otherwise, and it is either implied by the rest or stated.
  ghost predicate DimensionProven(inp: Inputs, requirement: string, d: Dimension) {
    && (forall e :: CitedEvidence(inp, requirement, e) && Trusted(e) && d in e.claims ==> e.claims[d] == Pass)
    && (d in {Correctness, Completeness, EvidenceQuality}
        || (d == ConstraintCompliance && inp.build.status == BuildCompleted)
        || exists e :: CitedEvidence(inp, requirement, e) && Trusted(e) && d in e.claims)
  }

  // Everything a requirement needs to be proven.
  ghost predicate RequirementProven(inp: Inputs, r: Requirement) {
    && (exists o :: o in inp.build.outputs && r.requirementId in o.requirementIds)
    && ValidationsPass(inp, r.requirementId)
    && (exists ref :: CitedBy(inp, r.requirementId, ref))
    && (forall ref :: CitedBy(inp, r.requirementId, ref) ==> Resolves(EvidenceMap(inp), ref))
    && inp.build.environmentMatches && TypesObserved(inp, r.requirementId)
    && (forall c :: c in inp.build.checks ==> !c.present) && AbsenceEvidenced(inp)
    && inp.build.status != BuildFailed
    && (forall e :: CitedEvidence(inp, r.requirementId, e) ==> e.evidenceStatus != "contradicted")
    && (forall d :: d in r.dimensions ==> DimensionProven(inp, r.requirementId, d))
  }

  // The facts, said about citations instead of lists.
  ghost predicate FactsMean(inp: Inputs, requirement: string, facts: Facts) {
    && (forall e :: e in facts.trusted <==> CitedEvidence(inp, requirement, e) && Trusted(e))
    && (facts.hasOutput <==> exists o :: o in inp.build.outputs && requirement in o.requirementIds)
    && (facts.refsValid <==>
          && (exists ref :: CitedBy(inp, requirement, ref))
          && (forall ref :: CitedBy(inp, requirement, ref) ==> Resolves(EvidenceMap(inp), ref)))
    && (facts.typesMatch <==> TypesObserved(inp, requirement))
    && (facts.contradicted <==>
          (inp.build.status == BuildFailed
           || (exists e :: CitedEvidence(inp, requirement, e) && e.evidenceStatus == "contradicted")))
    && (facts.baseProven <==>
          && facts.hasOutput && ValidationsPass(inp, requirement) && facts.refsValid && inp.build.environmentMatches
          && facts.typesMatch && !ProhibitedPresent(inp) && AbsenceEvidenced(inp))
  }

  lemma RefsAreCited(inp: Inputs, requirement: string)
    ensures forall ref :: ref in RefsOf(inp, requirement) <==> CitedBy(inp, requirement, ref)
  {
  }

  lemma VisibleIsCited(inp: Inputs, requirement: string)
    ensures forall e :: e in Visible(EvidenceMap(inp), RefsOf(inp, requirement)) <==> CitedEvidence(inp, requirement, e)
    ensures |Visible(EvidenceMap(inp), RefsOf(inp, requirement))| == |RefsOf(inp, requirement)| <==>
      forall ref :: CitedBy(inp, requirement, ref) ==> Resolves(EvidenceMap(inp), ref)
  {
    RefsAreCited(inp, requirement);
    VisibleAre(EvidenceMap(inp), RefsOf(inp, requirement));
  }

  lemma TypesMatchExactly(inp: Inputs, requirement: string, trusted: seq<Evidence>)
    requires forall e :: e in trusted <==> CitedEvidence(inp, requirement, e) && Trusted(e)
    ensures RequiredTypes(inp.success.proofs, requirement) <= (set e | e in trusted :: e.evidenceType) <==>
      TypesObserved(inp, requirement)
  {
    var required, observed := RequiredTypes(inp.success.proofs, requirement), set e | e in trusted :: e.evidenceType;
    if required <= observed {
      forall p, t | p in inp.success.proofs && requirement in p.requirementIds && t in p.requiredTypes
        ensures exists e :: CitedEvidence(inp, requirement, e) && Trusted(e) && e.evidenceType == t
      {
        assert t in observed;
        var e :| e in trusted && e.evidenceType == t;
      }
    }
  }

  lemma FactsMeanWhatTheySay(inp: Inputs, requirement: string)
    ensures FactsMean(inp, requirement, FactsOf(inp, requirement))
  {
    var facts := FactsOf(inp, requirement);
    RefsAreCited(inp, requirement);
    VisibleIsCited(inp, requirement);
    TypesMatchExactly(inp, requirement, facts.trusted);
    assert facts.refs != [] ==> facts.refs[0] in facts.refs;
  }

  // What is stated about a dimension, over the evidence cited for it.
  lemma StatedExactly(inp: Inputs, requirement: string, facts: Facts, d: Dimension)
    requires FactsMean(inp, requirement, facts)
    ensures Worst(facts.trusted, d).Some? <==>
      exists e :: CitedEvidence(inp, requirement, e) && Trusted(e) && d in e.claims
    ensures (Worst(facts.trusted, d).None? || Worst(facts.trusted, d) == Some(Pass)) <==>
      forall e :: CitedEvidence(inp, requirement, e) && Trusted(e) && d in e.claims ==> e.claims[d] == Pass
  {
    var worst := Worst(facts.trusted, d);
    WorstIsWorst(facts.trusted, d);
    if worst == Some(Pass) {
      forall e | CitedEvidence(inp, requirement, e) && Trusted(e) && d in e.claims ensures e.claims[d] == Pass {
        assert e in facts.trusted;
      }
    }
  }

  lemma DimensionExactly(inp: Inputs, r: Requirement, facts: Facts, d: Dimension)
    requires FactsMean(inp, r.requirementId, facts) && facts.baseProven && d in r.dimensions
    ensures QualityOf(inp, r, facts, d) == Pass <==> DimensionProven(inp, r.requirementId, d)
  {
    StatedExactly(inp, r.requirementId, facts, d);
  }

  lemma QualitiesCover(inp: Inputs, r: Requirement, facts: Facts)
    ensures forall q: Quality :: q in QualitiesOf(inp, r, facts, DIMENSIONS) <==> q == Quality(q.dimension, QualityOf(inp, r, facts, q.dimension))
  {
    forall q: Quality | q == Quality(q.dimension, QualityOf(inp, r, facts, q.dimension)) ensures q in QualitiesOf(inp, r, facts, DIMENSIONS) {
      var i := PositionOf(q.dimension);
      assert QualitiesOf(inp, r, facts, DIMENSIONS)[i] == q;
    }
  }

  function PositionOf(d: Dimension): (i: nat)
    ensures i < |DIMENSIONS| && DIMENSIONS[i] == d
  {
    match d
    case Correctness => 0
    case Completeness => 1
    case Usability => 2
    case Consistency => 3
    case Reliability => 4
    case EvidenceQuality => 5
    case ConstraintCompliance => 6
  }

  // A trace entry is proven exactly when the requirement is.
  lemma ProvenEntryExactly(inp: Inputs, r: Requirement)
    ensures EntryOf(inp, r).status == Proven <==> RequirementProven(inp, r)
  {
    var facts := FactsOf(inp, r.requirementId);
    FactsMeanWhatTheySay(inp, r.requirementId);
    StatusProvenExactly(inp, r, facts);
  }

  lemma StatusProvenExactly(inp: Inputs, r: Requirement, facts: Facts)
    requires FactsMean(inp, r.requirementId, facts)
    ensures StatusOf(r, facts, QualitiesOf(inp, r, facts, DIMENSIONS)) == Proven <==>
      facts.baseProven && !facts.contradicted && forall d :: d in r.dimensions ==> DimensionProven(inp, r.requirementId, d)
  {
    var quality := QualitiesOf(inp, r, facts, DIMENSIONS);
    QualitiesCover(inp, r, facts);
    RequiredStatuses(inp, r, facts, quality);
    if facts.baseProven {
      forall d | d in r.dimensions ensures QualityOf(inp, r, facts, d) == Pass <==> DimensionProven(inp, r.requirementId, d) {
        DimensionExactly(inp, r, facts, d);
      }
    }
  }

  lemma RequiredStatuses(inp: Inputs, r: Requirement, facts: Facts, quality: seq<Quality>)
    requires forall q :: q in quality <==> q == Quality(q.dimension, QualityOf(inp, r, facts, q.dimension))
    ensures StatusOf(r, facts, quality) == Proven <==>
      facts.baseProven && !facts.contradicted && forall d :: d in r.dimensions ==> QualityOf(inp, r, facts, d) == Pass
  {
    var required := set q | q in quality && q.dimension in r.dimensions :: q.status;
    forall d | d in r.dimensions ensures QualityOf(inp, r, facts, d) in required {
      assert Quality(d, QualityOf(inp, r, facts, d)) in quality;
    }
    if forall d :: d in r.dimensions ==> QualityOf(inp, r, facts, d) == Pass {
      forall s | s in required ensures s == Pass {
      }
    }
  }

  // ----- The quality summary -----

  // The statuses recorded for a dimension over all entries, in order.
  function Recorded(entries: seq<Entry>, d: Dimension): seq<Status> {
    if entries == [] then []
    else
      var n := |entries| - 1;
      Recorded(entries[..n], d) + StatusesIn(entries[n].quality, d)
  }

  function StatusesIn(quality: seq<Quality>, d: Dimension): seq<Status> {
    if quality == [] then []
    else
      var n := |quality| - 1;
      StatusesIn(quality[..n], d) + (if quality[n].dimension == d then [quality[n].status] else [])
  }

  // The worst applicable status, or that none applies.
  function WorstOf(statuses: seq<Status>): Status {
    if statuses == [] then NotApplicable
    else
      var n := |statuses| - 1;
      var earlier := WorstOf(statuses[..n]);
      if statuses[n].Rank() < earlier.Rank() then statuses[n] else earlier
  }

  lemma {:induction false} WorstOfIsWorst(statuses: seq<Status>)
    ensures WorstOf(statuses) in statuses || WorstOf(statuses) == NotApplicable
    ensures forall s :: s in statuses ==> WorstOf(statuses).Rank() <= s.Rank()
    ensures WorstOf(statuses) == Fail <==> Fail in statuses
    ensures WorstOf(statuses) == Unproven <==> Unproven in statuses && Fail !in statuses
    ensures WorstOf(statuses) == Partial <==> Partial in statuses && Fail !in statuses && Unproven !in statuses
    ensures WorstOf(statuses) == NotApplicable <==> forall s :: s in statuses ==> s == NotApplicable
  {
    if statuses != [] {
      var n := |statuses| - 1;
      WorstOfIsWorst(statuses[..n]);
      assert statuses == statuses[..n] + [statuses[n]];
    }
  }

  method WorstStatus(rows: seq<Status>) returns (worst: Status)
    ensures worst == WorstOf(rows)
  {
    worst := NotApplicable;
    for k := 0 to |rows|
      invariant worst == WorstOf(rows[..k])
    {
      assert rows[..k + 1][..k] == rows[..k];
      if rows[k] != NotApplicable && (worst == NotApplicable || rows[k].Rank() < worst.Rank()) {
        worst := rows[k];
      }
    }
    assert rows[..|rows|] == rows;
  }

  method AggregateQuality(entries: seq<Entry>) returns (summary: seq<Quality>)
    ensures summary == SummaryOf(entries)
  {
    summary := [];
    ghost var all := SummaryOf(entries);
    for i := 0 to |DIMENSIONS|
      invariant summary == all[..i]
    {
      var worst := WorstStatus(Recorded(entries, DIMENSIONS[i]));
      assert all[..i + 1] == all[..i] + [all[i]];
      summary := summary + [Quality(DIMENSIONS[i], worst)];
    }
  }

  function SummaryOf(entries: seq<Entry>): seq<Quality> {
    seq(|DIMENSIONS|, i requires 0 <= i < |DIMENSIONS| => Quality(DIMENSIONS[i], WorstOf(Recorded(entries, DIMENSIONS[i]))))
  }

  lemma {:induction false} StatusesInAre(quality: seq<Quality>, d: Dimension)
    ensures forall s :: s in StatusesIn(quality, d) <==> Quality(d, s) in quality
  {
    if quality != [] {
      var n := |quality| - 1;
      StatusesInAre(quality[..n], d);
      assert quality == quality[..n] + [quality[n]];
    }
  }

  lemma {:induction false} RecordedAre(entries: seq<Entry>, d: Dimension)
    ensures forall s :: s in Recorded(entries, d) <==> exists e :: e in entries && Quality(d, s) in e.quality
  {
    if entries != [] {
      var n := |entries| - 1;
      RecordedAre(entries[..n], d);
      StatusesInAre(entries[n].quality, d);
      assert entries == entries[..n] + [entries[n]];
    }
  }

  // ----- The final decision -----

  datatype Verdict = FinalProven | FinalPartiallyProven | FinalUnproven | FinalContradicted | FinalInvalidated

  datatype Evaluation = Evaluation(evaluationId: string, verdict: Verdict, blocking: bool, summary: seq<Quality>,
                                   failures: seq<string>, prohibited: seq<string>)

  datatype Outcome = Rejected | Raised | Evaluated(traceId: string, trace: seq<Entry>, evaluation: Evaluation)

  function EntryId(e: Entry): string { e.requirementId }

  // The ids derived for the parts of the result.
  function FailureId(requirement: string): string { "failure." + requirement }
  function TraceId(inp: Inputs): string { "trace." + inp.build.buildId }
  function EvaluationId(inp: Inputs): string { "evaluation." + inp.build.buildId }
  function DriftId(inp: Inputs): string { "drift." + inp.current.baselineId }

  function DimensionsOf(quality: seq<Quality>): seq<Dimension> {
    seq(|quality|, i requires 0 <= i < |quality| => quality[i].dimension)
  }

  // The invariants the evaluator checks on what it is about to return.
  predicate TraceInvariant(traceId: string, trace: seq<Entry>) {
    && Identifier(traceId) && trace != []
    && Distinct(Ids(trace, EntryId)) && forall e | e in trace :: Distinct(DimensionsOf(e.quality))
  }

  predicate EvaluationInvariant(e: Evaluation) {
    && Identifier(e.evaluationId) && AllIdentifiers(e.failures) && AllIdentifiers(e.prohibited)
    && e.summary != [] && Distinct(DimensionsOf(e.summary)) && Distinct(e.failures)
    && (e.verdict == FinalProven ==> !e.blocking && e.failures == [] && e.prohibited == [])
    && (e.verdict in {FinalUnproven, FinalContradicted, FinalInvalidated} ==> e.blocking && e.failures != [])
    && (e.verdict == FinalProven ==> forall q | q in e.summary :: q.status in {Pass, NotApplicable})
  }

  function BlockingIds(requirements: seq<Requirement>): set<string> {
    set r | r in requirements && r.blocking :: r.requirementId
  }

  function BlockingFailures(entries: seq<Entry>, blocking: set<string>): seq<string> {
    if entries == [] then []
    else
      var n := |entries| - 1;
      BlockingFailures(entries[..n], blocking) +
      (if entries[n].requirementId in blocking && entries[n].status != Proven then [FailureId(entries[n].requirementId)] else [])
  }

  function PresentOutcomes(checks: seq<Check>): seq<string> {
    if checks == [] then []
    else
      var n := |checks| - 1;
      PresentOutcomes(checks[..n]) + (if checks[n].present then [checks[n].outcomeId] else [])
  }

  predicate BlockingContradicted(entries: seq<Entry>, blocking: set<string>) {
    exists e | e in entries :: e.requirementId in blocking && e.status == Contradicted
  }

  predicate AllProven(entries: seq<Entry>) {
    forall e | e in entries :: e.status == Proven
  }

  function Decide(drift: bool, prohibited: seq<string>, entries: seq<Entry>, blocking: set<string>): (Verdict, seq<string>) {
    var failures := BlockingFailures(entries, blocking);
    if drift then (FinalInvalidated, failures + ["failure.relevant-drift"])
    else if prohibited != [] || BlockingContradicted(entries, blocking) then
      (FinalContradicted, if prohibited != [] && failures == [] then ["failure.prohibited-outcome"] else failures)
    else if failures == [] && AllProven(entries) then (FinalProven, [])
    else if failures != [] then (FinalUnproven, failures)
    else (FinalPartiallyProven, [])
  }

  function Invalidate(entries: seq<Entry>): seq<Entry> {
    seq(|entries|, i requires 0 <= i < |entries| => entries[i].(status := Invalidated))
  }

  predicate DriftBlocks(inp: Inputs) {
    Drift.Classify(Drift.Changes(inp.locked, inp.current)).blocking
  }

  function Assembled(id: string, decided: (Verdict, seq<string>), summary: seq<Quality>, prohibited: seq<string>): Evaluation {
    Evaluation(id, decided.0, decided.0 in {FinalUnproven, FinalContradicted, FinalInvalidated}, summary, decided.1, prohibited)
  }

  function EvaluationOf(inp: Inputs): (seq<Entry>, Evaluation) {
    var entries, drift := TraceOf(inp, inp.success.requirements), DriftBlocks(inp);
    var prohibited := PresentOutcomes(inp.build.checks);
    var trace := if drift then Invalidate(entries) else entries;
    (trace, Assembled(EvaluationId(inp), Decide(drift, prohibited, entries, BlockingIds(inp.success.requirements)), SummaryOf(trace), prohibited))
  }

  function EvaluateSpec(inp: Inputs): Outcome {
    if !Admitted(inp) then Rejected
    else
      var (trace, evaluation) := EvaluationOf(inp);
      if Identifier(DriftId(inp)) && TraceInvariant(TraceId(inp), trace) && EvaluationInvariant(evaluation)
      then Evaluated(TraceId(inp), trace, evaluation) else Raised
  }

  method CollectFailures(entries: seq<Entry>, blocking: set<string>) returns (failures: seq<string>)
    ensures failures == BlockingFailures(entries, blocking)
  {
    failures := [];
    for i := 0 to |entries|
      invariant failures == BlockingFailures(entries[..i], blocking)
    {
      assert entries[..i + 1][..i] == entries[..i];
      if entries[i].requirementId in blocking && entries[i].status != Proven {
        failures := failures + [FailureId(entries[i].requirementId)];
      }
    }
    assert entries[..|entries|] == entries;
  }

  method InvalidateAll(entries: seq<Entry>) returns (trace: seq<Entry>)
    ensures trace == Invalidate(entries)
  {
    trace := entries;
    for i := 0 to |entries|
      invariant |trace| == |entries|
      invariant forall k :: 0 <= k < i ==> trace[k] == entries[k].(status := Invalidated)
      invariant forall k :: i <= k < |entries| ==> trace[k] == entries[k]
    {
      trace := trace[i := trace[i].(status := Invalidated)];
    }
  }

  // Reaches the verdict; a blocking verdict always comes with a failure
  // already, so the last resort never adds one.
  method Settle(drift: bool, prohibited: seq<string>, entries: seq<Entry>, blocking: set<string>)
    returns (verdict: Verdict, failures: seq<string>)
    ensures (verdict, failures) == Decide(drift, prohibited, entries, blocking)
  {
    failures := CollectFailures(entries, blocking);
    ContradictedIsAFailure(entries, blocking);
    if drift {
      failures := failures + ["failure.relevant-drift"];
      verdict := FinalInvalidated;
    } else if prohibited != [] || BlockingContradicted(entries, blocking) {
      verdict := FinalContradicted;
      if prohibited != [] && failures == [] {
        failures := ["failure.prohibited-outcome"];
      }
    } else if failures == [] && AllProven(entries) {
      verdict := FinalProven;
    } else if failures != [] {
      verdict := FinalUnproven;
    } else {
      verdict := FinalPartiallyProven;
    }
    if verdict in {FinalUnproven, FinalContradicted, FinalInvalidated} && failures == [] {
      failures := failures + ["failure.output"];
    }
  }

  method EvaluateResult(inp: Inputs) returns (outcome: Outcome)
    ensures outcome == EvaluateSpec(inp)
    ensures outcome.Evaluated? ==>
      (outcome.evaluation.blocking <==> DriftBlocks(inp) || OutcomePresent(inp) || BlockingUnproven(inp))
  {
    if EvaluateSpec(inp).Evaluated? {
      VerdictExactly(inp);
    }
    if !Admitted(inp) {
      return Rejected;
    }
    var changes := Drift.CompareBaselines(inp.locked, inp.current);
    if !Identifier(DriftId(inp)) {
      return Raised;
    }
    var drift := Drift.Classify(changes.value).blocking;
    var trace := BuildTrace(inp);
    var prohibited := PresentOutcomes(inp.build.checks);
    var verdict, failures := Settle(drift, prohibited, trace, BlockingIds(inp.success.requirements));
    if drift {
      trace := InvalidateAll(trace);
    }
    var summary := AggregateQuality(trace);
    if !TraceInvariant(TraceId(inp), trace) {
      return Raised;
    }
    var blocking := verdict in {FinalUnproven, FinalContradicted, FinalInvalidated};
    var evaluation := Evaluation(EvaluationId(inp), verdict, blocking, summary, failures, prohibited);
    if !EvaluationInvariant(evaluation) {
      return Raised;
    }
    outcome := Evaluated(TraceId(inp), trace, evaluation);
  }

  lemma {:induction false} FailuresAre(entries: seq<Entry>, blocking: set<string>)
    ensures forall f :: f in BlockingFailures(entries, blocking) <==>
      exists e :: e in entries && e.requirementId in blocking && e.status != Proven && f == FailureId(e.requirementId)
  {
    if entries != [] {
      var n := |entries| - 1;
      FailuresAre(entries[..n], blocking);
      assert entries == entries[..n] + [entries[n]];
    }
  }

  lemma ContradictedIsAFailure(entries: seq<Entry>, blocking: set<string>)
    ensures BlockingContradicted(entries, blocking) ==> BlockingFailures(entries, blocking) != []
    ensures AllProven(entries) ==> BlockingFailures(entries, blocking) == []
  {
    FailuresAre(entries, blocking);
    var failures := BlockingFailures(entries, blocking);
    if e :| e in entries && e.requirementId in blocking && e.status == Contradicted {
      assert FailureId(e.requirementId) in failures;
    }
    assert failures != [] ==> failures[0] in failures;
  }

  lemma FailureIdsDiffer(a: string, b: string)
    ensures FailureId(a) == FailureId(b) ==> a == b
    ensures FailureId(a) == "failure.relevant-drift" <==> a == "relevant-drift"
  {
    assert FailureId(a)[8..] == a && FailureId(b)[8..] == b;
    assert "failure.relevant-drift"[8..] == "relevant-drift";
    assert FailureId("relevant-drift") == "failure.relevant-drift";
  }

  lemma {:induction false} FailuresDistinct(entries: seq<Entry>, blocking: set<string>)
    requires Distinct(Ids(entries, EntryId))
    ensures Distinct(BlockingFailures(entries, blocking))
  {
    if entries != [] {
      var n := |entries| - 1;
      assert Distinct(Ids(entries[..n], EntryId)) by { IdsPrefix(entries, n); }
      FailuresDistinct(entries[..n], blocking);
      FailuresAre(entries[..n], blocking);
      forall e | e in entries[..n] ensures FailureId(e.requirementId) != FailureId(entries[n].requirementId) {
        var k :| 0 <= k < n && entries[k] == e;
        assert Ids(entries, EntryId)[k] == EntryId(e) && Ids(entries, EntryId)[n] == EntryId(entries[n]);
        FailureIdsDiffer(e.requirementId, entries[n].requirementId);
      }
      DistinctAppend(BlockingFailures(entries[..n], blocking), [FailureId(entries[n].requirementId)]);
    }
  }

  lemma IdsPrefix(entries: seq<Entry>, n: nat)
    requires n <= |entries| && Distinct(Ids(entries, EntryId))
    ensures Distinct(Ids(entries[..n], EntryId))
  {
    assert Ids(entries[..n], EntryId) == Ids(entries, EntryId)[..n];
  }

  lemma {:induction false} PresentExactly(checks: seq<Check>)
    ensures PresentOutcomes(checks) == [] <==> forall c :: c in checks ==> !c.present
  {
    if checks != [] {
      var n := |checks| - 1;
      PresentExactly(checks[..n]);
      assert checks == checks[..n] + [checks[n]];
    }
  }

  lemma TraceProvenExactly(inp: Inputs)
    ensures AllProven(TraceOf(inp, inp.success.requirements)) <==>
      forall r :: r in inp.success.requirements ==> RequirementProven(inp, r)
  {
    var requirements := inp.success.requirements;
    var trace := TraceOf(inp, requirements);
    forall r | r in requirements ensures EntryOf(inp, r) in trace && (EntryOf(inp, r).status == Proven <==> RequirementProven(inp, r)) {
      var i :| 0 <= i < |requirements| && requirements[i] == r;
      assert trace[i] == EntryOf(inp, r);
      ProvenEntryExactly(inp, r);
    }
    forall e | e in trace ensures exists r :: r in requirements && e == EntryOf(inp, r) {
      var i :| 0 <= i < |trace| && trace[i] == e;
      assert requirements[i] in requirements;
    }
  }

  // The verdict is "proven" exactly when drift does not block, no prohibited
  // outcome is present and every requirement, blocking or not, is proven.
  lemma ProvenExactly(inp: Inputs)
    ensures EvaluationOf(inp).1.verdict == FinalProven <==>
      && !DriftBlocks(inp)
      && (forall c :: c in inp.build.checks ==> !c.present)
      && (forall r :: r in inp.success.requirements ==> RequirementProven(inp, r))
  {
    var trace := TraceOf(inp, inp.success.requirements);
    var blocking := BlockingIds(inp.success.requirements);
    TraceProvenExactly(inp);
    PresentExactly(inp.build.checks);
    ContradictedIsAFailure(trace, blocking);
    VerdictProvenExactly(DriftBlocks(inp), PresentOutcomes(inp.build.checks), trace, blocking);
  }

  lemma VerdictProvenExactly(drift: bool, prohibited: seq<string>, entries: seq<Entry>, blocking: set<string>)
    ensures Decide(drift, prohibited, entries, blocking).0 == FinalProven <==> !drift && prohibited == [] && AllProven(entries)
  {
    ContradictedIsAFailure(entries, blocking);
  }

  // A proven entry records a pass or nothing applicable for every dimension.
  lemma ProvenEntryQuality(inp: Inputs, r: Requirement, q: Quality)
    requires EntryOf(inp, r).status == Proven && q in EntryOf(inp, r).quality
    ensures q.status == Pass || q.status == NotApplicable
  {
    var facts := FactsOf(inp, r.requirementId);
    QualitiesCover(inp, r, facts);
    RequiredStatuses(inp, r, facts, QualitiesOf(inp, r, facts, DIMENSIONS));
  }

  ghost predicate CleanEntries(entries: seq<Entry>) {
    forall e, q :: e in entries && q in e.quality ==> q.status == Pass || q.status == NotApplicable
  }

  lemma CleanSummaryAt(entries: seq<Entry>, d: Dimension)
    requires CleanEntries(entries)
    ensures WorstOf(Recorded(entries, d)) in {Pass, NotApplicable}
  {
    var worst := WorstOf(Recorded(entries, d));
    WorstOfIsWorst(Recorded(entries, d));
    RecordedAre(entries, d);
    if worst != NotApplicable {
      var e :| e in entries && Quality(d, worst) in e.quality;
    }
  }

  lemma ProvenSummary(inp: Inputs)
    requires AllProven(TraceOf(inp, inp.success.requirements))
    ensures forall q :: q in SummaryOf(TraceOf(inp, inp.success.requirements)) ==> q.status in {Pass, NotApplicable}
  {
    var entries := TraceOf(inp, inp.success.requirements);
    forall e, q | e in entries && q in e.quality ensures q.status == Pass || q.status == NotApplicable {
      var k :| 0 <= k < |entries| && entries[k] == e;
      ProvenEntryQuality(inp, inp.success.requirements[k], q);
    }
    forall d: Dimension ensures WorstOf(Recorded(entries, d)) in {Pass, NotApplicable} {
      CleanSummaryAt(entries, d);
    }
  }

  lemma DimensionsDistinct()
    ensures Distinct(DIMENSIONS)
  {
  }

  // The ids put together by the evaluator all open as identifiers do.
  lemma DerivedIds(inp: Inputs)
    requires Identifier(inp.build.buildId) && Identifier(inp.current.baselineId)
    ensures Identifier(TraceId(inp)) <==> !TooLong("trace.", inp.build.buildId)
    ensures Identifier(EvaluationId(inp)) <==> !TooLong("evaluation.", inp.build.buildId)
    ensures Identifier(DriftId(inp)) <==> !TooLong("drift.", inp.current.baselineId)
  {
    DerivedExactly("trace.", inp.build.buildId);
    DerivedExactly("evaluation.", inp.build.buildId);
    DerivedExactly("drift.", inp.current.baselineId);
  }

  // The trace passes its check exactly when the build id leaves room for the
  // prefix of the trace id.
  lemma TraceInvariantHolds(inp: Inputs, trace: seq<Entry>)
    requires IdsAdmitted(inp) && Distinct(Ids(inp.success.requirements, RequirementId))
    requires trace == TraceOf(inp, inp.success.requirements) || trace == Invalidate(TraceOf(inp, inp.success.requirements))
    ensures TraceInvariant(TraceId(inp), trace) <==> !TooLong("trace.", inp.build.buildId)
    ensures Distinct(Ids(trace, EntryId))
  {
    DerivedIds(inp);
    DimensionsDistinct();
    forall i | 0 <= i < |trace| ensures Ids(trace, EntryId)[i] == Ids(inp.success.requirements, RequirementId)[i] {
      assert EntryId(trace[i]) == RequirementId(inp.success.requirements[i]);
    }
    forall e | e in trace ensures Distinct(DimensionsOf(e.quality)) {
      assert DimensionsOf(e.quality) == DIMENSIONS;
    }
  }

  lemma SummaryDistinct(trace: seq<Entry>)
    ensures Distinct(DimensionsOf(SummaryOf(trace)))
  {
    DimensionsDistinct();
    assert DimensionsOf(SummaryOf(trace)) == DIMENSIONS;
  }

  ghost predicate UnprovenNamedDrift(inp: Inputs) {
    exists r :: r in inp.success.requirements && r.blocking && r.requirementId == "relevant-drift" && !RequirementProven(inp, r)
  }

  // An unproven blocking requirement whose id leaves no room for the prefix of
  // its failure.
  ghost predicate UnprovenWithLongId(inp: Inputs) {
    exists r :: r in inp.success.requirements && r.blocking && TooLong("failure.", r.requirementId) && !RequirementProven(inp, r)
  }

  // What the evaluator's checks on its own result object to: blocking drift
  // together with an unproven blocking requirement whose id makes its failure
  // collide with the one recorded for the drift, and derived ids that are too
  // long.
  ghost predicate SelfCheckObjects(inp: Inputs) {
    || (DriftBlocks(inp) && UnprovenNamedDrift(inp))
    || UnprovenWithLongId(inp)
    || TooLong("evaluation.", inp.build.buildId)
    || TooLong("drift.", inp.current.baselineId)
  }

  lemma SelfCheckExactly(inp: Inputs)
    requires Admitted(inp)
    ensures EvaluateSpec(inp) == Raised <==> SelfCheckObjects(inp)
  {
    var entries := TraceOf(inp, inp.success.requirements);
    var blocking := BlockingIds(inp.success.requirements);
    var (trace, evaluation) := EvaluationOf(inp);
    TraceInvariantHolds(inp, trace);
    SummaryDistinct(trace);
    TraceInvariantHolds(inp, entries);
    FailuresDistinct(entries, blocking);
    if AllProven(entries) {
      ProvenSummary(inp);
    }
    DerivedIds(inp);
    PresentIdentifiers(inp.build.checks, inp.success.outcomeIds);
    DecisionInvariantExactly(EvaluationId(inp), DriftBlocks(inp), PresentOutcomes(inp.build.checks), entries, blocking, evaluation.summary);
    DriftCollisionExactly(inp);
    LongFailureExactly(inp);
  }

  // A small evaluation: one blocking requirement with one proof, one output, one
  // passed validation and one piece of trusted evidence, and no drift.
  function Small(buildId: string, requirement: string, hash: string, environmentMatches: bool): Inputs {
    var baseline := Drift.Baseline("baseline", "root", "scope", [], []);
    Inputs(Success([Requirement(requirement, true, {Correctness})], [Proof([requirement], {"artifact"})], []),
           [Validation("validation", [requirement])],
           Build(buildId, BuildCompleted, [Output("output", [requirement], [Ref("evidence", hash)])],
                 [ValidationResult("validation", true, [])], [], environmentMatches),
           [Evidence("evidence", hash, "verified", "human", "build_result_input", "artifact", map[])], baseline, baseline)
  }

  lemma SmallNoDrift(buildId: string, requirement: string, hash: string, environmentMatches: bool)
    ensures !DriftBlocks(Small(buildId, requirement, hash, environmentMatches))
  {
    var baseline := Small(buildId, requirement, hash, environmentMatches).locked;
    Drift.NoChangeExactly(baseline, baseline);
  }

  lemma SmallMaps(buildId: string, requirement: string, hash: string, environmentMatches: bool)
    ensures var inp := Small(buildId, requirement, hash, environmentMatches);
      && EvidenceMap(inp) == map["evidence" := inp.evidence[0]] && ResultMap(inp) == map["validation" := inp.build.results[0]]
  {
    var inp := Small(buildId, requirement, hash, environmentMatches);
    var e, result := inp.evidence[0], inp.build.results[0];
    assert inp.evidence == [e] && inp.build.results == [result];
    ByIdOne(e, EvidenceId);
    ByIdOne(result, ResultId);
    assert EvidenceId(e) == "evidence" && ResultId(result) == "validation";
  }

  // The requirement is proven if the environment is the required one.
  lemma SmallProven(buildId: string, requirement: string, hash: string, environmentMatches: bool)
    ensures var inp := Small(buildId, requirement, hash, environmentMatches);
      RequirementProven(inp, inp.success.requirements[0]) <==> environmentMatches
  {
    var inp := Small(buildId, requirement, hash, environmentMatches);
    SmallMaps(buildId, requirement, hash, environmentMatches);
    if environmentMatches {
      assert inp.build.outputs[0] in inp.build.outputs && inp.validations[0] in inp.validations;
      var cited := Ref("evidence", hash);
      assert cited in inp.build.outputs[0].refs && CitedBy(inp, requirement, cited);
      assert Resolves(EvidenceMap(inp), cited) && CitedEvidence(inp, requirement, inp.evidence[0]);
      forall ref | CitedBy(inp, requirement, ref) ensures ref == cited {
      }
      assert forall e :: CitedEvidence(inp, requirement, e) ==> e == inp.evidence[0];
      assert TypesObserved(inp, requirement) && DimensionProven(inp, requirement, Correctness);
    }
  }

  lemma SmallIds(buildId: string, requirement: string, hash: string, environmentMatches: bool)
    ensures var inp := Small(buildId, requirement, hash, environmentMatches);
      && Ids(inp.success.requirements, RequirementId) == [requirement] && Ids(inp.validations, ValidationId) == ["validation"]
      && |Ids(inp.build.outputs, OutputId)| == |Ids(inp.build.results, ResultId)| == |Ids(inp.evidence, EvidenceId)| == 1
      && Ids(inp.build.checks, OutcomeId) == []
  {
    var inp := Small(buildId, requirement, hash, environmentMatches);
    assert RequirementId(inp.success.requirements[0]) == requirement && ValidationId(inp.validations[0]) == "validation";
  }

  lemma SmallFilled(buildId: string, requirement: string, hash: string, environmentMatches: bool)
    ensures Filled(Small(buildId, requirement, hash, environmentMatches))
  {
  }

  lemma SmallAdmitted(buildId: string, requirement: string, hash: string, environmentMatches: bool)
    requires Identifier(buildId) && Identifier(requirement)
    ensures Admitted(Small(buildId, requirement, hash, environmentMatches))
  {
    var inp := Small(buildId, requirement, hash, environmentMatches);
    SmallFilled(buildId, requirement, hash, environmentMatches);
    SmallIds(buildId, requirement, hash, environmentMatches);
  }

  // Inputs for which the evaluator rejects its own result: everything is
  // proven, but the build id has 118 characters; or a blocking requirement
  // with an id of 121 characters is not proven.
  lemma LongIdsRaise(hash: string)
    ensures var inp := Small(seq(118, _ => 'b'), "requirement", hash, true);
      && Admitted(inp) && (forall r :: r in inp.success.requirements ==> RequirementProven(inp, r)) && !DriftBlocks(inp)
      && EvaluateSpec(inp) == Raised
    ensures var inp := Small("build", seq(121, _ => 'r'), hash, false);
      Admitted(inp) && !DriftBlocks(inp) && EvaluateSpec(inp) == Raised
  {
    var build, requirement := seq(118, _ => 'b'), seq(121, _ => 'r');
    LongBuildIdRaises(build, hash);
    LongRequirementIdRaises(requirement, hash);
  }

  lemma LongBuildIdRaises(build: string, hash: string)
    requires |build| == 118 && forall i :: 0 <= i < |build| ==> build[i] == 'b'
    ensures var inp := Small(build, "requirement", hash, true);
      && Admitted(inp) && (forall r :: r in inp.success.requirements ==> RequirementProven(inp, r)) && !DriftBlocks(inp)
      && EvaluateSpec(inp) == Raised
  {
    RequirementNamed();
    SmallAdmitted(build, "requirement", hash, true);
    SmallProven(build, "requirement", hash, true);
    SmallNoDrift(build, "requirement", hash, true);
    SelfCheckExactly(Small(build, "requirement", hash, true));
  }

  lemma RequirementNamed()
    ensures Identifier("requirement") && Identifier("build")
  {
  }

  lemma LongRequirementIdRaises(requirement: string, hash: string)
    requires |requirement| == 121 && forall i :: 0 <= i < |requirement| ==> requirement[i] == 'r'
    ensures var inp := Small("build", requirement, hash, false);
      Admitted(inp) && !DriftBlocks(inp) && EvaluateSpec(inp) == Raised
  {
    var inp := Small("build", requirement, hash, false);
    RequirementNamed();
    SmallAdmitted("build", requirement, hash, false);
    SmallProven("build", requirement, hash, false);
    SmallNoDrift("build", requirement, hash, false);
    assert inp.success.requirements[0] in inp.success.requirements;
    SelfCheckExactly(inp);
  }

  lemma {:induction false} PresentIdentifiers(checks: seq<Check>, outcomeIds: seq<string>)
    requires AllIdentifiers(outcomeIds) && forall c :: c in checks ==> c.outcomeId in outcomeIds
    ensures AllIdentifiers(PresentOutcomes(checks))
  {
    if checks != [] {
      var n := |checks| - 1;
      PresentIdentifiers(checks[..n], outcomeIds);
    }
  }

  lemma FailureIdentifier(inp: Inputs, r: Requirement)
    requires IdsAdmitted(inp) && r in inp.success.requirements
    ensures Identifier(FailureId(r.requirementId)) <==> !TooLong("failure.", r.requirementId)
  {
    var i :| 0 <= i < |inp.success.requirements| && inp.success.requirements[i] == r;
    assert Ids(inp.success.requirements, RequirementId)[i] == r.requirementId;
    DerivedExactly("failure.", r.requirementId);
  }

  // The id of a failure is inadmissible exactly for an unproven blocking
  // requirement with a long id.
  lemma LongFailureExactly(inp: Inputs)
    requires IdsAdmitted(inp) && Distinct(Ids(inp.success.requirements, RequirementId))
    ensures !AllIdentifiers(BlockingFailures(TraceOf(inp, inp.success.requirements), BlockingIds(inp.success.requirements)))
      <==> UnprovenWithLongId(inp)
  {
    var failures := BlockingFailures(TraceOf(inp, inp.success.requirements), BlockingIds(inp.success.requirements));
    FailuresOf(inp);
    if f :| f in failures && !Identifier(f) {
      var r :| r in inp.success.requirements && r.blocking && !RequirementProven(inp, r) && f == FailureId(r.requirementId);
      FailureIdentifier(inp, r);
    }
    if r :| r in inp.success.requirements && r.blocking && TooLong("failure.", r.requirementId) && !RequirementProven(inp, r) {
      FailureIdentifier(inp, r);
      assert FailureId(r.requirementId) in failures;
    }
  }

  // The recorded failures are those of the unproven blocking requirements.
  lemma FailuresOf(inp: Inputs)
    requires Distinct(Ids(inp.success.requirements, RequirementId))
    ensures forall f :: f in BlockingFailures(TraceOf(inp, inp.success.requirements), BlockingIds(inp.success.requirements)) <==>
      exists r :: r in inp.success.requirements && r.blocking && !RequirementProven(inp, r) && f == FailureId(r.requirementId)
  {
    var requirements := inp.success.requirements;
    var entries, blocking := TraceOf(inp, requirements), BlockingIds(requirements);
    FailuresAre(entries, blocking);
    forall r | r in requirements ensures EntryOf(inp, r) in entries && (EntryOf(inp, r).status == Proven <==> RequirementProven(inp, r)) {
      var i :| 0 <= i < |requirements| && requirements[i] == r;
      assert entries[i] == EntryOf(inp, r);
      ProvenEntryExactly(inp, r);
    }
    forall e | e in entries && e.requirementId in blocking
      ensures exists r :: r in requirements && r.blocking && e == EntryOf(inp, r)
    {
      var i :| 0 <= i < |entries| && entries[i] == e;
      var r :| r in requirements && r.blocking && r.requirementId == e.requirementId;
      LooksUpItself(requirements, RequirementId, r);
      LooksUpItself(requirements, RequirementId, requirements[i]);
    }
  }

  lemma DecisionInvariantExactly(id: string, drift: bool, prohibited: seq<string>, entries: seq<Entry>, blocking: set<string>,
                                 summary: seq<Quality>)
    requires Distinct(BlockingFailures(entries, blocking)) && Distinct(DimensionsOf(summary)) && summary != []
    requires AllIdentifiers(prohibited)
    requires !drift && AllProven(entries) ==> forall q :: q in summary ==> q.status in {Pass, NotApplicable}
    ensures EvaluationInvariant(Assembled(id, Decide(drift, prohibited, entries, blocking), summary, prohibited)) <==>
      && Identifier(id) && AllIdentifiers(BlockingFailures(entries, blocking))
      && !(drift && "failure.relevant-drift" in BlockingFailures(entries, blocking))
  {
    ContradictedIsAFailure(entries, blocking);
    VerdictProvenExactly(drift, prohibited, entries, blocking);
    DriftFailureDistinct(BlockingFailures(entries, blocking));
    FixedFailureIds();
    var failures := BlockingFailures(entries, blocking);
    assert AllIdentifiers(failures + ["failure.relevant-drift"]) <==> AllIdentifiers(failures);
  }

  lemma FixedFailureIds()
    ensures Identifier("failure.relevant-drift") && Identifier("failure.prohibited-outcome")
  {
  }

  lemma DriftFailureDistinct(failures: seq<string>)
    requires Distinct(failures)
    ensures Distinct(failures + ["failure.relevant-drift"]) <==> "failure.relevant-drift" !in failures
  {
    var all := failures + ["failure.relevant-drift"];
    if "failure.relevant-drift" in failures {
      var i :| 0 <= i < |failures| && failures[i] == "failure.relevant-drift";
      assert all[i] == all[|failures|];
    } else {
      DistinctAppend(failures, ["failure.relevant-drift"]);
    }
  }

  lemma DriftCollisionExactly(inp: Inputs)
    requires Distinct(Ids(inp.success.requirements, RequirementId))
    ensures "failure.relevant-drift" in BlockingFailures(TraceOf(inp, inp.success.requirements), BlockingIds(inp.success.requirements))
      <==> UnprovenNamedDrift(inp)
  {
    FailuresOf(inp);
    forall r | r in inp.success.requirements
      ensures FailureId(r.requirementId) == "failure.relevant-drift" <==> r.requirementId == "relevant-drift"
    {
      FailureIdsDiffer(r.requirementId, r.requirementId);
    }
  }

  // Whatever is returned satisfies the invariants, and a proven verdict comes
  // with a summary of passes.
  lemma ProvenIsClean(inp: Inputs)
    requires EvaluateSpec(inp).Evaluated? && EvaluateSpec(inp).evaluation.verdict == FinalProven
    ensures var e := EvaluateSpec(inp).evaluation;
      && !e.blocking && e.failures == [] && e.prohibited == []
      && (forall q :: q in e.summary ==> q.status in {Pass, NotApplicable})
      && (forall t :: t in EvaluateSpec(inp).trace ==> t.status == Proven)
  {
    var entries, blocking := TraceOf(inp, inp.success.requirements), BlockingIds(inp.success.requirements);
    VerdictProvenExactly(DriftBlocks(inp), PresentOutcomes(inp.build.checks), entries, blocking);
  }

  // ----- The other statuses and verdicts -----

  // Some evidence cited for the requirement, verified, collected by a party
  // that counts and handed in with the build, states this about the dimension.
  ghost predicate Says(inp: Inputs, requirement: string, d: Dimension, s: Status) {
    exists e :: CitedEvidence(inp, requirement, e)
      && e.evidenceStatus == "verified" && e.visibility == "build_result_input"
      && (e.collectedBy == "human" || e.collectedBy == "deterministic_local" || e.collectedBy == "external_harness")
      && d in e.claims && e.claims[d] == s
  }

  ghost predicate SaysNothing(inp: Inputs, requirement: string, d: Dimension) {
    forall s :: !Says(inp, requirement, d, s)
  }

  // A dimension fails if evidence says so, and compliance fails with any
  // prohibited outcome.
  ghost predicate DimensionFails(inp: Inputs, requirement: string, d: Dimension) {
    Says(inp, requirement, d, Fail) || (d == ConstraintCompliance && exists c :: c in inp.build.checks && c.present)
  }

  // What holds of a dimension about which nothing is said.
  ghost predicate ImpliedByTheRest(inp: Inputs, requirement: string, d: Dimension) {
    match d
    case EvidenceQuality => AllCitedResolve(inp, requirement) && TypesObserved(inp, requirement)
    case ConstraintCompliance => AbsenceEvidenced(inp) && inp.build.status == BuildCompleted
    case Correctness => Established(inp, requirement)
    case Completeness => Established(inp, requirement)
    case _ => false
  }

  ghost predicate AllCitedResolve(inp: Inputs, requirement: string) {
    && (exists ref :: CitedBy(inp, requirement, ref))
    && (forall ref :: CitedBy(inp, requirement, ref) ==> Resolves(EvidenceMap(inp), ref))
  }

  ghost predicate HasOutput(inp: Inputs, requirement: string) {
    exists o :: o in inp.build.outputs && requirement in o.requirementIds
  }

  ghost predicate Established(inp: Inputs, requirement: string) {
    && HasOutput(inp, requirement) && ValidationsPass(inp, requirement) && AllCitedResolve(inp, requirement)
    && inp.build.environmentMatches && TypesObserved(inp, requirement)
    && (forall c :: c in inp.build.checks ==> !c.present) && AbsenceEvidenced(inp)
  }

  // A dimension is supported, fully or in part: nothing said speaks against it.
  ghost predicate DimensionSupported(inp: Inputs, requirement: string, d: Dimension) {
    && !DimensionFails(inp, requirement, d) && !Says(inp, requirement, d, Unproven)
    && (if SaysNothing(inp, requirement, d) then ImpliedByTheRest(inp, requirement, d) else true)
  }

  ghost predicate RequirementContradicted(inp: Inputs, r: Requirement) {
    || inp.build.status == BuildFailed
    || (exists e :: CitedEvidence(inp, r.requirementId, e) && e.evidenceStatus == "contradicted")
    || (exists d :: d in r.dimensions && DimensionFails(inp, r.requirementId, d))
  }

  ghost predicate RequirementPartlyProven(inp: Inputs, r: Requirement) {
    && !RequirementContradicted(inp, r) && !RequirementProven(inp, r)
    && HasOutput(inp, r.requirementId) && exists d :: d in r.dimensions && DimensionSupported(inp, r.requirementId, d)
  }

  // Some item states this about the dimension.
  ghost predicate Claims(evidence: seq<Evidence>, d: Dimension, s: Status) {
    exists e :: e in evidence && d in e.claims && e.claims[d] == s
  }

  // The worst of what is said, told without ranks.
  function WorstSaid(fail: bool, unproven: bool, partial: bool, pass: bool): Option<Claim> {
    if fail then Some(Fail) else if unproven then Some(Unproven) else if partial then Some(Partial)
    else if pass then Some(Pass) else None
  }

  lemma {:induction false} WorstLiterally(evidence: seq<Evidence>, d: Dimension)
    ensures Worst(evidence, d)
      == WorstSaid(Claims(evidence, d, Fail), Claims(evidence, d, Unproven), Claims(evidence, d, Partial), Claims(evidence, d, Pass))
  {
    if evidence != [] {
      var n := |evidence| - 1;
      WorstLiterally(evidence[..n], d);
      ClaimsNext(evidence, d, n, Fail);
      ClaimsNext(evidence, d, n, Unproven);
      ClaimsNext(evidence, d, n, Partial);
      ClaimsNext(evidence, d, n, Pass);
    }
  }

  lemma ClaimsNext(evidence: seq<Evidence>, d: Dimension, n: nat, s: Status)
    requires n == |evidence| - 1
    ensures Claims(evidence, d, s) <==> Claims(evidence[..n], d, s) || (d in evidence[n].claims && evidence[n].claims[d] == s)
  {
    assert evidence == evidence[..n] + [evidence[n]];
  }

  // What the trusted evidence behind an entry says.
  lemma TrustedSays(inp: Inputs, requirement: string, facts: Facts, d: Dimension, s: Status)
    requires FactsMean(inp, requirement, facts)
    ensures Claims(facts.trusted, d, s) <==> Says(inp, requirement, d, s)
  {
    forall e ensures Trusted(e) <==>
      && e.evidenceStatus == "verified" && e.visibility == "build_result_input"
      && (e.collectedBy == "human" || e.collectedBy == "deterministic_local" || e.collectedBy == "external_harness")
    {
    }
  }

  // What a dimension's status is drawn from, said about citations.
  ghost predicate Drawn(inp: Inputs, requirement: string, facts: Facts, d: Dimension) {
    && Worst(facts.trusted, d)
       == WorstSaid(Says(inp, requirement, d, Fail), Says(inp, requirement, d, Unproven),
                    Says(inp, requirement, d, Partial), Says(inp, requirement, d, Pass))
    && (facts.refsValid <==> AllCitedResolve(inp, requirement))
    && (facts.typesMatch <==> TypesObserved(inp, requirement))
    && (facts.baseProven <==> Established(inp, requirement))
  }

  lemma FactsDrawn(inp: Inputs, requirement: string, facts: Facts, d: Dimension)
    requires FactsMean(inp, requirement, facts)
    ensures Drawn(inp, requirement, facts, d)
  {
    WorstOfTrusted(inp, requirement, facts, d);
    assert facts.refsValid <==> AllCitedResolve(inp, requirement);
    assert facts.baseProven <==> Established(inp, requirement);
  }

  // The status of one dimension, in each of its cases.
  lemma DimensionStatusExactly(inp: Inputs, r: Requirement, facts: Facts, d: Dimension)
    requires FactsMean(inp, r.requirementId, facts)
    ensures var status := QualityOf(inp, r, facts, d);
      && (status == NotApplicable <==> d !in r.dimensions)
      && (d in r.dimensions ==>
            && (status == Fail <==> DimensionFails(inp, r.requirementId, d))
            && (status in {Pass, Partial} <==> DimensionSupported(inp, r.requirementId, d))
            && (status == Partial ==> Says(inp, r.requirementId, d, Partial)))
  {
    FactsDrawn(inp, r.requirementId, facts, d);
    DrawnStatus(inp, r, facts, d);
  }

  lemma DrawnStatus(inp: Inputs, r: Requirement, facts: Facts, d: Dimension)
    requires Drawn(inp, r.requirementId, facts, d)
    ensures var status := QualityOf(inp, r, facts, d);
      && (status == NotApplicable <==> d !in r.dimensions)
      && (d in r.dimensions ==>
            && (status == Fail <==> DimensionFails(inp, r.requirementId, d))
            && (status in {Pass, Partial} <==> DimensionSupported(inp, r.requirementId, d))
            && (status == Partial ==> Says(inp, r.requirementId, d, Partial)))
  {
    SaysIsClaim(inp, r.requirementId, d);
    ImpliedExactly(inp, r, facts, d);
  }

  lemma WorstOfTrusted(inp: Inputs, requirement: string, facts: Facts, d: Dimension)
    requires FactsMean(inp, requirement, facts)
    ensures Worst(facts.trusted, d)
      == WorstSaid(Says(inp, requirement, d, Fail), Says(inp, requirement, d, Unproven),
                   Says(inp, requirement, d, Partial), Says(inp, requirement, d, Pass))
  {
    WorstLiterally(facts.trusted, d);
    TrustedSays(inp, requirement, facts, d, Fail);
    TrustedSays(inp, requirement, facts, d, Unproven);
    TrustedSays(inp, requirement, facts, d, Partial);
    TrustedSays(inp, requirement, facts, d, Pass);
  }

  // A dimension that matters and about which nothing is said.
  lemma ImpliedExactly(inp: Inputs, r: Requirement, facts: Facts, d: Dimension)
    requires Drawn(inp, r.requirementId, facts, d)
    ensures d in r.dimensions && Worst(facts.trusted, d).None? && !(d == ConstraintCompliance && ProhibitedPresent(inp)) ==>
      QualityOf(inp, r, facts, d) == if ImpliedByTheRest(inp, r.requirementId, d) then Pass else Unproven
  {
  }

  lemma SaysIsClaim(inp: Inputs, requirement: string, d: Dimension)
    ensures !Says(inp, requirement, d, NotApplicable)
    ensures SaysNothing(inp, requirement, d) <==>
      && !Says(inp, requirement, d, Fail) && !Says(inp, requirement, d, Unproven)
      && !Says(inp, requirement, d, Partial) && !Says(inp, requirement, d, Pass)
  {
  }

  // The status of an entry, in each of its cases.
  lemma EntryStatusExactly(inp: Inputs, r: Requirement)
    ensures var status := EntryOf(inp, r).status;
      && (status == Contradicted <==> RequirementContradicted(inp, r))
      && (status == Proven <==> RequirementProven(inp, r))
      && (status == PartiallyProven <==> RequirementPartlyProven(inp, r))
      && status != Invalidated
  {
    var facts := FactsOf(inp, r.requirementId);
    var quality := QualitiesOf(inp, r, facts, DIMENSIONS);
    FactsMeanWhatTheySay(inp, r.requirementId);
    ProvenEntryExactly(inp, r);
    RequiredAre(inp, r, facts, quality);
    ContradictedExactly(inp, r, facts);
  }

  // The statuses of the dimensions that matter.
  lemma RequiredAre(inp: Inputs, r: Requirement, facts: Facts, quality: seq<Quality>)
    requires FactsMean(inp, r.requirementId, facts) && quality == QualitiesOf(inp, r, facts, DIMENSIONS)
    ensures var required := set q | q in quality && q.dimension in r.dimensions :: q.status;
      && (Fail in required <==> exists d :: d in r.dimensions && DimensionFails(inp, r.requirementId, d))
      && (Pass in required || Partial in required <==>
            exists d :: d in r.dimensions && DimensionSupported(inp, r.requirementId, d))
  {
    var required := set q | q in quality && q.dimension in r.dimensions :: q.status;
    QualitiesCover(inp, r, facts);
    forall d | d in r.dimensions
      ensures QualityOf(inp, r, facts, d) in required
      ensures QualityOf(inp, r, facts, d) == Fail <==> DimensionFails(inp, r.requirementId, d)
      ensures QualityOf(inp, r, facts, d) in {Pass, Partial} <==> DimensionSupported(inp, r.requirementId, d)
    {
      DimensionStatusExactly(inp, r, facts, d);
      assert Quality(d, QualityOf(inp, r, facts, d)) in quality;
    }
  }

  lemma ContradictedExactly(inp: Inputs, r: Requirement, facts: Facts)
    requires FactsMean(inp, r.requirementId, facts)
    ensures facts.contradicted <==>
      inp.build.status == BuildFailed
      || exists e :: CitedEvidence(inp, r.requirementId, e) && e.evidenceStatus == "contradicted"
  {
  }

  // ----- Verdicts -----

  ghost predicate OutcomePresent(inp: Inputs) {
    exists c :: c in inp.build.checks && c.present
  }

  ghost predicate BlockingUnproven(inp: Inputs) {
    exists r :: r in inp.success.requirements && r.blocking && !RequirementProven(inp, r)
  }

  ghost predicate ContradictedBlocking(inp: Inputs) {
    exists r :: r in inp.success.requirements && r.blocking && RequirementContradicted(inp, r)
  }

  ghost predicate SomeUnproven(inp: Inputs) {
    exists r :: r in inp.success.requirements && !RequirementProven(inp, r)
  }

  // The verdict and its failures, in terms of what the trace shows.
  lemma DecideExactly(drift: bool, prohibited: seq<string>, entries: seq<Entry>, blocking: set<string>)
    ensures var (verdict, failures) := Decide(drift, prohibited, entries, blocking);
      && (verdict == FinalInvalidated <==> drift)
      && (verdict == FinalContradicted <==> !drift && (prohibited != [] || BlockingContradicted(entries, blocking)))
      && (verdict == FinalUnproven <==>
            !drift && prohibited == [] && !BlockingContradicted(entries, blocking) && BlockingFailures(entries, blocking) != [])
      && (verdict == FinalPartiallyProven <==>
            !drift && prohibited == [] && BlockingFailures(entries, blocking) == [] && !AllProven(entries))
      && (forall f :: f in failures <==>
            || f in BlockingFailures(entries, blocking)
            || (drift && f == "failure.relevant-drift")
            || (!drift && prohibited != [] && BlockingFailures(entries, blocking) == [] && f == "failure.prohibited-outcome"))
  {
    ContradictedIsAFailure(entries, blocking);
  }

  lemma EntryListed(inp: Inputs, r: Requirement)
    requires Distinct(Ids(inp.success.requirements, RequirementId)) && r in inp.success.requirements
    ensures EntryOf(inp, r) in TraceOf(inp, inp.success.requirements)
    ensures r.requirementId in BlockingIds(inp.success.requirements) <==> r.blocking
  {
    EntryTraced(inp, inp.success.requirements, r);
    BlockingListed(inp.success.requirements, r);
  }

  lemma EntryTraced(inp: Inputs, requirements: seq<Requirement>, r: Requirement)
    requires r in requirements
    ensures EntryOf(inp, r) in TraceOf(inp, requirements)
  {
    var i :| 0 <= i < |requirements| && requirements[i] == r;
    assert TraceOf(inp, requirements)[i] == EntryOf(inp, r);
  }

  lemma BlockingListed(requirements: seq<Requirement>, r: Requirement)
    requires Distinct(Ids(requirements, RequirementId)) && r in requirements
    ensures r.requirementId in BlockingIds(requirements) <==> r.blocking
  {
    if q :| q in requirements && q.blocking && q.requirementId == r.requirementId {
      var i :| 0 <= i < |requirements| && requirements[i] == r;
      var j :| 0 <= j < |requirements| && requirements[j] == q;
      assert Ids(requirements, RequirementId)[i] == RequirementId(r) && Ids(requirements, RequirementId)[j] == RequirementId(q);
    }
  }

  lemma ListedEntry(inp: Inputs, e: Entry) returns (r: Requirement)
    requires e in TraceOf(inp, inp.success.requirements)
    ensures r in inp.success.requirements && e == EntryOf(inp, r) && e.requirementId == r.requirementId
  {
    var trace := TraceOf(inp, inp.success.requirements);
    var i :| 0 <= i < |trace| && trace[i] == e;
    r := inp.success.requirements[i];
  }

  lemma TraceFailures(inp: Inputs)
    requires Distinct(Ids(inp.success.requirements, RequirementId))
    ensures forall f :: f in BlockingFailures(TraceOf(inp, inp.success.requirements), BlockingIds(inp.success.requirements)) <==>
      exists r :: r in inp.success.requirements && r.blocking && !RequirementProven(inp, r) && f == "failure." + r.requirementId
  {
    var entries, blocking := TraceOf(inp, inp.success.requirements), BlockingIds(inp.success.requirements);
    FailuresAre(entries, blocking);
    forall f | f in BlockingFailures(entries, blocking)
      ensures exists r :: r in inp.success.requirements && r.blocking && !RequirementProven(inp, r) && f == "failure." + r.requirementId
    {
      var e :| e in entries && e.requirementId in blocking && e.status != Proven && f == FailureId(e.requirementId);
      var r := ListedEntry(inp, e);
      EntryListed(inp, r);
      ProvenEntryExactly(inp, r);
    }
    forall r | r in inp.success.requirements && r.blocking && !RequirementProven(inp, r)
      ensures "failure." + r.requirementId in BlockingFailures(entries, blocking)
    {
      EntryListed(inp, r);
      ProvenEntryExactly(inp, r);
      assert FailureId(EntryOf(inp, r).requirementId) in BlockingFailures(entries, blocking);
    }
  }

  lemma TraceContradicts(inp: Inputs)
    requires Distinct(Ids(inp.success.requirements, RequirementId))
    ensures BlockingContradicted(TraceOf(inp, inp.success.requirements), BlockingIds(inp.success.requirements)) <==>
      ContradictedBlocking(inp)
  {
    var entries, blocking := TraceOf(inp, inp.success.requirements), BlockingIds(inp.success.requirements);
    if e :| e in entries && e.requirementId in blocking && e.status == Contradicted {
      var r := ListedEntry(inp, e);
      EntryListed(inp, r);
      EntryStatusExactly(inp, r);
    }
    if r :| r in inp.success.requirements && r.blocking && RequirementContradicted(inp, r) {
      EntryListed(inp, r);
      EntryStatusExactly(inp, r);
      assert EntryOf(inp, r).requirementId in blocking;
    }
  }

  lemma {:induction false} PresentAre(checks: seq<Check>)
    ensures forall o :: o in PresentOutcomes(checks) <==> exists c :: c in checks && c.present && c.outcomeId == o
  {
    if checks != [] {
      var n := |checks| - 1;
      PresentAre(checks[..n]);
      assert checks == checks[..n] + [checks[n]];
    }
  }

  // Every verdict, and what blocks: drift first, then contradiction, then a
  // blocking requirement that is not proven, then any other.
  lemma VerdictExactly(inp: Inputs)
    requires EvaluateSpec(inp).Evaluated?
    ensures var e := EvaluateSpec(inp).evaluation;
      && (e.verdict == FinalInvalidated <==> DriftBlocks(inp))
      && (e.verdict == FinalContradicted <==> !DriftBlocks(inp) && (OutcomePresent(inp) || ContradictedBlocking(inp)))
      && (e.verdict == FinalUnproven <==>
            !DriftBlocks(inp) && !OutcomePresent(inp) && !ContradictedBlocking(inp) && BlockingUnproven(inp))
      && (e.verdict == FinalPartiallyProven <==>
            !DriftBlocks(inp) && !OutcomePresent(inp) && !BlockingUnproven(inp) && SomeUnproven(inp))
      && (e.verdict == FinalProven <==> !DriftBlocks(inp) && !OutcomePresent(inp) && !SomeUnproven(inp))
    ensures EvaluateSpec(inp).evaluation.blocking <==> DriftBlocks(inp) || OutcomePresent(inp) || BlockingUnproven(inp)
  {
    var entries, blocking := TraceOf(inp, inp.success.requirements), BlockingIds(inp.success.requirements);
    var prohibited := PresentOutcomes(inp.build.checks);
    DecideExactly(DriftBlocks(inp), prohibited, entries, blocking);
    PresentExactly(inp.build.checks);
    TraceProvenExactly(inp);
    TraceContradicts(inp);
    TraceFailures(inp);
    FailuresShow(inp, BlockingFailures(entries, blocking));
    ContradictedIsUnproven(inp);
  }

  lemma FailuresShow(inp: Inputs, failures: seq<string>)
    requires forall f :: f in failures <==>
      exists r :: r in inp.success.requirements && r.blocking && !RequirementProven(inp, r) && f == "failure." + r.requirementId
    ensures failures != [] <==> BlockingUnproven(inp)
  {
    assert failures != [] ==> failures[0] in failures;
    if r :| r in inp.success.requirements && r.blocking && !RequirementProven(inp, r) {
      assert "failure." + r.requirementId in failures;
    }
  }

  // What is contradicted is not proven.
  lemma ContradictedIsUnproven(inp: Inputs)
    ensures ContradictedBlocking(inp) ==> BlockingUnproven(inp)
  {
    if r :| r in inp.success.requirements && r.blocking && RequirementContradicted(inp, r) {
      EntryStatusExactly(inp, r);
    }
  }

  // The failures and the prohibited outcomes an evaluation names.
  lemma NamedExactly(inp: Inputs)
    requires EvaluateSpec(inp).Evaluated?
    ensures forall f :: f in EvaluateSpec(inp).evaluation.failures <==>
      || (exists r :: r in inp.success.requirements && r.blocking && !RequirementProven(inp, r) && f == "failure." + r.requirementId)
      || (DriftBlocks(inp) && f == "failure.relevant-drift")
      || (!DriftBlocks(inp) && OutcomePresent(inp) && !BlockingUnproven(inp) && f == "failure.prohibited-outcome")
    ensures forall o :: o in EvaluateSpec(inp).evaluation.prohibited <==>
      exists c :: c in inp.build.checks && c.present && c.outcomeId == o
  {
    var entries, blocking := TraceOf(inp, inp.success.requirements), BlockingIds(inp.success.requirements);
    EvaluationNames(inp);
    DecideExactly(DriftBlocks(inp), PresentOutcomes(inp.build.checks), entries, blocking);
    PresentExactly(inp.build.checks);
    PresentAre(inp.build.checks);
    TraceFailures(inp);
    FailuresNamed(inp, Decide(DriftBlocks(inp), PresentOutcomes(inp.build.checks), entries, blocking).1,
                  BlockingFailures(entries, blocking), DriftBlocks(inp), OutcomePresent(inp));
  }

  lemma EvaluationNames(inp: Inputs)
    requires EvaluateSpec(inp).Evaluated?
    ensures Distinct(Ids(inp.success.requirements, RequirementId))
    ensures EvaluateSpec(inp).evaluation.prohibited == PresentOutcomes(inp.build.checks)
    ensures EvaluateSpec(inp).evaluation.failures
      == Decide(DriftBlocks(inp), PresentOutcomes(inp.build.checks), TraceOf(inp, inp.success.requirements),
                BlockingIds(inp.success.requirements)).1
  {
  }

  lemma FailuresNamed(inp: Inputs, failures: seq<string>, ofBlocking: seq<string>, drift: bool, present: bool)
    requires forall f :: f in failures <==>
      || f in ofBlocking
      || (drift && f == "failure.relevant-drift")
      || (!drift && present && ofBlocking == [] && f == "failure.prohibited-outcome")
    requires forall f :: f in ofBlocking <==>
      exists r :: r in inp.success.requirements && r.blocking && !RequirementProven(inp, r) && f == "failure." + r.requirementId
    ensures forall f :: f in failures <==>
      || (exists r :: r in inp.success.requirements && r.blocking && !RequirementProven(inp, r) && f == "failure." + r.requirementId)
      || (drift && f == "failure.relevant-drift")
      || (!drift && present && !BlockingUnproven(inp) && f == "failure.prohibited-outcome")
  {
    FailuresShow(inp, ofBlocking);
  }

  // The trace that is handed on: an entry per requirement, in order, with its
  // status, or invalidated throughout if drift blocks.
  lemma TraceExactly(inp: Inputs, i: nat)
    requires EvaluateSpec(inp).Evaluated? && i < |inp.success.requirements|
    ensures var (trace, r) := (EvaluateSpec(inp).trace, inp.success.requirements[i]);
      && |trace| == |inp.success.requirements| && trace[i].requirementId == r.requirementId
      && (trace[i].status == Invalidated <==> DriftBlocks(inp))
      && (trace[i].status == Proven <==> !DriftBlocks(inp) && RequirementProven(inp, r))
      && (trace[i].status == Contradicted <==> !DriftBlocks(inp) && RequirementContradicted(inp, r))
      && (trace[i].status == PartiallyProven <==> !DriftBlocks(inp) && RequirementPartlyProven(inp, r))
  {
    EntryStatusExactly(inp, inp.success.requirements[i]);
  }

  // ----- What is looked up -----

  // With distinct ids, looking up is searching the lists.
  lemma LookedUp(inp: Inputs, ref: Ref)
    requires Distinct(Ids(inp.evidence, EvidenceId))
    ensures Resolves(EvidenceMap(inp), ref) <==> exists e :: e in inp.evidence && e.evidenceId == ref.evidenceId && e.hash == ref.hash
    ensures ResolvesTrusted(EvidenceMap(inp), ref) <==> ByCounting(inp.evidence, ref)
  {
    ByIdLooksUp(inp.evidence, EvidenceId);
    forall e | e in inp.evidence && e.evidenceId == ref.evidenceId
      ensures ref.evidenceId in EvidenceMap(inp) && EvidenceMap(inp)[ref.evidenceId] == e
    {
      LooksUpItself(inp.evidence, EvidenceId, e);
    }
  }

  // Evidence that counts: verified, collected by a party that may, and handed
  // in with the build.
  ghost predicate Counts(e: Evidence) {
    && e.evidenceStatus == "verified" && e.visibility == "build_result_input"
    && (e.collectedBy == "human" || e.collectedBy == "deterministic_local" || e.collectedBy == "external_harness")
  }

  ghost predicate ByCounting(evidence: seq<Evidence>, ref: Ref) {
    exists e :: e in evidence && e.evidenceId == ref.evidenceId && e.hash == ref.hash && Counts(e)
  }

  // Every prohibited outcome is checked, no other, and only by evidence that
  // counts.
  lemma AbsenceExactly(inp: Inputs)
    requires Distinct(Ids(inp.evidence, EvidenceId))
    ensures AbsenceEvidenced(inp) <==>
      && (forall o :: o in inp.success.outcomeIds ==> exists c :: c in inp.build.checks && c.outcomeId == o)
      && (forall c :: c in inp.build.checks ==> c.outcomeId in inp.success.outcomeIds)
      && (forall c, ref :: c in inp.build.checks && ref in c.refs ==> ByCounting(inp.evidence, ref))
  {
    forall ref ensures ResolvesTrusted(EvidenceMap(inp), ref) <==> ByCounting(inp.evidence, ref) {
      LookedUp(inp, ref);
    }
    OutcomesMatch(inp.success.outcomeIds, inp.build.checks);
  }

  lemma OutcomesMatch(ids: seq<string>, checks: seq<Check>)
    ensures (set o | o in ids) == (set c | c in checks :: c.outcomeId) <==>
      && (forall o :: o in ids ==> exists c :: c in checks && c.outcomeId == o)
      && (forall c :: c in checks ==> c.outcomeId in ids)
  {
    var named, checked := set o | o in ids, set c | c in checks :: c.outcomeId;
    forall o ensures (o in named <==> o in ids) && (o in checked <==> exists c :: c in checks && c.outcomeId == o) {
    }
  }

  // A requirement's validations pass: there is one, and each has a result that
  // passed.
  lemma PassExactly(inp: Inputs, requirement: string)
    requires Distinct(Ids(inp.build.results, ResultId))
    ensures ValidationsPass(inp, requirement) <==>
      && (exists v :: v in inp.validations && requirement in v.requirementIds)
      && forall v :: v in inp.validations && requirement in v.requirementIds ==>
           exists x :: x in inp.build.results && x.validationId == v.validationId && x.passed
  {
    ByIdLooksUp(inp.build.results, ResultId);
    forall x | x in inp.build.results ensures x.validationId in ResultMap(inp) && ResultMap(inp)[x.validationId] == x {
      LooksUpItself(inp.build.results, ResultId, x);
    }
  }

  // ----- Which inputs are rejected -----

  ghost predicate TwoAlike(ids: seq<string>) {
    exists i, j :: 0 <= i < j < |ids| && ids[i] == ids[j]
  }

  // A list that must hold something is empty.
  ghost predicate Lacking(inp: Inputs) {
    || inp.success.requirements == [] || inp.success.proofs == [] || inp.validations == []
    || (exists r :: r in inp.success.requirements && r.dimensions == {})
    || (exists p :: p in inp.success.proofs && p.requirementIds == [])
    || (exists v :: v in inp.validations && v.requirementIds == [])
    || (exists o :: o in inp.build.outputs && (o.requirementIds == [] || o.refs == []))
  }

  // An id that the result will carry is no identifier.
  ghost predicate Misnamed(inp: Inputs) {
    || (exists r :: r in inp.success.requirements && !Identifier(r.requirementId))
    || (exists o :: o in inp.success.outcomeIds && !Identifier(o))
    || !Identifier(inp.build.buildId) || !Identifier(inp.current.baselineId)
  }

  // An id is given twice.
  ghost predicate Repetitive(inp: Inputs) {
    || TwoAlike(Ids(inp.success.requirements, RequirementId)) || TwoAlike(inp.success.outcomeIds)
    || TwoAlike(Ids(inp.validations, ValidationId)) || TwoAlike(Ids(inp.build.outputs, OutputId))
    || TwoAlike(Ids(inp.build.results, ResultId)) || TwoAlike(Ids(inp.build.checks, OutcomeId))
    || TwoAlike(Ids(inp.evidence, EvidenceId))
    || Drift.Repeats(inp.locked) || Drift.Repeats(inp.current)
  }

  ghost predicate Asked(inp: Inputs, id: string) {
    exists r :: r in inp.success.requirements && r.requirementId == id
  }

  ghost predicate Planned(inp: Inputs, id: string) {
    exists v :: v in inp.validations && v.validationId == id
  }

  // An output, a result or a check is about nothing that was asked for.
  ghost predicate Unasked(inp: Inputs) {
    || (exists o, id :: o in inp.build.outputs && id in o.requirementIds && !Asked(inp, id))
    || (exists x :: x in inp.build.results && !Planned(inp, x.validationId))
    || (exists c :: c in inp.build.checks && c.outcomeId !in inp.success.outcomeIds)
  }

  // Evaluation rejects its inputs exactly in these cases.
  lemma RejectedExactly(inp: Inputs)
    ensures EvaluateSpec(inp).Rejected? <==> Lacking(inp) || Misnamed(inp) || Repetitive(inp) || Unasked(inp)
  {
    IdsAdmittedExactly(inp);
    RepetitiveExactly(inp);
    UnaskedExactly(inp);
    RejectedMeans(inp);
  }

  lemma RejectedMeans(inp: Inputs)
    ensures EvaluateSpec(inp).Rejected? <==> !Admitted(inp)
    ensures Admitted(inp) <==> IdsAdmitted(inp) && AllDistinct(inp) && AllAsked(inp)
  {
  }

  lemma IdListed<T>(items: seq<T>, id: T -> string, x: string)
    ensures x in Ids(items, id) <==> exists y :: y in items && id(y) == x
  {
    var ids := Ids(items, id);
    assert forall i :: 0 <= i < |items| ==> ids[i] == id(items[i]);
    if y :| y in items && id(y) == x {
      var i :| 0 <= i < |items| && items[i] == y;
      assert ids[i] == x;
    }
  }

  lemma IdsAdmittedExactly(inp: Inputs)
    ensures IdsAdmitted(inp) <==> !Lacking(inp) && !Misnamed(inp)
  {
    forall x ensures x in Ids(inp.success.requirements, RequirementId) <==> exists r :: r in inp.success.requirements && r.requirementId == x {
      IdListed(inp.success.requirements, RequirementId, x);
    }
  }

  ghost predicate AllDistinct(inp: Inputs) {
    && Distinct(Ids(inp.success.requirements, RequirementId)) && Distinct(inp.success.outcomeIds)
    && Distinct(Ids(inp.validations, ValidationId)) && Distinct(Ids(inp.build.outputs, OutputId))
    && Distinct(Ids(inp.build.results, ResultId)) && Distinct(Ids(inp.build.checks, OutcomeId))
    && Distinct(Ids(inp.evidence, EvidenceId))
    && Drift.BaselineValid(inp.locked) && Drift.BaselineValid(inp.current)
  }

  lemma RepetitiveExactly(inp: Inputs)
    ensures Repetitive(inp) <==> !AllDistinct(inp)
  {
    Drift.RepeatsExactly(inp.locked);
    Drift.RepeatsExactly(inp.current);
  }

  ghost predicate AllAsked(inp: Inputs) {
    && (forall o, r :: o in inp.build.outputs && r in o.requirementIds ==> r in Ids(inp.success.requirements, RequirementId))
    && (forall v :: v in inp.build.results ==> v.validationId in Ids(inp.validations, ValidationId))
    && (forall c :: c in inp.build.checks ==> c.outcomeId in inp.success.outcomeIds)
  }

  lemma UnaskedExactly(inp: Inputs)
    ensures Unasked(inp) <==> !AllAsked(inp)
  {
    forall x ensures x in Ids(inp.success.requirements, RequirementId) <==> Asked(inp, x) {
      IdListed(inp.success.requirements, RequirementId, x);
    }
    forall x ensures x in Ids(inp.validations, ValidationId) <==> Planned(inp, x) {
      IdListed(inp.validations, ValidationId, x);
    }
  }
}
