/**
  The local semantic rules of plan analysis and the substantiation of what
  they, or an external reviewer, propose.
*/
module SemanticRules {
  import opened Dictionary
  import opened EvidenceChecks
  import opened FindingIds
  import opened Identifiers
  import opened Ordering
  import opened Readiness
  import opened Text

  // A rule that fires: on an assumption the plan calls unsubstantiated, on a
  // validation outside the environment its proof requires, or on one without
  // the evidence, the type of proof or the executor its proof requires.
  datatype Hit =
    | Unsubstantiated(assumption: nat)
    | OtherEnvironment(validation: nat)
    | OtherEvidence(validation: nat)

  function ProofOf(success: Success, v: Validation): Option<Proof> {
    Lookup(ById(success.proofs, ProofId), v.proofId)
  }

  predicate EnvironmentDiffers(proof: Boundary, v: Boundary) {
    Given(proof.environment) && v.environment != proof.environment
  }

  predicate EvidenceDiffers(proof: Boundary, v: Boundary) {
    !(proof.types <= v.types) || v.proofType != proof.proofType || v.executor != proof.executor
  }

  predicate Fires(req: Request, hit: Hit) {
    match hit
    case Unsubstantiated(i) => i < |req.plan.assumptions| && req.plan.assumptions[i].unsubstantiated
    case OtherEnvironment(i) =>
      i < |req.plan.validations| &&
      var v := req.plan.validations[i];
      var proof := ProofOf(req.success, v);
      proof.Some? && EnvironmentDiffers(proof.value.boundary, v.boundary)
    case OtherEvidence(i) =>
      i < |req.plan.validations| &&
      var v := req.plan.validations[i];
      var proof := ProofOf(req.success, v);
      proof.Some? && EvidenceDiffers(proof.value.boundary, v.boundary)
  }

  function HitPrefix(hit: Hit): string {
    match hit
    case Unsubstantiated(_) => "semantic.assumption."
    case OtherEnvironment(_) => "semantic.environment."
    case OtherEvidence(_) => "semantic.evidence."
  }

  // What a hit is about.
  function Subject(plan: Plan, hit: Hit): string {
    match hit
    case Unsubstantiated(i) => NameAt(plan.assumptions, AssumptionId, i)
    case OtherEnvironment(i) => NameAt(plan.validations, ValidationId, i)
    case OtherEvidence(i) => NameAt(plan.validations, ValidationId, i)
  }

  function HitId(plan: Plan, hit: Hit): string {
    HitPrefix(hit) + Subject(plan, hit)
  }

  function HitGap(hit: Hit): Gap {
    match hit
    case Unsubstantiated(_) => UnsupportedAssumption
    case OtherEnvironment(_) => OutputEnvironmentGap
    case OtherEvidence(_) => ValidationEvidenceGap
  }

  // ----- Candidates of the rules -----

  function RefOf(e: EvidenceItem): EvidenceRef {
    EvidenceRef(e.evidenceId, e.hash)
  }

  function FirstSpeaking(items: seq<EvidenceItem>): Option<EvidenceItem> {
    if items == [] then None else if items[0].speaks then Some(items[0]) else FirstSpeaking(items[1..])
  }

  function FirstNamed(items: seq<EvidenceItem>, id: string): Option<EvidenceItem> {
    if items == [] then None else if items[0].evidenceId == id then Some(items[0]) else FirstNamed(items[1..], id)
  }

  // The evidence a finding cites: the preferred item, else the first one. With
  // no items at all it is the repository evidence, which is none of them.
  function RequestRef(req: Request, preferred: Option<string>): EvidenceRef {
    var named := if preferred.Some? then FirstNamed(req.evidence, preferred.value) else None;
    if named.Some? then RefOf(named.value)
    else if req.evidence != [] then RefOf(req.evidence[0])
    else req.artifacts.repository
  }

  function CitedRefs(req: Request, hit: Hit): seq<EvidenceRef> {
    match hit
    case Unsubstantiated(i) =>
      if i < |req.plan.assumptions| && req.plan.assumptions[i].refs != [] then req.plan.assumptions[i].refs
      else [RequestRef(req, None)]
    case OtherEnvironment(_) =>
      var matching := FirstSpeaking(req.evidence);
      [RequestRef(req, if matching.Some? then Some(matching.value.evidenceId) else None)]
    case OtherEvidence(_) => [RequestRef(req, None)]
  }

  function CitedRequirements(plan: Plan, hit: Hit): seq<string> {
    if hit.Unsubstantiated? || hit.validation >= |plan.validations| then []
    else plan.validations[hit.validation].requirementIds
  }

  // The location of an environment finding is a field of the validation that
  // is missing when the validation states no environment.
  predicate LocationExists(plan: Plan, hit: Hit) {
    hit.OtherEnvironment? && hit.validation < |plan.validations| ==> plan.validations[hit.validation].boundary.environment.Some?
  }

  // What a rule proposes. Textual support is not asked of the local rules.
  function Proposal(req: Request, hit: Hit): Candidate {
    var id, requirementIds := HitId(req.plan, hit), CitedRequirements(req.plan, hit);
    Candidate(id, HitGap(hit), Identifier(id) && AllIdentifiers(requirementIds), true, true, requirementIds,
              true, LocationExists(req.plan, hit), CitedRefs(req, hit), false)
  }

  function AssumptionHits(req: Request, n: nat): seq<Hit> {
    if n == 0 then []
    else AssumptionHits(req, n - 1) + (if Fires(req, Unsubstantiated(n - 1)) then [Unsubstantiated(n - 1)] else [])
  }

  // Which of the two rules on validations fires on each of them.
  datatype Flags = Flags(environment: bool, evidence: bool)

  function FlagsOf(req: Request): seq<Flags> {
    seq(|req.plan.validations|, i requires 0 <= i < |req.plan.validations| =>
      Flags(Fires(req, OtherEnvironment(i)), Fires(req, OtherEvidence(i))))
  }

  function HitsOn(i: nat, flags: Flags): seq<Hit> {
    (if flags.environment then [OtherEnvironment(i)] else []) + (if flags.evidence then [OtherEvidence(i)] else [])
  }

  function ValidationHits(flags: seq<Flags>): seq<Hit> {
    if flags == [] then []
    else
      var n := |flags| - 1;
      ValidationHits(flags[..n]) + HitsOn(n, flags[n])
  }

  function Hits(req: Request): seq<Hit> {
    AssumptionHits(req, |req.plan.assumptions|) + ValidationHits(FlagsOf(req))
  }

  function Proposals(req: Request, hits: seq<Hit>): seq<Candidate> {
    seq(|hits|, i requires 0 <= i < |hits| => Proposal(req, hits[i]))
  }

  method ProbeValidation(req: Request, i: nat) returns (hits: seq<Hit>)
    requires i < |req.plan.validations|
    ensures hits == HitsOn(i, FlagsOf(req)[i])
  {
    hits := [];
    var v := req.plan.validations[i];
    var proof := ProofOf(req.success, v);
    if proof.Some? {
      if EnvironmentDiffers(proof.value.boundary, v.boundary) {
        hits := hits + [OtherEnvironment(i)];
      }
      if EvidenceDiffers(proof.value.boundary, v.boundary) {
        hits := hits + [OtherEvidence(i)];
      }
    }
  }

  // Everything the rules propose.
  method Propose(req: Request) returns (candidates: seq<Candidate>)
    ensures candidates == Proposals(req, Hits(req))
  {
    var plan := req.plan;
    var found: seq<Hit> := [];
    for i := 0 to |plan.assumptions|
      invariant found == AssumptionHits(req, i)
    {
      if plan.assumptions[i].unsubstantiated {
        found := found + [Unsubstantiated(i)];
      }
    }
    ghost var ofAssumptions, flags := found, FlagsOf(req);
    for i := 0 to |plan.validations|
      invariant found == ofAssumptions + ValidationHits(flags[..i])
    {
      assert flags[..i + 1][..i] == flags[..i];
      var hits := ProbeValidation(req, i);
      found := found + hits;
    }
    assert flags[..|flags|] == flags;
    candidates := Proposals(req, found);
  }

  // ----- Substantiation -----

  datatype Reason =
    | Invalid | NotSemantic | Vague | OutsideDefinition | Unresolved | AbsentEvidence | NoEvidence | Unsupported

  // What substantiation asks of a candidate; `locationsSuffice` frees the
  // local rules from textual support.
  predicate Substantiated(req: Request, c: Candidate, locationsSuffice: bool) {
    && c.valid && c.semantic && c.specific
    && (forall r | r in c.requirementIds :: r in Names(req.success.requirements))
    && c.resolves && c.refs != [] && (forall ref | ref in c.refs :: Present(req.evidence, ref))
    && (c.supported || (locationsSuffice && c.located))
  }

  // Some of the ids are of no requirement.
  predicate LeavesDefinition(requirements: seq<Requirement>, ids: seq<string>) {
    exists r | r in ids :: forall q | q in requirements :: q.requirementId != r
  }

  lemma LeavesExactly(requirements: seq<Requirement>, ids: seq<string>)
    ensures LeavesDefinition(requirements, ids) <==> exists r :: r in ids && r !in Names(requirements)
  {
    forall r ensures r in Names(requirements) <==> exists q :: q in requirements && q.requirementId == r {
    }
  }

  // What speaks against a candidate.
  predicate Objectionable(req: Request, c: Candidate, locationsSuffice: bool, reason: Reason) {
    match reason
    case Invalid => !c.valid
    case NotSemantic => !c.semantic
    case Vague => !c.specific
    case OutsideDefinition => LeavesDefinition(req.success.requirements, c.requirementIds)
    case Unresolved => !c.resolves
    case AbsentEvidence => exists ref | ref in c.refs :: !Present(req.evidence, ref)
    case NoEvidence => c.refs == []
    case Unsupported => c.refs != [] && !c.supported && (!locationsSuffice || !c.located)
  }

  // A candidate is substantiated exactly when nothing speaks against it.
  lemma SubstantiatedExactly(req: Request, c: Candidate, locationsSuffice: bool)
    ensures Substantiated(req, c, locationsSuffice) <==> forall x :: !Objectionable(req, c, locationsSuffice, x)
  {
    LeavesExactly(req.success.requirements, c.requirementIds);
    if forall x :: !Objectionable(req, c, locationsSuffice, x) {
      assert !Objectionable(req, c, locationsSuffice, Invalid) && !Objectionable(req, c, locationsSuffice, NotSemantic);
      assert !Objectionable(req, c, locationsSuffice, Vague) && !Objectionable(req, c, locationsSuffice, OutsideDefinition);
      assert !Objectionable(req, c, locationsSuffice, Unresolved) && !Objectionable(req, c, locationsSuffice, AbsentEvidence);
      assert !Objectionable(req, c, locationsSuffice, NoEvidence) && !Objectionable(req, c, locationsSuffice, Unsupported);
    }
  }

  method Reasons(req: Request, c: Candidate, locationsSuffice: bool) returns (reasons: seq<Reason>)
    ensures forall x :: x in reasons <==> Objectionable(req, c, locationsSuffice, x)
    ensures reasons == [] <==> Substantiated(req, c, locationsSuffice)
  {
    reasons := [];
    if !c.valid {
      reasons := reasons + [Invalid];
    }
    if !c.semantic {
      reasons := reasons + [NotSemantic];
    }
    if !c.specific {
      reasons := reasons + [Vague];
    }
    if exists r | r in c.requirementIds :: r !in Names(req.success.requirements) {
      reasons := reasons + [OutsideDefinition];
    }
    LeavesExactly(req.success.requirements, c.requirementIds);
    var ofEvidence := EvidenceReasons(req, c, locationsSuffice);
    reasons := reasons + ofEvidence;
    SubstantiatedExactly(req, c, locationsSuffice);
    assert reasons != [] ==> reasons[0] in reasons;
  }

  method EvidenceReasons(req: Request, c: Candidate, locationsSuffice: bool) returns (reasons: seq<Reason>)
    ensures forall x :: x in reasons <==>
      Objectionable(req, c, locationsSuffice, x) && (x.Unresolved? || x.AbsentEvidence? || x.NoEvidence? || x.Unsupported?)
  {
    reasons := [];
    if !c.resolves {
      reasons := reasons + [Unresolved];
    }
    if exists ref | ref in c.refs :: !Present(req.evidence, ref) {
      reasons := reasons + [AbsentEvidence];
    }
    if c.refs == [] {
      reasons := reasons + [NoEvidence];
    } else if !c.supported && !(locationsSuffice && c.located) {
      reasons := reasons + [Unsupported];
    }
  }

  function Accepted(req: Request, candidates: seq<Candidate>, locationsSuffice: bool): seq<Candidate> {
    if candidates == [] then []
    else
      var n := |candidates| - 1;
      Accepted(req, candidates[..n], locationsSuffice)
      + (if Substantiated(req, candidates[n], locationsSuffice) then [candidates[n]] else [])
  }

  function Rejected(req: Request, candidates: seq<Candidate>, locationsSuffice: bool): seq<string> {
    if candidates == [] then []
    else
      var n := |candidates| - 1;
      Rejected(req, candidates[..n], locationsSuffice)
      + (if Substantiated(req, candidates[n], locationsSuffice) then [] else [candidates[n].id])
  }

  method Substantiate(req: Request, candidates: seq<Candidate>, locationsSuffice: bool)
    returns (accepted: seq<Candidate>, rejected: seq<string>)
    ensures accepted == Accepted(req, candidates, locationsSuffice)
    ensures rejected == Rejected(req, candidates, locationsSuffice)
  {
    accepted, rejected := [], [];
    for i := 0 to |candidates|
      invariant accepted == Accepted(req, candidates[..i], locationsSuffice)
      invariant rejected == Rejected(req, candidates[..i], locationsSuffice)
    {
      assert candidates[..i + 1][..i] == candidates[..i];
      var reasons := Reasons(req, candidates[i], locationsSuffice);
      if reasons != [] {
        rejected := rejected + [candidates[i].id];
      } else {
        accepted := accepted + [candidates[i]];
      }
    }
    assert candidates[..|candidates|] == candidates;
  }

  // ----- What the rules find -----

  lemma {:induction false} AssumptionHitsAre(req: Request, n: nat)
    requires n <= |req.plan.assumptions|
    ensures forall h :: h in AssumptionHits(req, n) <==> h.Unsubstantiated? && h.assumption < n && Fires(req, h)
    ensures Distinct(AssumptionHits(req, n))
  {
    if n > 0 {
      AssumptionHitsAre(req, n - 1);
    }
  }

  predicate Flagged(flags: seq<Flags>, h: Hit) {
    match h
    case Unsubstantiated(_) => false
    case OtherEnvironment(i) => i < |flags| && flags[i].environment
    case OtherEvidence(i) => i < |flags| && flags[i].evidence
  }

  lemma {:induction false} ValidationHitsAre(flags: seq<Flags>)
    ensures forall h :: h in ValidationHits(flags) <==> Flagged(flags, h)
    ensures Distinct(ValidationHits(flags))
  {
    if flags != [] {
      var n := |flags| - 1;
      ValidationHitsAre(flags[..n]);
      DistinctAppend(ValidationHits(flags[..n]), HitsOn(n, flags[n]));
    }
  }

  lemma FlaggedExactly(req: Request, h: Hit)
    requires !h.Unsubstantiated?
    ensures Flagged(FlagsOf(req), h) <==> Fires(req, h)
  {
  }

  // The rules propose exactly what fires, each hit once.
  lemma HitsAre(req: Request)
    ensures forall h :: h in Hits(req) <==> Fires(req, h)
    ensures Distinct(Hits(req))
  {
    AssumptionHitsAre(req, |req.plan.assumptions|);
    ValidationHitsAre(FlagsOf(req));
    forall h: Hit | !h.Unsubstantiated? ensures Flagged(FlagsOf(req), h) <==> Fires(req, h) {
      FlaggedExactly(req, h);
    }
    DistinctAppend(AssumptionHits(req, |req.plan.assumptions|), ValidationHits(FlagsOf(req)));
  }

  lemma HitIdTaken(plan: Plan, hit: Hit)
    ensures "semantic." <= HitId(plan, hit)
    ensures At(HitId(plan, hit), 9) == (if hit.Unsubstantiated? then 'a' else 'e')
    ensures At(HitId(plan, hit), 10) == (if hit.Unsubstantiated? then 's' else if hit.OtherEnvironment? then 'n' else 'v')
  {
    var id, prefix := HitId(plan, hit), HitPrefix(hit);
    assert forall i: nat :: i < |prefix| ==> id[i] == prefix[i];
    assert id[..9] == prefix[..9] == "semantic.";
  }

  // Different hits are reported under different ids.
  lemma HitIdInjective(req: Request, g: Hit, h: Hit)
    requires PlanValid(req.plan) && Fires(req, g) && Fires(req, h) && HitId(req.plan, g) == HitId(req.plan, h)
    ensures g == h
  {
    HitIdTaken(req.plan, g);
    HitIdTaken(req.plan, h);
    SameSplit(HitPrefix(g), Subject(req.plan, g), HitPrefix(h), Subject(req.plan, h));
    if g.Unsubstantiated? {
      SameName(req.plan.assumptions, AssumptionId, g.assumption, h.assumption);
    } else {
      SameName(req.plan.validations, ValidationId, g.validation, h.validation);
    }
  }

  lemma SubjectIdentifier(req: Request, hit: Hit)
    requires AdmittedIds(req) && Fires(req, hit)
    ensures Identifier(Subject(req.plan, hit))
    ensures Identifier(HitId(req.plan, hit)) <==> !TooLong(HitPrefix(hit), Subject(req.plan, hit))
  {
    if hit.Unsubstantiated? {
      assert req.plan.assumptions[hit.assumption] in req.plan.assumptions;
    } else {
      assert req.plan.validations[hit.validation] in req.plan.validations;
    }
    PrefixOpening(hit);
    DerivedExactly(HitPrefix(hit), Subject(req.plan, hit));
  }

  lemma PrefixOpening(hit: Hit)
    ensures Opening(HitPrefix(hit))
  {
  }

  // ----- Which of it is substantiated -----

  lemma {:induction false} FirstNamedIn(items: seq<EvidenceItem>, id: string)
    ensures FirstNamed(items, id).Some? ==> FirstNamed(items, id).value in items
  {
    if items != [] {
      FirstNamedIn(items[1..], id);
    }
  }

  lemma ItemPresent(items: seq<EvidenceItem>, e: EvidenceItem)
    requires e in items && Distinct(Ids(items, EvidenceId))
    ensures Present(items, RefOf(e))
  {
    LooksUpItself(items, EvidenceId, e);
  }

  // What a rule cites of its own is there exactly when there is any evidence.
  lemma RequestRefPresent(req: Request, preferred: Option<string>)
    requires Distinct(Ids(req.evidence, EvidenceId))
    ensures Present(req.evidence, RequestRef(req, preferred)) <==> req.evidence != []
  {
    if req.evidence != [] {
      if preferred.Some? {
        FirstNamedIn(req.evidence, preferred.value);
      }
      var named := if preferred.Some? then FirstNamed(req.evidence, preferred.value) else None;
      ItemPresent(req.evidence, if named.Some? then named.value else req.evidence[0]);
    }
  }

  // The evidence and reference checks find nothing.
  ghost predicate Faultless(req: Request) {
    forall x :: !Faulty(req, x)
  }

  lemma FaultlessEvidence(req: Request)
    requires Faultless(req)
    ensures Distinct(Ids(req.evidence, EvidenceId))
    ensures forall ref :: ref in PlanEvidence(req.plan) ==> Present(req.evidence, ref)
  {
    var ids := Ids(req.evidence, EvidenceId);
    forall i, j | 0 <= i < j < |ids| ensures ids[i] != ids[j] {
      assert ids[i] == EvidenceId(req.evidence[i]) && ids[j] == EvidenceId(req.evidence[j]);
      assert !Faulty(req, DuplicateId(req.evidence[i].evidenceId));
    }
    forall ref | ref in PlanEvidence(req.plan) ensures Present(req.evidence, ref) {
      var n :| 0 <= n < |PlanEvidence(req.plan)| && PlanEvidence(req.plan)[n] == ref;
      assert !Faulty(req, BadReference(n));
    }
  }

  lemma {:induction false} AssumptionCited(assumptions: seq<Assumption>, i: nat)
    requires i < |assumptions|
    ensures forall ref :: ref in assumptions[i].refs ==> ref in AssumptionEvidence(assumptions)
  {
    var n := |assumptions| - 1;
    if i < n {
      AssumptionCited(assumptions[..n], i);
    }
  }

  // A hit names evidence of its own.
  predicate BringsEvidence(plan: Plan, hit: Hit) {
    hit.Unsubstantiated? && hit.assumption < |plan.assumptions| && plan.assumptions[hit.assumption].refs != []
  }

  lemma CitedPresent(req: Request, hit: Hit)
    requires Faultless(req) && Fires(req, hit)
    ensures (forall ref :: ref in CitedRefs(req, hit) ==> Present(req.evidence, ref)) <==>
      req.evidence != [] || BringsEvidence(req.plan, hit)
    ensures CitedRefs(req, hit) != []
  {
    FaultlessEvidence(req);
    if BringsEvidence(req.plan, hit) {
      AssumptionCited(req.plan.assumptions, hit.assumption);
    } else {
      var ref := CitedRefs(req, hit)[0];
      assert ref in CitedRefs(req, hit);
      var matching := FirstSpeaking(req.evidence);
      RequestRefPresent(req, None);
      RequestRefPresent(req, if matching.Some? then Some(matching.value.evidenceId) else None);
    }
  }

  lemma CitedKnown(req: Request, hit: Hit)
    requires Ready(req) && AdmittedIds(req) && Fires(req, hit)
    ensures forall r :: r in CitedRequirements(req.plan, hit) ==> r in Names(req.success.requirements)
    ensures AllIdentifiers(CitedRequirements(req.plan, hit))
  {
    forall r | r in CitedRequirements(req.plan, hit) ensures r in Names(req.success.requirements) && Identifier(r) {
      var v := req.plan.validations[hit.validation];
      assert v in req.plan.validations && r in v.requirementIds;
      assert IsRequirement(req.success, r);
    }
  }

  // On a request in which the checkers find nothing, what a rule proposes is
  // accepted exactly when its id is not too long, its location exists, and
  // there is evidence to cite.
  lemma RuleAcceptedExactly(req: Request, hit: Hit)
    requires Faultless(req) && Ready(req) && AdmittedIds(req) && Fires(req, hit)
    ensures Substantiated(req, Proposal(req, hit), true) <==>
      && !TooLong(HitPrefix(hit), Subject(req.plan, hit))
      && LocationExists(req.plan, hit)
      && (req.evidence != [] || BringsEvidence(req.plan, hit))
  {
    SubjectIdentifier(req, hit);
    CitedKnown(req, hit);
    CitedPresent(req, hit);
  }
}
