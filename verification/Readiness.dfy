/**
  The readiness decision of A-Flow plan analysis: the coverage, authority and
  activation checkers, and the decision the engine draws from what they, the
  dependency checker and everybody else found.

  A finding names the entity it is about by its position; `Id` is the finding
  id it is reported under, and `Print` of that is the id's text.
*/
module Readiness {
  import opened Dictionary
  import opened FindingIds
  import opened Identifiers
  import opened Ordering
  import opened Text
  import D = DependencyChecks

  // ----- The request -----

  datatype Target = Target(path: string, allowed: bool)

  datatype Output = Output(outputId: string, path: Option<string>)

  // A reference to an item of evidence by its id and hash.
  datatype EvidenceRef = EvidenceRef(evidenceId: string, hash: string)

  datatype Status = Satisfied | Unsatisfied | Undetermined | Deferred

  datatype Prerequisite = Prerequisite(status: Status, refs: seq<EvidenceRef>)

  datatype Activation = Activation(kind: string, source: Option<string>, authorized: bool)

  datatype Action = Action(actionId: string, requirementIds: seq<string>, targetPaths: seq<string>, outputs: seq<Output>,
                           dependsOn: seq<string>, capabilityId: string, owner: string, phase: string,
                           activation: Activation, prerequisites: seq<Prerequisite>)

  // Where, by whom and with what kinds of evidence something is shown.
  datatype Boundary = Boundary(environment: Option<string>, types: set<string>, proofType: string, executor: string)

  datatype Validation = Validation(validationId: string, requirementIds: seq<string>, actionIds: seq<string>,
                                   proofId: string, boundary: Boundary)

  datatype Row = Row(requirementId: string, actionIds: seq<string>, validationIds: seq<string>)

  datatype Risk = Risk(riskId: string, unresolved: bool, refs: seq<EvidenceRef>)

  datatype Assumption = Assumption(assumptionId: string, unsubstantiated: bool, refs: seq<EvidenceRef>)

  // A reference to an artifact as the plan holds it.
  datatype ArtifactRef = ArtifactRef(artifactId: string, schemaId: string, version: string, hash: string)

  datatype Plan = Plan(coverage: seq<Row>, actions: seq<Action>, validations: seq<Validation>,
                       dependencies: seq<D.Dependency>, targets: seq<Target>, excluded: seq<string>, risks: seq<Risk>,
                       assumptions: seq<Assumption>, failureIds: seq<string>, stopIds: seq<string>,
                       successRef: ArtifactRef, baselineRef: ArtifactRef, authorityRef: ArtifactRef)

  datatype Requirement = Requirement(requirementId: string, blocking: bool)

  datatype Proof = Proof(proofId: string, requirementIds: seq<string>, boundary: Boundary)

  datatype Success = Success(requirements: seq<Requirement>, proofs: seq<Proof>, actorIds: seq<string>,
                             outcomeIds: seq<string>, nonGoalIds: seq<string>, hashConfirmed: bool)

  datatype Capability = Capability(capabilityId: string, available: bool, owner: string, kind: string,
                                   source: Option<string>, phase: Option<string>, authorized: bool)

  // An item of evidence: whether its hash verifies, and whether its claim
  // speaks of substitutes or environments.
  datatype EvidenceItem = EvidenceItem(evidenceId: string, hash: string, intact: bool, speaks: bool)

  // The references of the artifacts supplied with the plan, and whether their
  // hashes verify.
  datatype Artifacts = Artifacts(success: ArtifactRef, baseline: ArtifactRef, authority: ArtifactRef,
                                 repository: EvidenceRef, authorityIntact: bool, repositoryIntact: bool, baselineIntact: bool)

  datatype Request = Request(analysisId: string, success: Success, plan: Plan, capabilities: seq<Capability>,
                             authorityIds: set<string>, evidence: seq<EvidenceItem>, artifacts: Artifacts)

  // ----- Findings -----

  datatype Finding =
    | SchemaError(number: nat)
    | DomainInvalid(field: string)
    | External(id: string, gap: Gap)
    | UnknownRequirement(number: nat)
    | ProofRequirement(proof: nat, position: nat)
    | NoCoverageRow(requirement: string)
    | CoverageAction(requirement: string)
    | CoverageValidation(requirement: string)
    | CoverageEmpty(requirement: string)
    | UnknownProof(validation: nat)
    | ProofCoverage(validation: nat)
    | ValidationAction(validation: nat, position: nat)
    | Dependency(finding: D.Finding)
    | TargetNotAllowed(target: nat)
    | TargetConflict(target: nat, exclusion: nat)
    | ActionTarget(action: nat, position: nat)
    | OutputTarget(action: nat, position: nat)
    | UnresolvedRisk(risk: nat)
    | CannotRun(action: nat)

  datatype Gap =
    | StructuralMissing | StructuralInvalid | BrokenReference | CoverageGap | DependencyGap | AuthorityAmbiguity
    | SequenceActivationGap | Contradiction | RelevantDrift | UnsupportedAssumption | ValidationEvidenceGap
    | OutputEnvironmentGap | OtherGap

  function ActionId(a: Action): string { a.actionId }
  function ValidationId(v: Validation): string { v.validationId }
  function RowId(r: Row): string { r.requirementId }
  function RiskId(r: Risk): string { r.riskId }
  function DependencyId(d: D.Dependency): string { d.dependencyId }
  function ProofId(p: Proof): string { p.proofId }
  function RequirementId(r: Requirement): string { r.requirementId }
  function CapabilityId(c: Capability): string { c.capabilityId }
  function AssumptionId(a: Assumption): string { a.assumptionId }
  function EvidenceId(e: EvidenceItem): string { e.evidenceId }

  function OutputIds(actions: seq<Action>): seq<string> {
    if actions == [] then []
    else
      var n := |actions| - 1;
      OutputIds(actions[..n]) + seq(|actions[n].outputs|, i requires 0 <= i < |actions[n].outputs| => actions[n].outputs[i].outputId)
  }

  // The domain invariants analysis itself re-checks.
  predicate SuccessValid(success: Success) {
    && Distinct(success.actorIds) && Distinct(Ids(success.requirements, RequirementId))
    && Distinct(success.outcomeIds) && Distinct(success.nonGoalIds) && Distinct(Ids(success.proofs, ProofId))
    && success.hashConfirmed
  }

  predicate PlanValid(plan: Plan) {
    && Distinct(Ids(plan.coverage, RowId)) && Distinct(Ids(plan.actions, ActionId))
    && Distinct(Ids(plan.validations, ValidationId)) && Distinct(Ids(plan.dependencies, DependencyId))
    && Distinct(Ids(plan.assumptions, AssumptionId)) && Distinct(Ids(plan.risks, RiskId)) && Distinct(plan.failureIds)
    && Distinct(plan.stopIds) && Distinct(OutputIds(plan.actions))
  }

  // ----- Authority -----

  predicate AllowedTarget(targets: seq<Target>, path: string) {
    exists t | t in targets :: t.allowed && Inside(path, t.path)
  }

  predicate Excluded(excluded: seq<string>, path: string) {
    exists e | e in excluded :: Overlaps(path, e)
  }

  predicate InAction(paths: seq<string>, path: string) {
    exists p | p in paths :: Inside(path, p)
  }

  predicate TargetReports(plan: Plan, f: Finding) {
    match f
    case TargetNotAllowed(i) => i < |plan.targets| && !plan.targets[i].allowed
    case TargetConflict(i, j) =>
      i < |plan.targets| && j < |plan.excluded| && Overlaps(plan.targets[i].path, plan.excluded[j])
    case _ => false
  }

  predicate ActionReports(plan: Plan, f: Finding) {
    match f
    case ActionTarget(i, k) =>
      && i < |plan.actions| && k < |plan.actions[i].targetPaths|
      && (!AllowedTarget(plan.targets, plan.actions[i].targetPaths[k]) || Excluded(plan.excluded, plan.actions[i].targetPaths[k]))
    case OutputTarget(i, k) =>
      && i < |plan.actions| && k < |plan.actions[i].outputs| && plan.actions[i].outputs[k].path.Some?
      && OutputEscapes(plan, plan.actions[i], plan.actions[i].outputs[k].path.value)
    case _ => false
  }

  predicate OutputEscapes(plan: Plan, action: Action, path: string) {
    !AllowedTarget(plan.targets, path) || !InAction(action.targetPaths, path) || Excluded(plan.excluded, path)
  }

  predicate RiskReports(plan: Plan, f: Finding) {
    f.UnresolvedRisk? && f.risk < |plan.risks| && plan.risks[f.risk].unresolved
  }

  predicate AuthorityReports(plan: Plan, f: Finding) {
    TargetReports(plan, f) || ActionReports(plan, f) || RiskReports(plan, f)
  }

  method AuthorityCheck(plan: Plan) returns (findings: seq<Finding>)
    ensures forall f :: f in findings <==> AuthorityReports(plan, f)
    ensures Distinct(findings)
  {
    var targets := AllTargetFindings(plan);
    var actions := AllActionFindings(plan);
    var risks := RiskFindings(plan);
    DistinctAppend(targets, actions);
    DistinctAppend(targets + actions, risks);
    findings := targets + actions + risks;
  }

  method AllTargetFindings(plan: Plan) returns (findings: seq<Finding>)
    ensures forall f :: f in findings <==> TargetReports(plan, f)
    ensures Distinct(findings)
  {
    findings := [];
    for index := 0 to |plan.targets|
      invariant forall f :: f in findings <==> TargetReports(plan, f) && f.target < index
      invariant Distinct(findings)
    {
      var found := TargetFindings(plan, index);
      DistinctAppend(findings, found);
      findings := findings + found;
    }
  }

  method AllActionFindings(plan: Plan) returns (findings: seq<Finding>)
    ensures forall f :: f in findings <==> ActionReports(plan, f)
    ensures Distinct(findings)
  {
    findings := [];
    for index := 0 to |plan.actions|
      invariant forall f :: f in findings <==> ActionReports(plan, f) && f.action < index
      invariant Distinct(findings)
    {
      var found := ActionFindings(plan, index);
      DistinctAppend(findings, found);
      findings := findings + found;
    }
  }

  method RiskFindings(plan: Plan) returns (findings: seq<Finding>)
    ensures forall f :: f in findings <==> RiskReports(plan, f)
    ensures Distinct(findings)
  {
    findings := [];
    for index := 0 to |plan.risks|
      invariant forall f :: f in findings <==> RiskReports(plan, f) && f.risk < index
      invariant Distinct(findings)
    {
      if plan.risks[index].unresolved {
        DistinctAppend(findings, [UnresolvedRisk(index)]);
        findings := findings + [UnresolvedRisk(index)];
      }
    }
  }

  method TargetFindings(plan: Plan, index: nat) returns (findings: seq<Finding>)
    requires index < |plan.targets|
    ensures forall f :: f in findings <==> TargetReports(plan, f) && f.target == index
    ensures Distinct(findings)
  {
    findings := if plan.targets[index].allowed then [] else [TargetNotAllowed(index)];
    var conflicts := ConflictFindings(plan, index);
    DistinctAppend(findings, conflicts);
    findings := findings + conflicts;
  }

  // The positions below n that are marked, each turned into a finding.
  function Marked(marks: seq<bool>, finding: nat -> Finding): seq<Finding> {
    if marks == [] then []
    else
      var n := |marks| - 1;
      Marked(marks[..n], finding) + (if marks[n] then [finding(n)] else [])
  }

  lemma {:induction false} MarkedMembers(marks: seq<bool>, finding: nat -> Finding)
    requires forall i, j :: 0 <= i < j < |marks| ==> finding(i) != finding(j)
    ensures forall f :: f in Marked(marks, finding) <==> exists k :: 0 <= k < |marks| && marks[k] && f == finding(k)
    ensures Distinct(Marked(marks, finding))
  {
    if marks != [] {
      var n := |marks| - 1;
      MarkedMembers(marks[..n], finding);
      if marks[n] {
        DistinctAppend(Marked(marks[..n], finding), [finding(n)]);
        assert finding(n) in Marked(marks, finding);
      }
    }
  }

  method Mark(marks: seq<bool>, finding: nat -> Finding) returns (findings: seq<Finding>)
    requires forall i, j :: 0 <= i < j < |marks| ==> finding(i) != finding(j)
    ensures forall f :: f in findings <==> exists k :: 0 <= k < |marks| && marks[k] && f == finding(k)
    ensures Distinct(findings)
  {
    findings := [];
    for k := 0 to |marks|
      invariant findings == Marked(marks[..k], finding)
    {
      assert marks[..k + 1][..k] == marks[..k];
      if marks[k] {
        findings := findings + [finding(k)];
      }
    }
    assert marks[..|marks|] == marks;
    MarkedMembers(marks, finding);
  }

  method ConflictFindings(plan: Plan, index: nat) returns (findings: seq<Finding>)
    requires index < |plan.targets|
    ensures forall f :: f in findings <==> f.TargetConflict? && f.target == index && TargetReports(plan, f)
    ensures Distinct(findings)
  {
    var marks := seq(|plan.excluded|, j requires 0 <= j < |plan.excluded| => Overlaps(plan.targets[index].path, plan.excluded[j]));
    var finding := (j: nat) => TargetConflict(index, j);
    findings := Mark(marks, finding);
    forall f: Finding | f.TargetConflict? && f.target == index && TargetReports(plan, f) ensures f in findings {
      assert marks[f.exclusion] && f == finding(f.exclusion);
    }
  }

  method PathFindings(plan: Plan, index: nat) returns (findings: seq<Finding>)
    requires index < |plan.actions|
    ensures forall f :: f in findings <==> f.ActionTarget? && f.action == index && ActionReports(plan, f)
    ensures Distinct(findings)
  {
    var paths := plan.actions[index].targetPaths;
    var marks := seq(|paths|, k requires 0 <= k < |paths| =>
      !AllowedTarget(plan.targets, paths[k]) || Excluded(plan.excluded, paths[k]));
    var finding := (k: nat) => ActionTarget(index, k);
    findings := Mark(marks, finding);
    forall f: Finding | f.ActionTarget? && f.action == index && ActionReports(plan, f) ensures f in findings {
      assert marks[f.position] && f == finding(f.position);
    }
  }

  method OutputFindings(plan: Plan, index: nat) returns (findings: seq<Finding>)
    requires index < |plan.actions|
    ensures forall f :: f in findings <==> f.OutputTarget? && f.action == index && ActionReports(plan, f)
    ensures Distinct(findings)
  {
    var outputs := plan.actions[index].outputs;
    var marks := seq(|outputs|, k requires 0 <= k < |outputs| =>
      outputs[k].path.Some? && OutputEscapes(plan, plan.actions[index], outputs[k].path.value));
    var finding := (k: nat) => OutputTarget(index, k);
    findings := Mark(marks, finding);
    forall f: Finding | f.OutputTarget? && f.action == index && ActionReports(plan, f) ensures f in findings {
      assert marks[f.position] && f == finding(f.position);
    }
  }

  method ActionFindings(plan: Plan, index: nat) returns (findings: seq<Finding>)
    requires index < |plan.actions|
    ensures forall f :: f in findings <==> ActionReports(plan, f) && f.action == index
    ensures Distinct(findings)
  {
    var paths := PathFindings(plan, index);
    var outputs := OutputFindings(plan, index);
    DistinctAppend(paths, outputs);
    findings := paths + outputs;
  }

  // ----- Coverage -----

  function Names(requirements: seq<Requirement>): set<string> {
    set r | r in requirements :: r.requirementId
  }

  function ActionRefs(actions: seq<Action>): (refs: seq<string>)
    ensures forall r :: r in refs <==> exists i :: 0 <= i < |actions| && r in actions[i].requirementIds
  {
    if actions == [] then []
    else
      var n := |actions| - 1;
      assert forall i :: 0 <= i < n ==> actions[..n][i] == actions[i];
      ActionRefs(actions[..n]) + actions[n].requirementIds
  }

  function ValidationRefs(validations: seq<Validation>): (refs: seq<string>)
    ensures forall r :: r in refs <==> exists i :: 0 <= i < |validations| && r in validations[i].requirementIds
  {
    if validations == [] then []
    else
      var n := |validations| - 1;
      assert forall i :: 0 <= i < n ==> validations[..n][i] == validations[i];
      ValidationRefs(validations[..n]) + validations[n].requirementIds
  }

  // Every requirement the plan refers to, in the order they are collected.
  function AllRefs(plan: Plan): seq<string> {
    Ids(plan.coverage, RowId) + ActionRefs(plan.actions) + ValidationRefs(plan.validations)
  }

  function Unknown(known: set<string>, refs: seq<string>): (unknown: seq<string>)
    ensures forall r :: r in unknown <==> r in refs && r !in known
  {
    if refs == [] then []
    else
      var n := |refs| - 1;
      assert refs == refs[..n] + [refs[n]];
      Unknown(known, refs[..n]) + (if refs[n] in known then [] else [refs[n]])
  }

  function BlockingIds(requirements: seq<Requirement>): (ids: seq<string>)
    ensures forall r :: r in ids <==> exists i :: 0 <= i < |requirements| && requirements[i].requirementId == r && requirements[i].blocking
  {
    if requirements == [] then []
    else
      var n := |requirements| - 1;
      assert forall i :: 0 <= i < n ==> requirements[..n][i] == requirements[i];
      BlockingIds(requirements[..n]) + (if requirements[n].blocking then [requirements[n].requirementId] else [])
  }

  predicate SomeActionCovers(actions: map<string, Action>, r: string) {
    exists id | id in actions :: r in actions[id].requirementIds
  }

  predicate SomeValidationCovers(validations: map<string, Validation>, r: string) {
    exists id | id in validations :: r in validations[id].requirementIds
  }

  predicate AllIn<T>(ids: seq<string>, items: map<string, T>) {
    forall id | id in ids :: id in items
  }

  // What is wrong with the coverage of one blocking requirement.
  datatype Gaps = Gaps(row: bool, actions: bool, validations: bool, empty: bool)

  function GapsOf(plan: Plan, r: string): Gaps {
    var rows, actions := ById(plan.coverage, RowId), ById(plan.actions, ActionId);
    var validations := ById(plan.validations, ValidationId);
    Gaps(r !in rows, r in rows && !AllIn(rows[r].actionIds, actions), r in rows && !AllIn(rows[r].validationIds, validations),
         r in rows && !(SomeActionCovers(actions, r) && SomeValidationCovers(validations, r)))
  }

  // The findings about one blocking requirement.
  predicate BlockingReports(plan: Plan, f: Finding) {
    match f
    case NoCoverageRow(r) => GapsOf(plan, r).row
    case CoverageAction(r) => GapsOf(plan, r).actions
    case CoverageValidation(r) => GapsOf(plan, r).validations
    case CoverageEmpty(r) => GapsOf(plan, r).empty
    case _ => false
  }

  predicate ProofReports(success: Success, f: Finding) {
    f.ProofRequirement? && f.proof < |success.proofs| && f.position < |success.proofs[f.proof].requirementIds|
    && success.proofs[f.proof].requirementIds[f.position] !in Names(success.requirements)
  }

  predicate Covers(proof: Proof, v: Validation) {
    forall r | r in v.requirementIds :: r in proof.requirementIds
  }

  predicate ValidationReports(success: Success, plan: Plan, f: Finding) {
    var proofs, actions := ById(success.proofs, ProofId), ById(plan.actions, ActionId);
    match f
    case UnknownProof(i) => i < |plan.validations| && plan.validations[i].proofId !in proofs
    case ProofCoverage(i) =>
      && i < |plan.validations| && plan.validations[i].proofId in proofs
      && !Covers(proofs[plan.validations[i].proofId], plan.validations[i])
    case ValidationAction(i, k) =>
      && i < |plan.validations| && plan.validations[i].proofId in proofs
      && k < |plan.validations[i].actionIds| && plan.validations[i].actionIds[k] !in actions
    case _ => false
  }

  predicate RefReports(success: Success, plan: Plan, f: Finding) {
    f.UnknownRequirement? && 1 <= f.number <= |Unknown(Names(success.requirements), AllRefs(plan))|
  }

  predicate CoverageReports(success: Success, plan: Plan, f: Finding) {
    || RefReports(success, plan, f)
    || ProofReports(success, f)
    || (BlockingReports(plan, f) && f.requirement in BlockingIds(success.requirements))
    || ValidationReports(success, plan, f)
  }

  method CollectRefs(plan: Plan) returns (refs: seq<string>)
    ensures refs == AllRefs(plan)
  {
    refs := [];
    ghost var rows := Ids(plan.coverage, RowId);
    for i := 0 to |plan.coverage|
      invariant refs == rows[..i]
    {
      assert rows[..i + 1] == rows[..i] + [rows[i]] && rows[i] == plan.coverage[i].requirementId;
      refs := refs + [plan.coverage[i].requirementId];
    }
    for i := 0 to |plan.actions|
      invariant refs == rows + ActionRefs(plan.actions[..i])
    {
      assert plan.actions[..i + 1][..i] == plan.actions[..i];
      refs := refs + plan.actions[i].requirementIds;
    }
    assert plan.actions[..|plan.actions|] == plan.actions;
    ghost var soFar := refs;
    for i := 0 to |plan.validations|
      invariant refs == soFar + ValidationRefs(plan.validations[..i])
    {
      assert plan.validations[..i + 1][..i] == plan.validations[..i];
      refs := refs + plan.validations[i].requirementIds;
    }
    assert plan.validations[..|plan.validations|] == plan.validations;
  }

  function Numbered(n: nat): seq<Finding> {
    seq(n, i requires 0 <= i < n => UnknownRequirement(i + 1))
  }

  lemma NumberedMembers(n: nat)
    ensures forall f :: f in Numbered(n) <==> f.UnknownRequirement? && 1 <= f.number <= n
    ensures Distinct(Numbered(n))
  {
    forall f: Finding | f.UnknownRequirement? && 1 <= f.number <= n ensures f in Numbered(n) {
      assert Numbered(n)[f.number - 1] == f;
    }
  }

  method RefFindings(success: Success, plan: Plan) returns (findings: seq<Finding>)
    ensures forall f :: f in findings <==> RefReports(success, plan, f)
    ensures Distinct(findings)
  {
    var refs := CollectRefs(plan);
    findings := UnknownFindings(Names(success.requirements), refs);
    NumberedMembers(|findings|);
  }

  method UnknownFindings(known: set<string>, refs: seq<string>) returns (findings: seq<Finding>)
    ensures findings == Numbered(|Unknown(known, refs)|)
  {
    findings := [];
    for i := 0 to |refs|
      invariant findings == Numbered(|Unknown(known, refs[..i])|)
    {
      UnknownNext(known, refs, i);
      if refs[i] !in known {
        NumberedNext(|findings|);
        findings := findings + [UnknownRequirement(|findings| + 1)];
      }
    }
    assert refs[..|refs|] == refs;
  }

  lemma NumberedNext(n: nat)
    ensures Numbered(n + 1) == Numbered(n) + [UnknownRequirement(n + 1)]
  {
  }

  lemma UnknownNext(known: set<string>, refs: seq<string>, i: nat)
    requires i < |refs|
    ensures Unknown(known, refs[..i + 1]) == Unknown(known, refs[..i]) + (if refs[i] in known then [] else [refs[i]])
  {
    assert refs[..i + 1][..i] == refs[..i];
  }

  method ProofFindings(success: Success) returns (findings: seq<Finding>)
    ensures forall f :: f in findings <==> ProofReports(success, f)
    ensures Distinct(findings)
  {
    var known := Names(success.requirements);
    findings := [];
    for i := 0 to |success.proofs|
      invariant forall f :: f in findings <==> ProofReports(success, f) && f.proof < i
      invariant Distinct(findings)
    {
      var ids := success.proofs[i].requirementIds;
      for k := 0 to |ids|
        invariant forall f :: f in findings <==>
          ProofReports(success, f) && (f.proof < i || (f.proof == i && f.position < k))
        invariant Distinct(findings)
      {
        if ids[k] !in known {
          DistinctAppend(findings, [ProofRequirement(i, k)]);
          findings := findings + [ProofRequirement(i, k)];
        }
      }
    }
  }

  method FindGaps(plan: Plan, r: string) returns (gaps: Gaps)
    ensures gaps == GapsOf(plan, r)
  {
    var rows, actions := ById(plan.coverage, RowId), ById(plan.actions, ActionId);
    var validations := ById(plan.validations, ValidationId);
    if r !in rows {
      return Gaps(true, false, false, false);
    }
    gaps := Gaps(false, !AllIn(rows[r].actionIds, actions), !AllIn(rows[r].validationIds, validations),
                 !SomeActionCovers(actions, r) || !SomeValidationCovers(validations, r));
  }

  method BlockingFindings(plan: Plan, r: string) returns (findings: seq<Finding>)
    ensures forall f :: f in findings <==> BlockingReports(plan, f) && f.requirement == r
    ensures Distinct(findings)
  {
    var gaps := FindGaps(plan, r);
    if gaps.row {
      return [NoCoverageRow(r)];
    }
    findings := [];
    if gaps.actions {
      findings := findings + [CoverageAction(r)];
    }
    if gaps.validations {
      findings := findings + [CoverageValidation(r)];
    }
    if gaps.empty {
      findings := findings + [CoverageEmpty(r)];
    }
  }

  method ValidationFindings(success: Success, plan: Plan, i: nat) returns (findings: seq<Finding>)
    requires i < |plan.validations|
    ensures forall f :: f in findings <==> ValidationReports(success, plan, f) && f.validation == i
    ensures Distinct(findings)
  {
    var proofs, actions := ById(success.proofs, ProofId), ById(plan.actions, ActionId);
    var v := plan.validations[i];
    if v.proofId !in proofs {
      return [UnknownProof(i)];
    }
    findings := if Covers(proofs[v.proofId], v) then [] else [ProofCoverage(i)];
    for k := 0 to |v.actionIds|
      invariant forall f :: f in findings <==>
        ValidationReports(success, plan, f) && f.validation == i && (f.ValidationAction? ==> f.position < k)
      invariant Distinct(findings)
    {
      if v.actionIds[k] !in actions {
        DistinctAppend(findings, [ValidationAction(i, k)]);
        findings := findings + [ValidationAction(i, k)];
      }
    }
  }

  method CoverageCheck(success: Success, plan: Plan) returns (findings: seq<Finding>)
    ensures forall f :: f in findings <==> CoverageReports(success, plan, f)
    ensures Distinct(findings)
  {
    findings := RefFindings(success, plan);
    var proofs := ProofFindings(success);
    DistinctAppend(findings, proofs);
    findings := findings + proofs;
    ghost var soFar := findings;
    var blocking := SortDistinct(StringLess, BlockingIds(success.requirements));
    StringLessIsStrictTotalOrder();
    SortDistinctIncreasing(StringLess, BlockingIds(success.requirements));
    for k := 0 to |blocking|
      invariant forall f :: f in findings <==> f in soFar || (BlockingReports(plan, f) && f.requirement in blocking[..k])
      invariant Distinct(findings)
    {
      assert blocking[..k + 1] == blocking[..k] + [blocking[k]];
      assert blocking[k] !in blocking[..k];
      var found := BlockingFindings(plan, blocking[k]);
      DistinctAppend(findings, found);
      findings := findings + found;
    }
    assert blocking[..|blocking|] == blocking;
    ghost var before := findings;
    for i := 0 to |plan.validations|
      invariant forall f :: f in findings <==> f in before || (ValidationReports(success, plan, f) && f.validation < i)
      invariant Distinct(findings)
    {
      var found := ValidationFindings(success, plan, i);
      DistinctAppend(findings, found);
      findings := findings + found;
    }
  }

  // ----- Activation -----

  datatype Problem =
    | NoCapability | Unavailable | WrongOwner | NoSource | UnknownSource | WrongPhase | NotAuthorized
    | UnknownActionSource | NoActionSource | ActionNotAuthorized | UnmetPrerequisite | UndeferrablePrerequisite

  predicate Given(text: Option<string>) {
    text.Some? && text.value != ""
  }

  const SELF_ACTIVATING := {"automatic", "not_required"}

  function OwnerOf(capability: Capability): string {
    if capability.owner == "aflow" then "deterministic_local" else capability.owner
  }

  // The action's activation is deferred to its entry into the phase its
  // capability requires.
  predicate EntersItsPhase(capability: Capability, action: Action) {
    action.activation.kind == "phase_entry" && capability.phase == Some(action.phase)
  }

  // The capability, owner, phase, prerequisites and activation of an action
  // agree with the authority evidence.
  predicate Runnable(capabilities: map<string, Capability>, authorityIds: set<string>, action: Action) {
    && action.capabilityId in capabilities
    && var c := capabilities[action.capabilityId];
       && c.available && OwnerOf(c) == action.owner
       && (Given(c.source) ==> c.source.value in authorityIds)
       && (Given(c.phase) ==> c.phase.value == action.phase)
       && (c.kind in SELF_ACTIVATING ||
             (Given(c.source) && (c.authorized || (c.kind == "phase_entry" && EntersItsPhase(c, action)))))
       && (Given(action.activation.source) ==> action.activation.source.value in authorityIds)
       && (action.activation.kind == "not_required" || Given(action.activation.source))
       && (action.activation.authorized || EntersItsPhase(c, action))
       && (forall p | p in action.prerequisites ::
             p.status == Satisfied || (p.status == Deferred && EntersItsPhase(c, action)))
  }

  predicate Awaits(action: Action, status: Status) {
    exists p | p in action.prerequisites :: p.status == status
  }

  // Deferred to its entry into the phase, which names its source.
  predicate DefersToPhase(c: Capability, action: Action) {
    && action.activation.kind == "phase_entry" && action.activation.source !in {None, Some("")}
    && c.phase == Some(action.phase)
  }

  // What is wrong with the capability of an action.
  predicate CapabilityFails(c: Capability, authorityIds: set<string>, action: Action, problem: Problem) {
    match problem
    case Unavailable => !c.available
    case WrongOwner => if c.owner == "aflow" then action.owner != "deterministic_local" else action.owner != c.owner
    case NoSource => c.kind != "automatic" && c.kind != "not_required" && c.source in {None, Some("")}
    case UnknownSource => c.source.Some? && c.source.value != "" && c.source.value !in authorityIds
    case WrongPhase => c.phase.Some? && c.phase.value != "" && c.phase.value != action.phase
    case NotAuthorized =>
      && !c.authorized && c.kind != "automatic" && c.kind != "not_required"
      && !(c.kind == "phase_entry" && DefersToPhase(c, action))
    case _ => false
  }

  // What is wrong with an action, given its capability, if there is one.
  predicate ActionFails(c: Option<Capability>, authorityIds: set<string>, action: Action, problem: Problem) {
    var activation := action.activation;
    var deferred := c.Some? && DefersToPhase(c.value, action);
    match problem
    case NoCapability => c.None?
    case UnknownActionSource => activation.source !in {None, Some("")} && activation.source.value !in authorityIds
    case NoActionSource => activation.kind != "not_required" && activation.source in {None, Some("")}
    case ActionNotAuthorized => !activation.authorized && !deferred
    case UnmetPrerequisite => exists p | p in action.prerequisites :: p.status == Unsatisfied || p.status == Undetermined
    case UndeferrablePrerequisite => !deferred && exists p | p in action.prerequisites :: p.status == Deferred
    case _ => c.Some? && CapabilityFails(c.value, authorityIds, action, problem)
  }

  lemma PhaseEntryNeedsSource(c: Capability, action: Action)
    requires action.activation.kind == "not_required" || Given(action.activation.source)
    ensures EntersItsPhase(c, action) <==> DefersToPhase(c, action)
  {
    assert "phase_entry"[0] != "not_required"[0];
  }

  lemma GivenExactly(text: Option<string>)
    ensures Given(text) <==> text !in {None, Some("")}
  {
  }

  // An action can run exactly when nothing is wrong with it.
  lemma RunnableExactly(capabilities: map<string, Capability>, authorityIds: set<string>, action: Action)
    ensures Runnable(capabilities, authorityIds, action)
      <==> forall problem :: !ActionFails(Lookup(capabilities, action.capabilityId), authorityIds, action, problem)
  {
    var c := Lookup(capabilities, action.capabilityId);
    if Runnable(capabilities, authorityIds, action) {
      PhaseEntryNeedsSource(c.value, action);
      forall problem ensures !ActionFails(c, authorityIds, action, problem) {
        NothingWrong(c.value, authorityIds, action, problem);
      }
    } else if forall problem :: !ActionFails(c, authorityIds, action, problem) {
      NothingFails(c, authorityIds, action);
    }
  }

  // What makes an action runnable, with its capability at hand.
  ghost predicate Agrees(c: Capability, authorityIds: set<string>, action: Action) {
    Runnable(map[action.capabilityId := c], authorityIds, action)
  }

  lemma NothingWrong(c: Capability, authorityIds: set<string>, action: Action, problem: Problem)
    requires Agrees(c, authorityIds, action)
    ensures !ActionFails(Some(c), authorityIds, action, problem)
  {
    PhaseEntryNeedsSource(c, action);
    GivenExactly(c.source);
    GivenExactly(c.phase);
    GivenExactly(action.activation.source);
  }

  lemma NothingFails(c: Option<Capability>, authorityIds: set<string>, action: Action)
    requires forall problem :: !ActionFails(c, authorityIds, action, problem)
    ensures c.Some? && Agrees(c.value, authorityIds, action)
  {
    assert !ActionFails(c, authorityIds, action, NoCapability);
    ActionAgrees(c.value, authorityIds, action);
    CapabilityAgrees(c.value, authorityIds, action);
  }

  lemma ActionAgrees(c: Capability, authorityIds: set<string>, action: Action)
    requires forall problem :: !ActionFails(Some(c), authorityIds, action, problem)
    ensures Given(action.activation.source) ==> action.activation.source.value in authorityIds
    ensures action.activation.kind == "not_required" || Given(action.activation.source)
    ensures action.activation.authorized || EntersItsPhase(c, action)
    ensures forall p :: p in action.prerequisites ==> p.status == Satisfied || (p.status == Deferred && EntersItsPhase(c, action))
  {
    GivenExactly(action.activation.source);
    assert !ActionFails(Some(c), authorityIds, action, UnknownActionSource);
    assert !ActionFails(Some(c), authorityIds, action, NoActionSource);
    PhaseEntryNeedsSource(c, action);
    assert !ActionFails(Some(c), authorityIds, action, ActionNotAuthorized);
    assert !ActionFails(Some(c), authorityIds, action, UnmetPrerequisite);
    assert !ActionFails(Some(c), authorityIds, action, UndeferrablePrerequisite);
  }

  lemma CapabilityAgrees(c: Capability, authorityIds: set<string>, action: Action)
    requires forall problem :: !ActionFails(Some(c), authorityIds, action, problem)
    requires action.activation.kind == "not_required" || Given(action.activation.source)
    ensures c.available && OwnerOf(c) == action.owner
    ensures Given(c.source) ==> c.source.value in authorityIds
    ensures Given(c.phase) ==> c.phase.value == action.phase
    ensures c.kind in SELF_ACTIVATING
            || (Given(c.source) && (c.authorized || (c.kind == "phase_entry" && EntersItsPhase(c, action))))
  {
    GivenExactly(c.source);
    GivenExactly(c.phase);
    PhaseEntryNeedsSource(c, action);
    assert !ActionFails(Some(c), authorityIds, action, Unavailable) && !ActionFails(Some(c), authorityIds, action, WrongOwner);
    assert !ActionFails(Some(c), authorityIds, action, NoSource) && !ActionFails(Some(c), authorityIds, action, UnknownSource);
    assert !ActionFails(Some(c), authorityIds, action, WrongPhase) && !ActionFails(Some(c), authorityIds, action, NotAuthorized);
  }

  lemma AwaitsExactly(c: Option<Capability>, authorityIds: set<string>, action: Action)
    ensures ActionFails(c, authorityIds, action, UnmetPrerequisite) <==> Awaits(action, Unsatisfied) || Awaits(action, Undetermined)
  {
  }

  method CapabilityProblems(capability: Capability, authorityIds: set<string>, action: Action) returns (problems: seq<Problem>)
    ensures forall x :: x in problems <==> CapabilityFails(capability, authorityIds, action, x)
  {
    problems := [];
    if !capability.available {
      problems := problems + [Unavailable];
    }
    if OwnerOf(capability) != action.owner {
      problems := problems + [WrongOwner];
    }
    var others := SourceProblems(capability, authorityIds, action);
    problems := problems + others;
  }

  method SourceProblems(capability: Capability, authorityIds: set<string>, action: Action) returns (problems: seq<Problem>)
    ensures forall x :: x in problems <==>
      CapabilityFails(capability, authorityIds, action, x) && !x.Unavailable? && !x.WrongOwner?
  {
    GivenExactly(capability.source);
    GivenExactly(capability.phase);
    GivenExactly(action.activation.source);
    problems := [];
    if capability.kind !in SELF_ACTIVATING && !Given(capability.source) {
      problems := problems + [NoSource];
    }
    if Given(capability.source) && capability.source.value !in authorityIds {
      problems := problems + [UnknownSource];
    }
    if Given(capability.phase) && capability.phase.value != action.phase {
      problems := problems + [WrongPhase];
    }
    var deferred := capability.kind == "phase_entry" && capability.phase == Some(action.phase)
      && action.activation.kind == "phase_entry" && Given(action.activation.source);
    if !capability.authorized && capability.kind !in SELF_ACTIVATING && !deferred {
      problems := problems + [NotAuthorized];
    }
  }

  method ActionProblems(capabilities: map<string, Capability>, authorityIds: set<string>, action: Action)
    returns (problems: seq<Problem>)
    ensures forall x :: x in problems <==> ActionFails(Lookup(capabilities, action.capabilityId), authorityIds, action, x)
    ensures problems == [] <==> Runnable(capabilities, authorityIds, action)
  {
    RunnableExactly(capabilities, authorityIds, action);
    AwaitsExactly(Lookup(capabilities, action.capabilityId), authorityIds, action);
    GivenExactly(action.activation.source);
    problems := [];
    var activation := action.activation;
    var deferred := false;
    if action.capabilityId !in capabilities {
      problems := [NoCapability];
    } else {
      var capability := capabilities[action.capabilityId];
      problems := CapabilityProblems(capability, authorityIds, action);
      deferred := activation.kind == "phase_entry" && Given(activation.source) && capability.phase == Some(action.phase);
    }
    if Given(activation.source) && activation.source.value !in authorityIds {
      problems := problems + [UnknownActionSource];
    }
    if activation.kind != "not_required" && !Given(activation.source) {
      problems := problems + [NoActionSource];
    }
    if !activation.authorized && !deferred {
      problems := problems + [ActionNotAuthorized];
    }
    if Awaits(action, Unsatisfied) || Awaits(action, Undetermined) {
      problems := problems + [UnmetPrerequisite];
    }
    if Awaits(action, Deferred) && !deferred {
      problems := problems + [UndeferrablePrerequisite];
    }
    assert problems != [] ==> problems[0] in problems;
  }

  predicate ActivationReports(req: Request, f: Finding) {
    f.CannotRun? && f.action < |req.plan.actions|
    && !Runnable(ById(req.capabilities, CapabilityId), req.authorityIds, req.plan.actions[f.action])
  }

  method ActivationCheck(req: Request) returns (findings: seq<Finding>)
    ensures forall f :: f in findings <==> ActivationReports(req, f)
    ensures Distinct(findings)
  {
    var capabilities := ById(req.capabilities, CapabilityId);
    findings := [];
    for i := 0 to |req.plan.actions|
      invariant forall f :: f in findings <==> ActivationReports(req, f) && f.action < i
      invariant Distinct(findings)
    {
      var problems := ActionProblems(capabilities, req.authorityIds, req.plan.actions[i]);
      if problems != [] {
        DistinctAppend(findings, [CannotRun(i)]);
        findings := findings + [CannotRun(i)];
      }
    }
  }

  // ----- The decision engine -----

  // A finding somebody proposes, with what substantiation asks about it.
  datatype Candidate = Candidate(id: string, gap: Gap, valid: bool, semantic: bool, specific: bool,
                                 requirementIds: seq<string>, located: bool, resolves: bool,
                                 refs: seq<EvidenceRef>, supported: bool)

  // Who reviews the plan: the neutral reviewer that proposes nothing, or one
  // supplied from outside, whose review is valid under its schema or not.
  datatype Reviewer = Neutral | Supplied(valid: bool, candidates: seq<Candidate>)

  // The id of the neutral review is derived from that of the analysis.
  predicate ReviewValid(req: Request, reviewer: Reviewer) {
    match reviewer
    case Neutral => Identifier("review." + req.analysisId)
    case Supplied(valid, _) => valid
  }

  // What the rest of the analysis contributes: the number of schema errors,
  // whether what a decision quotes of a request that failed admission (its
  // ids, versions and hashes) is valid all the same, the findings of the
  // evidence and reference checks, the reviewer, and what substantiation
  // accepted and rejected.
  datatype Surroundings = Surroundings(schemaErrors: nat, quotable: bool, evidence: seq<Finding>, reviewer: Reviewer,
                                       accepted: seq<Finding>, rejected: seq<string>)

  ghost predicate FromOutside(around: Surroundings) {
    && FromEvidence(around.evidence)
    && forall f :: f in around.accepted ==> f.External?
  }

  // Findings of the evidence and reference checks.
  ghost predicate FromEvidence(evidence: seq<Finding>) {
    forall f :: f in evidence ==> f.External? && OutsideName(f.id)
  }

  function GapOf(f: Finding): Gap {
    match f
    case SchemaError(_) => StructuralInvalid
    case DomainInvalid(_) => StructuralInvalid
    case External(_, gap) => gap
    case UnknownRequirement(_) => BrokenReference
    case ProofRequirement(_, _) => BrokenReference
    case NoCoverageRow(_) => CoverageGap
    case CoverageAction(_) => BrokenReference
    case CoverageValidation(_) => BrokenReference
    case CoverageEmpty(_) => CoverageGap
    case UnknownProof(_) => BrokenReference
    case ProofCoverage(_) => CoverageGap
    case ValidationAction(_, _) => BrokenReference
    case Dependency(_) => DependencyGap
    case TargetNotAllowed(_) => AuthorityAmbiguity
    case TargetConflict(_, _) => AuthorityAmbiguity
    case ActionTarget(_, _) => AuthorityAmbiguity
    case OutputTarget(_, _) => AuthorityAmbiguity
    case UnresolvedRisk(_) => AuthorityAmbiguity
    case CannotRun(_) => SequenceActivationGap
  }

  datatype Verdict = NoMaterialGap | Contradicted | DriftRevalidationRequired | MissingEvidence | MaterialGapFound

  function DecisionType(findings: seq<Finding>): Verdict {
    var gaps := set f | f in findings :: GapOf(f);
    if Contradiction in gaps then Contradicted
    else if RelevantDrift in gaps then DriftRevalidationRequired
    else if UnsupportedAssumption in gaps || ValidationEvidenceGap in gaps || OutputEnvironmentGap in gaps then MissingEvidence
    else MaterialGapFound
  }

  // The verdict on findings: the gravest gap among them decides.
  lemma DecisionTypeExactly(findings: seq<Finding>)
    ensures var verdict := DecisionType(findings);
      && verdict != NoMaterialGap
      && (verdict == Contradicted <==> HasGap(findings, Contradiction))
      && (verdict == DriftRevalidationRequired <==> HasGap(findings, RelevantDrift) && !HasGap(findings, Contradiction))
      && (verdict == MissingEvidence <==>
            && !HasGap(findings, Contradiction) && !HasGap(findings, RelevantDrift)
            && (HasGap(findings, UnsupportedAssumption) || HasGap(findings, ValidationEvidenceGap) || HasGap(findings, OutputEnvironmentGap)))
  {
    var gaps := set f | f in findings :: GapOf(f);
    forall gap ensures gap in gaps <==> HasGap(findings, gap) {
    }
  }

  ghost predicate HasGap(findings: seq<Finding>, gap: Gap) {
    exists f :: f in findings && GapOf(f) == gap
  }

  // Which findings are of which kind of gap. Only a proposed finding can be of
  // a kind that is not listed.
  lemma GapsExactly(f: Finding)
    ensures GapOf(f) == StructuralInvalid <==> f.SchemaError? || f.DomainInvalid? || (f.External? && f.gap == StructuralInvalid)
    ensures GapOf(f) == CoverageGap <==>
      f.NoCoverageRow? || f.CoverageEmpty? || f.ProofCoverage? || (f.External? && f.gap == CoverageGap)
    ensures GapOf(f) == DependencyGap <==> f.Dependency? || (f.External? && f.gap == DependencyGap)
    ensures GapOf(f) == AuthorityAmbiguity <==>
      f.TargetNotAllowed? || f.TargetConflict? || f.ActionTarget? || f.OutputTarget? || f.UnresolvedRisk?
      || (f.External? && f.gap == AuthorityAmbiguity)
    ensures GapOf(f) == SequenceActivationGap <==> f.CannotRun? || (f.External? && f.gap == SequenceActivationGap)
    ensures GapOf(f) == BrokenReference <==>
      f.UnknownRequirement? || f.ProofRequirement? || f.CoverageAction? || f.CoverageValidation? || f.UnknownProof?
      || f.ValidationAction? || (f.External? && f.gap == BrokenReference)
    ensures f.External? ==> GapOf(f) == f.gap
    ensures !f.External? ==>
      GapOf(f) in {StructuralInvalid, CoverageGap, DependencyGap, AuthorityAmbiguity, SequenceActivationGap, BrokenReference}
  {
  }

  // The id a finding is reported under.
  function NameAt<T>(items: seq<T>, id: T -> string, i: nat): string {
    if i < |items| then id(items[i]) else ""
  }

  function Id(req: Request, f: Finding): FindingId {
    match f
    case SchemaError(n) => FindingId(FSchema, "", n, 0)
    case DomainInvalid(field) => FindingId(FDomain, field, 0, 0)
    case External(id, _) => FindingId(FOutside, id, 0, 0)
    case UnknownRequirement(n) => FindingId(FUnknown, "", n, 0)
    case ProofRequirement(i, k) => FindingId(FProofRequirement, NameAt(req.success.proofs, ProofId, i), k, 0)
    case NoCoverageRow(r) => FindingId(FMissing, r, 0, 0)
    case CoverageAction(r) => FindingId(FAction, r, 0, 0)
    case CoverageValidation(r) => FindingId(FValidation, r, 0, 0)
    case CoverageEmpty(r) => FindingId(FEmpty, r, 0, 0)
    case UnknownProof(i) => FindingId(FUnknownProof, NameAt(req.plan.validations, ValidationId, i), 0, 0)
    case ProofCoverage(i) => FindingId(FProofCoverage, NameAt(req.plan.validations, ValidationId, i), 0, 0)
    case ValidationAction(i, _) => FindingId(FValidationAction, NameAt(req.plan.validations, ValidationId, i), 0, 0)
    case Dependency(d) => DependencyFindingId(req.plan, d)
    case TargetNotAllowed(i) => FindingId(FTarget, "", i, 0)
    case TargetConflict(i, j) => FindingId(FConflict, "", i, j)
    case ActionTarget(i, k) => FindingId(FActionTarget, "", i, k)
    case OutputTarget(i, k) => FindingId(FOutputTarget, "", i, k)
    case UnresolvedRisk(i) => FindingId(FRisk, NameAt(req.plan.risks, RiskId, i), 0, 0)
    case CannotRun(i) => FindingId(FActivation, NameAt(req.plan.actions, ActionId, i), 0, 0)
  }

  function DependencyFindingId(plan: Plan, d: D.Finding): FindingId {
    match d
    case MissingDependency(i, _) => FindingId(FDependencyMissing, NameAt(plan.actions, ActionId, i), 0, 0)
    case DependencyCycle(n, _) => FindingId(FCycle, "", n, 0)
    case UnresolvedDependency(k) => FindingId(FDependencyUnresolved, NameAt(plan.dependencies, DependencyId, k), 0, 0)
  }

  function ReportedIds(req: Request, findings: seq<Finding>): seq<FindingId> {
    seq(|findings|, i requires 0 <= i < |findings| => Id(req, findings[i]))
  }

  function PrintedIds(req: Request, findings: seq<Finding>): seq<string> {
    seq(|findings|, i requires 0 <= i < |findings| => Print(Id(req, findings[i])))
  }

  // Finding ids are identifiers and none is given twice.
  predicate IdsAccepted(ids: seq<string>) {
    Distinct(ids) && AllIdentifiers(ids)
  }

  datatype Decision = Decision(verdict: Verdict, blocking: bool, ready: bool, findings: seq<Finding>, rejected: seq<string>)

  datatype Analysis = Decided(decision: Decision) | Raised

  // The invariant the engine's own validator checks on a decision.
  predicate DecisionInvariant(req: Request, d: Decision) {
    && IdsAccepted(PrintedIds(req, d.findings)) && IdsAccepted(d.rejected)
    && ((d.verdict == NoMaterialGap) == (!d.blocking && d.ready && d.findings == []))
    && (d.verdict != NoMaterialGap ==> d.blocking && !d.ready && d.findings != [])
  }

  function DependencyActions(plan: Plan): seq<D.Action> {
    seq(|plan.actions|, i requires 0 <= i < |plan.actions| => D.Action(plan.actions[i].actionId, plan.actions[i].dependsOn))
  }

  // What the dependency checker promises of its findings.
  ghost predicate DependencyFindings(plan: Plan, found: seq<D.Finding>) {
    var table := D.Table(DependencyActions(plan));
    && (forall i: nat, k: nat :: D.MissingDependency(i, k) in found <==>
          (i < |plan.actions| && k < |plan.actions[i].dependsOn| && plan.actions[i].dependsOn[k] !in table))
    && ((exists d: D.Finding :: d in found && d.DependencyCycle?) <==> D.HasCycle(table))
    && (forall i :: 0 <= i < |found| && found[i].DependencyCycle? ==> found[i].number == i + 1)
    && (forall k: nat :: D.UnresolvedDependency(k) in found <==>
          (k < |plan.dependencies| && plan.dependencies[k].unresolved))
    && Distinct(found)
  }

  function Wrap(found: seq<D.Finding>): seq<Finding> {
    seq(|found|, i requires 0 <= i < |found| => Dependency(found[i]))
  }

  method DependencyCheck(plan: Plan) returns (found: seq<D.Finding>)
    ensures DependencyFindings(plan, found)
  {
    found := D.Check(DependencyActions(plan), plan.dependencies);
  }

  // Everything the six checkers find: the findings of each, in their order.
  ghost predicate CheckersFind(req: Request, evidence: seq<Finding>, dependency: seq<D.Finding>, findings: seq<Finding>) {
    && DependencyFindings(req.plan, dependency)
    && (forall f :: f in findings <==>
          || f in evidence || CoverageReports(req.success, req.plan, f)
          || (f.Dependency? && f.finding in dependency)
          || AuthorityReports(req.plan, f) || ActivationReports(req, f))
    && (Distinct(evidence) ==> Distinct(findings))
    && (!Distinct(evidence) ==> !Distinct(findings))
  }

  method RunCheckers(req: Request, evidence: seq<Finding>) returns (findings: seq<Finding>, ghost dependency: seq<D.Finding>)
    requires FromEvidence(evidence)
    ensures CheckersFind(req, evidence, dependency, findings)
  {
    var coverage := CoverageCheck(req.success, req.plan);
    var found := DependencyCheck(req.plan);
    dependency := found;
    var authority := AuthorityCheck(req.plan);
    var activation := ActivationCheck(req);
    findings := evidence + coverage + Wrap(found) + authority + activation;
    Gathered(evidence, coverage, found, authority, activation);
  }

  lemma WrapMembers(found: seq<D.Finding>)
    ensures forall f: Finding :: f in Wrap(found) <==> f.Dependency? && f.finding in found
    ensures Distinct(found) ==> Distinct(Wrap(found))
  {
    forall f: Finding | f.Dependency? && f.finding in found ensures f in Wrap(found) {
      var i :| 0 <= i < |found| && found[i] == f.finding;
      assert Wrap(found)[i] == f;
    }
  }

  lemma Gathered(evidence: seq<Finding>, coverage: seq<Finding>, found: seq<D.Finding>, authority: seq<Finding>, activation: seq<Finding>)
    requires forall f :: f in evidence ==> f.External?
    requires forall f :: f in coverage ==> !f.External? && !f.Dependency?
    requires forall f :: f in authority ==> !f.External? && !f.Dependency? && f !in coverage
    requires forall f :: f in activation ==> f.CannotRun? && f !in coverage && f !in authority
    requires Distinct(coverage) && Distinct(found) && Distinct(authority) && Distinct(activation)
    ensures var all := evidence + coverage + Wrap(found) + authority + activation;
      && (forall f :: f in all <==>
            f in evidence || f in coverage || (f.Dependency? && f.finding in found) || f in authority || f in activation)
      && (Distinct(evidence) <==> Distinct(all))
  {
    WrapMembers(found);
    var all := evidence + coverage + Wrap(found) + authority + activation;
    if Distinct(evidence) {
      DistinctAppend(evidence, coverage);
      DistinctAppend(evidence + coverage, Wrap(found));
      DistinctAppend(evidence + coverage + Wrap(found), authority);
      DistinctAppend(evidence + coverage + Wrap(found) + authority, activation);
    } else {
      assert forall i :: 0 <= i < |evidence| ==> all[i] == evidence[i];
    }
  }

  method SchemaFindings(errors: nat) returns (findings: seq<Finding>)
    ensures |findings| == errors && forall k :: 0 <= k < errors ==> findings[k] == SchemaError(k + 1)
  {
    findings := [];
    for k := 0 to errors
      invariant |findings| == k && forall j :: 0 <= j < k ==> findings[j] == SchemaError(j + 1)
    {
      findings := findings + [SchemaError(k + 1)];
    }
  }

  // The findings before any semantic review.
  method Deterministic(req: Request, evidence: seq<Finding>) returns (findings: seq<Finding>, ghost dependency: seq<D.Finding>)
    requires FromEvidence(evidence)
    ensures SuccessValid(req.success) && PlanValid(req.plan) ==> CheckersFind(req, evidence, dependency, findings)
    ensures !SuccessValid(req.success) || !PlanValid(req.plan) ==>
      findings == (if SuccessValid(req.success) then [] else [DomainInvalid("success_definition")])
        + (if PlanValid(req.plan) then [] else [DomainInvalid("plan")])
  {
    findings, dependency := [], [];
    if !SuccessValid(req.success) {
      findings := findings + [DomainInvalid("success_definition")];
    }
    if !PlanValid(req.plan) {
      findings := findings + [DomainInvalid("plan")];
    }
    if findings == [] {
      findings, dependency := RunCheckers(req, evidence);
    }
  }

  // The engine re-checks its decision before returning it.
  method Conclude(req: Request, findings: seq<Finding>, rejected: seq<string>) returns (analysis: Analysis)
    ensures analysis == Concluded(req, findings, rejected)
  {
    var clean := findings == [];
    var decision := Decision(if clean then NoMaterialGap else DecisionType(findings), !clean, clean, findings, rejected);
    if !DecisionInvariant(req, decision) {
      return Raised;
    }
    analysis := Decided(decision);
  }

  function DecisionFrom(findings: seq<Finding>, rejected: seq<string>): Decision {
    if findings == [] then Decision(NoMaterialGap, false, true, [], rejected)
    else Decision(DecisionType(findings), true, false, findings, rejected)
  }

  // The validator never objects to anything but a finding id that is repeated
  // or no identifier.
  function Concluded(req: Request, findings: seq<Finding>, rejected: seq<string>): Analysis {
    if IdsAccepted(PrintedIds(req, findings)) && IdsAccepted(rejected) then Decided(DecisionFrom(findings, rejected)) else Raised
  }

  function SchemaErrors(n: nat): seq<Finding> {
    seq(n, k requires 0 <= k < n => SchemaError(k + 1))
  }

  // The decision on a request that failed admission.
  function NotAdmitted(req: Request, schemaErrors: nat, quotable: bool): Analysis {
    if quotable && AllIdentifiers(PrintedIds(req, SchemaErrors(schemaErrors)))
    then Decided(Decision(MaterialGapFound, true, false, SchemaErrors(schemaErrors), []))
    else Raised
  }

  method RefuseSchema(req: Request, schemaErrors: nat, quotable: bool) returns (analysis: Analysis)
    requires schemaErrors > 0
    ensures analysis == NotAdmitted(req, schemaErrors, quotable)
  {
    var errors := SchemaFindings(schemaErrors);
    assert errors == SchemaErrors(schemaErrors);
    var decision := Decision(MaterialGapFound, true, false, errors, []);
    SchemaIdsDistinct(req, schemaErrors);
    if !quotable || !DecisionInvariant(req, decision) {
      return Raised;
    }
    analysis := Decided(decision);
  }

  lemma SchemaIdsDistinct(req: Request, schemaErrors: nat)
    ensures Distinct(PrintedIds(req, SchemaErrors(schemaErrors)))
  {
    var errors := SchemaErrors(schemaErrors);
    forall i, j | 0 <= i < j < |errors| ensures PrintedIds(req, errors)[i] != PrintedIds(req, errors)[j] {
      PrintInjective(Id(req, errors[i]), Id(req, errors[j]));
    }
  }

  // The analysis of a request: what it found deterministically, and the
  // decision drawn from that.
  ghost predicate Analyzed(req: Request, around: Surroundings, analysis: Analysis,
                           deterministic: seq<Finding>, dependency: seq<D.Finding>) {
    if around.schemaErrors > 0 then
      analysis == NotAdmitted(req, around.schemaErrors, around.quotable)
    else
      && (SuccessValid(req.success) && PlanValid(req.plan) ==> CheckersFind(req, around.evidence, dependency, deterministic))
      && (!SuccessValid(req.success) || !PlanValid(req.plan) ==>
            deterministic == (if SuccessValid(req.success) then [] else [DomainInvalid("success_definition")])
              + (if PlanValid(req.plan) then [] else [DomainInvalid("plan")]))
      && analysis == (if deterministic == [] then Reviewed(req, around) else Concluded(req, deterministic, []))
  }

  // With nothing found so far the review is validated before it counts.
  function Reviewed(req: Request, around: Surroundings): Analysis {
    if ReviewValid(req, around.reviewer) then Concluded(req, around.accepted, around.rejected) else Raised
  }

  // ----- Readiness -----

  ghost predicate Contained(path: string, targets: seq<Target>) {
    exists t :: t in targets && t.allowed && Contains(ParsePath(t.path), ParsePath(path))
  }

  // Neither path is a prefix of the other.
  ghost predicate Apart(path: string, excluded: seq<string>) {
    forall e :: e in excluded ==>
      !Contains(ParsePath(e), ParsePath(path)) && !Contains(ParsePath(path), ParsePath(e))
  }

  // Every target is allowed and kept apart from the exclusions, and so is
  // everything an action touches or produces, inside the targets.
  ghost predicate AuthoritySound(plan: Plan) {
    && (forall t :: t in plan.targets ==> t.allowed && Apart(t.path, plan.excluded))
    && (forall a, p :: a in plan.actions && p in a.targetPaths ==> Contained(p, plan.targets) && Apart(p, plan.excluded))
    && (forall a, o :: a in plan.actions && o in a.outputs && o.path.Some? ==>
          && Contained(o.path.value, plan.targets) && Apart(o.path.value, plan.excluded)
          && exists p :: p in a.targetPaths && Contains(ParsePath(p), ParsePath(o.path.value)))
    && (forall r :: r in plan.risks ==> !r.unresolved)
  }

  lemma AllowedTargetIsContained(targets: seq<Target>, path: string)
    ensures AllowedTarget(targets, path) <==> Contained(path, targets)
  {
    forall t | t in targets ensures Inside(path, t.path) <==> Contains(ParsePath(t.path), ParsePath(path)) {
      InsideIsContainment(path, t.path);
    }
  }

  lemma NotExcludedIsApart(excluded: seq<string>, path: string)
    ensures !Excluded(excluded, path) <==> Apart(path, excluded)
  {
    forall e | e in excluded
      ensures Overlaps(path, e) <==> Contains(ParsePath(e), ParsePath(path)) || Contains(ParsePath(path), ParsePath(e))
    {
      OverlapIsComparability(path, e);
      InsideIsContainment(path, e);
      InsideIsContainment(e, path);
    }
  }

  lemma InActionIsContained(paths: seq<string>, path: string)
    ensures InAction(paths, path) <==> exists p :: p in paths && Contains(ParsePath(p), ParsePath(path))
  {
    forall p | p in paths ensures Inside(path, p) <==> Contains(ParsePath(p), ParsePath(path)) {
      InsideIsContainment(path, p);
    }
  }

  lemma QuietTarget(plan: Plan, t: Target)
    requires t in plan.targets && forall f :: !AuthorityReports(plan, f)
    ensures t.allowed && Apart(t.path, plan.excluded)
  {
    var i :| 0 <= i < |plan.targets| && plan.targets[i] == t;
    assert !AuthorityReports(plan, TargetNotAllowed(i));
    forall e | e in plan.excluded ensures !Overlaps(t.path, e) {
      var j :| 0 <= j < |plan.excluded| && plan.excluded[j] == e;
      assert !AuthorityReports(plan, TargetConflict(i, j));
    }
    NotExcludedIsApart(plan.excluded, t.path);
  }

  lemma QuietPath(plan: Plan, a: Action, p: string)
    requires a in plan.actions && p in a.targetPaths && forall f :: !AuthorityReports(plan, f)
    ensures Contained(p, plan.targets) && Apart(p, plan.excluded)
  {
    var i :| 0 <= i < |plan.actions| && plan.actions[i] == a;
    var k :| 0 <= k < |a.targetPaths| && a.targetPaths[k] == p;
    assert !AuthorityReports(plan, ActionTarget(i, k));
    AllowedTargetIsContained(plan.targets, p);
    NotExcludedIsApart(plan.excluded, p);
  }

  lemma QuietOutput(plan: Plan, a: Action, o: Output)
    requires a in plan.actions && o in a.outputs && o.path.Some? && forall f :: !AuthorityReports(plan, f)
    ensures OutputSound(plan, a, o.path.value)
  {
    var i :| 0 <= i < |plan.actions| && plan.actions[i] == a;
    var k :| 0 <= k < |a.outputs| && a.outputs[k] == o;
    assert !AuthorityReports(plan, OutputTarget(i, k));
    OutputEscapesExactly(plan, a, o.path.value);
  }

  lemma QuietRisk(plan: Plan, r: Risk)
    requires r in plan.risks && forall f :: !AuthorityReports(plan, f)
    ensures !r.unresolved
  {
    var i :| 0 <= i < |plan.risks| && plan.risks[i] == r;
    assert !AuthorityReports(plan, UnresolvedRisk(i));
  }

  lemma AuthorityQuietMeansSound(plan: Plan)
    requires forall f :: !AuthorityReports(plan, f)
    ensures AuthoritySound(plan)
  {
    forall t | t in plan.targets ensures t.allowed && Apart(t.path, plan.excluded) {
      QuietTarget(plan, t);
    }
    forall a, p | a in plan.actions && p in a.targetPaths ensures Contained(p, plan.targets) && Apart(p, plan.excluded) {
      QuietPath(plan, a, p);
    }
    forall a, o | a in plan.actions && o in a.outputs && o.path.Some? ensures OutputSound(plan, a, o.path.value) {
      QuietOutput(plan, a, o);
    }
    forall r | r in plan.risks ensures !r.unresolved {
      QuietRisk(plan, r);
    }
  }

  ghost predicate OutputSound(plan: Plan, a: Action, path: string) {
    && Contained(path, plan.targets) && Apart(path, plan.excluded)
    && exists p :: p in a.targetPaths && Contains(ParsePath(p), ParsePath(path))
  }

  lemma OutputEscapesExactly(plan: Plan, a: Action, path: string)
    ensures OutputEscapes(plan, a, path) <==> !OutputSound(plan, a, path)
  {
    AllowedTargetIsContained(plan.targets, path);
    NotExcludedIsApart(plan.excluded, path);
    InActionIsContained(a.targetPaths, path);
  }

  lemma AuthoritySoundMeansQuiet(plan: Plan, f: Finding)
    requires AuthoritySound(plan)
    ensures !AuthorityReports(plan, f)
  {
    match f
    case TargetConflict(i, j) =>
      if i < |plan.targets| && j < |plan.excluded| {
        assert plan.targets[i] in plan.targets && plan.excluded[j] in plan.excluded;
        NotExcludedIsApart(plan.excluded, plan.targets[i].path);
      }
    case ActionTarget(i, k) =>
      if i < |plan.actions| && k < |plan.actions[i].targetPaths| {
        assert plan.actions[i] in plan.actions && plan.actions[i].targetPaths[k] in plan.actions[i].targetPaths;
        AllowedTargetIsContained(plan.targets, plan.actions[i].targetPaths[k]);
        NotExcludedIsApart(plan.excluded, plan.actions[i].targetPaths[k]);
      }
    case OutputTarget(i, k) =>
      if i < |plan.actions| && k < |plan.actions[i].outputs| && plan.actions[i].outputs[k].path.Some? {
        assert plan.actions[i] in plan.actions && plan.actions[i].outputs[k] in plan.actions[i].outputs;
        OutputEscapesExactly(plan, plan.actions[i], plan.actions[i].outputs[k].path.value);
      }
    case _ =>
  }

  ghost predicate IsAction(plan: Plan, id: string) {
    exists a :: a in plan.actions && a.actionId == id
  }

  ghost predicate IsValidation(plan: Plan, id: string) {
    exists v :: v in plan.validations && v.validationId == id
  }

  ghost predicate IsRequirement(success: Success, id: string) {
    exists r :: r in success.requirements && r.requirementId == id
  }

  // A requirement has a coverage row that names existing actions and
  // validations, and some action and some validation take it on.
  ghost predicate Covered(plan: Plan, r: string) {
    && (exists row :: SoundRow(plan, r, row))
    && (exists a :: a in plan.actions && r in a.requirementIds)
    && (exists v :: v in plan.validations && r in v.requirementIds)
  }

  ghost predicate Proves(success: Success, v: Validation) {
    exists p :: p in success.proofs && p.proofId == v.proofId && forall r :: r in v.requirementIds ==> r in p.requirementIds
  }

  ghost predicate RefsSound(success: Success, plan: Plan) {
    && (forall row :: row in plan.coverage ==> IsRequirement(success, row.requirementId))
    && (forall a, r :: a in plan.actions && r in a.requirementIds ==> IsRequirement(success, r))
    && (forall v, r :: v in plan.validations && r in v.requirementIds ==> IsRequirement(success, r))
    && (forall p, r :: p in success.proofs && r in p.requirementIds ==> IsRequirement(success, r))
  }

  ghost predicate ValidationsSound(success: Success, plan: Plan) {
    forall v :: v in plan.validations ==> Proves(success, v) && forall id :: id in v.actionIds ==> IsAction(plan, id)
  }

  ghost predicate CoverageSound(success: Success, plan: Plan) {
    && RefsSound(success, plan)
    && (forall q :: q in success.requirements && q.blocking ==> Covered(plan, q.requirementId))
    && ValidationsSound(success, plan)
  }

  ghost predicate DependenciesSound(plan: Plan) {
    && (forall a, d :: a in plan.actions && d in a.dependsOn ==> IsAction(plan, d))
    && !D.HasCycle(D.Table(DependencyActions(plan)))
    && (forall d :: d in plan.dependencies ==> !d.unresolved)
  }

  ghost predicate AllRunnable(req: Request) {
    forall a :: a in req.plan.actions ==> Runnable(ById(req.capabilities, CapabilityId), req.authorityIds, a)
  }

  ghost predicate Ready(req: Request) {
    && SuccessValid(req.success) && PlanValid(req.plan)
    && CoverageSound(req.success, req.plan) && DependenciesSound(req.plan)
    && AuthoritySound(req.plan) && AllRunnable(req)
  }

  // Membership in a dictionary of actions or validations, over the list.
  lemma ActionKeys(plan: Plan, id: string)
    ensures id in ById(plan.actions, ActionId) <==> IsAction(plan, id)
  {
    ByIdLooksUp(plan.actions, ActionId);
    if id in ById(plan.actions, ActionId) {
      var i :| 0 <= i < |plan.actions| && ActionId(plan.actions[i]) == id;
      assert plan.actions[i] in plan.actions;
    }
    if a :| a in plan.actions && a.actionId == id {
      var i :| 0 <= i < |plan.actions| && plan.actions[i] == a;
      assert ActionId(plan.actions[i]) == id;
    }
  }

  lemma ValidationKeys(plan: Plan, id: string)
    ensures id in ById(plan.validations, ValidationId) <==> IsValidation(plan, id)
  {
    ByIdLooksUp(plan.validations, ValidationId);
    if id in ById(plan.validations, ValidationId) {
      var i :| 0 <= i < |plan.validations| && ValidationId(plan.validations[i]) == id;
      assert plan.validations[i] in plan.validations;
    }
    if v :| v in plan.validations && v.validationId == id {
      var i :| 0 <= i < |plan.validations| && plan.validations[i] == v;
      assert ValidationId(plan.validations[i]) == id;
    }
  }

  lemma RefsExactly(success: Success, plan: Plan)
    ensures RefsSound(success, plan) <==>
      (forall f :: !RefReports(success, plan, f)) && (forall f :: !ProofReports(success, f))
  {
    var known := Names(success.requirements);
    forall r ensures r in known <==> IsRequirement(success, r) {
    }
    var unknown := Unknown(known, AllRefs(plan));
    assert unknown != [] ==> unknown[0] in unknown;
    if RefsSound(success, plan) {
      forall r | r in AllRefs(plan) ensures r in known {
        RefComesFrom(plan, r);
      }
      forall f ensures !ProofReports(success, f) {
        if f.ProofRequirement? && f.proof < |success.proofs| && f.position < |success.proofs[f.proof].requirementIds| {
          assert success.proofs[f.proof] in success.proofs;
        }
      }
    }
    if (forall f :: !RefReports(success, plan, f)) && (forall f :: !ProofReports(success, f)) {
      assert !RefReports(success, plan, UnknownRequirement(1));
      forall r | r in AllRefs(plan) ensures r in known {
        assert r !in unknown;
      }
      RefsCollected(plan);
      forall p, r | p in success.proofs && r in p.requirementIds ensures r in known {
        var i :| 0 <= i < |success.proofs| && success.proofs[i] == p;
        var k :| 0 <= k < |p.requirementIds| && p.requirementIds[k] == r;
        assert !ProofReports(success, ProofRequirement(i, k));
      }
    }
  }

  lemma RefComesFrom(plan: Plan, r: string)
    requires r in AllRefs(plan)
    ensures
      || (exists row :: row in plan.coverage && row.requirementId == r)
      || (exists a :: a in plan.actions && r in a.requirementIds)
      || (exists v :: v in plan.validations && r in v.requirementIds)
  {
    if r in Ids(plan.coverage, RowId) {
      var i :| 0 <= i < |plan.coverage| && Ids(plan.coverage, RowId)[i] == r;
      assert RowId(plan.coverage[i]) == r && plan.coverage[i] in plan.coverage;
    } else if r in ActionRefs(plan.actions) {
      var i :| 0 <= i < |plan.actions| && r in plan.actions[i].requirementIds;
      assert plan.actions[i] in plan.actions;
    } else {
      var i :| 0 <= i < |plan.validations| && r in plan.validations[i].requirementIds;
      assert plan.validations[i] in plan.validations;
    }
  }

  lemma RefsCollected(plan: Plan)
    ensures forall row :: row in plan.coverage ==> row.requirementId in AllRefs(plan)
    ensures forall a, r :: a in plan.actions && r in a.requirementIds ==> r in AllRefs(plan)
    ensures forall v, r :: v in plan.validations && r in v.requirementIds ==> r in AllRefs(plan)
  {
    forall row | row in plan.coverage ensures row.requirementId in AllRefs(plan) {
      var i :| 0 <= i < |plan.coverage| && plan.coverage[i] == row;
      assert Ids(plan.coverage, RowId)[i] == RowId(row) == row.requirementId;
    }
    forall a, r | a in plan.actions && r in a.requirementIds ensures r in AllRefs(plan) {
      assert r in ActionRefs(plan.actions);
    }
    forall v, r | v in plan.validations && r in v.requirementIds ensures r in AllRefs(plan) {
      assert r in ValidationRefs(plan.validations);
    }
  }

  ghost predicate SoundRow(plan: Plan, r: string, row: Row) {
    && row in plan.coverage && row.requirementId == r
    && (forall id :: id in row.actionIds ==> IsAction(plan, id))
    && (forall id :: id in row.validationIds ==> IsValidation(plan, id))
  }

  lemma RowExactly(plan: Plan, r: string)
    requires PlanValid(plan)
    ensures (exists row :: SoundRow(plan, r, row)) <==>
      var rows := ById(plan.coverage, RowId);
      && r in rows && AllIn(rows[r].actionIds, ById(plan.actions, ActionId))
      && AllIn(rows[r].validationIds, ById(plan.validations, ValidationId))
  {
    ByIdLooksUp(plan.coverage, RowId);
    forall id ensures id in ById(plan.actions, ActionId) <==> IsAction(plan, id) { ActionKeys(plan, id); }
    forall id ensures id in ById(plan.validations, ValidationId) <==> IsValidation(plan, id) { ValidationKeys(plan, id); }
    if row :| SoundRow(plan, r, row) {
      LooksUpItself(plan.coverage, RowId, row);
    }
    var rows := ById(plan.coverage, RowId);
    if r in rows && AllIn(rows[r].actionIds, ById(plan.actions, ActionId))
      && AllIn(rows[r].validationIds, ById(plan.validations, ValidationId)) {
      assert SoundRow(plan, r, rows[r]);
    }
  }

  // The four findings about a blocking requirement are absent exactly when it is covered.
  lemma CoveredExactly(plan: Plan, r: string)
    requires PlanValid(plan)
    ensures Covered(plan, r) <==>
      && !BlockingReports(plan, NoCoverageRow(r)) && !BlockingReports(plan, CoverageAction(r))
      && !BlockingReports(plan, CoverageValidation(r)) && !BlockingReports(plan, CoverageEmpty(r))
  {
    RowExactly(plan, r);
    SomeCovers(plan, r);
  }

  lemma SomeCovers(plan: Plan, r: string)
    requires PlanValid(plan)
    ensures SomeActionCovers(ById(plan.actions, ActionId), r) <==> exists a :: a in plan.actions && r in a.requirementIds
    ensures SomeValidationCovers(ById(plan.validations, ValidationId), r) <==>
      exists v :: v in plan.validations && r in v.requirementIds
  {
    ByIdLooksUp(plan.actions, ActionId);
    ByIdLooksUp(plan.validations, ValidationId);
    if a :| a in plan.actions && r in a.requirementIds {
      LooksUpItself(plan.actions, ActionId, a);
      assert ActionId(a) in ById(plan.actions, ActionId);
    }
    if v :| v in plan.validations && r in v.requirementIds {
      LooksUpItself(plan.validations, ValidationId, v);
      assert ValidationId(v) in ById(plan.validations, ValidationId);
    }
  }

  // The proof a validation names is found and covers it exactly when some proof does.
  lemma ProvesExactly(success: Success, v: Validation)
    requires SuccessValid(success)
    ensures Proves(success, v) <==>
      v.proofId in ById(success.proofs, ProofId) && Covers(ById(success.proofs, ProofId)[v.proofId], v)
  {
    ByIdLooksUp(success.proofs, ProofId);
    if p :| p in success.proofs && p.proofId == v.proofId && forall r :: r in v.requirementIds ==> r in p.requirementIds {
      LooksUpItself(success.proofs, ProofId, p);
    }
  }

  lemma ValidationsExactly(success: Success, plan: Plan)
    requires SuccessValid(success)
    ensures ValidationsSound(success, plan) <==> forall f :: !ValidationReports(success, plan, f)
  {
    forall id ensures id in ById(plan.actions, ActionId) <==> IsAction(plan, id) { ActionKeys(plan, id); }
    if ValidationsSound(success, plan) {
      forall f ensures !ValidationReports(success, plan, f) {
        if (f.UnknownProof? || f.ProofCoverage? || f.ValidationAction?) && f.validation < |plan.validations| {
          assert plan.validations[f.validation] in plan.validations;
          ProvesExactly(success, plan.validations[f.validation]);
        }
      }
    }
    if forall f :: !ValidationReports(success, plan, f) {
      forall v | v in plan.validations ensures Proves(success, v) && forall id :: id in v.actionIds ==> IsAction(plan, id) {
        var i :| 0 <= i < |plan.validations| && plan.validations[i] == v;
        assert !ValidationReports(success, plan, UnknownProof(i)) && !ValidationReports(success, plan, ProofCoverage(i));
        ProvesExactly(success, v);
        forall id | id in v.actionIds ensures IsAction(plan, id) {
          var k :| 0 <= k < |v.actionIds| && v.actionIds[k] == id;
          assert !ValidationReports(success, plan, ValidationAction(i, k));
        }
      }
    }
  }

  lemma CoverageExactly(success: Success, plan: Plan)
    requires SuccessValid(success) && PlanValid(plan)
    ensures CoverageSound(success, plan) <==> forall f :: !CoverageReports(success, plan, f)
  {
    RefsExactly(success, plan);
    ValidationsExactly(success, plan);
    var blocking := BlockingIds(success.requirements);
    if CoverageSound(success, plan) {
      forall f ensures !CoverageReports(success, plan, f) {
        if BlockingReports(plan, f) && f.requirement in blocking {
          var i :| 0 <= i < |success.requirements| && success.requirements[i].requirementId == f.requirement && success.requirements[i].blocking;
          assert success.requirements[i] in success.requirements;
          CoveredExactly(plan, f.requirement);
        }
      }
    }
    if forall f :: !CoverageReports(success, plan, f) {
      QuietParts(success, plan);
      forall q | q in success.requirements && q.blocking ensures Covered(plan, q.requirementId) {
        var r := q.requirementId;
        var i :| 0 <= i < |success.requirements| && success.requirements[i] == q;
        assert r in blocking;
        assert !CoverageReports(success, plan, NoCoverageRow(r)) && !CoverageReports(success, plan, CoverageAction(r));
        assert !CoverageReports(success, plan, CoverageValidation(r)) && !CoverageReports(success, plan, CoverageEmpty(r));
        CoveredExactly(plan, r);
      }
    }
  }

  lemma QuietParts(success: Success, plan: Plan)
    requires forall f :: !CoverageReports(success, plan, f)
    ensures forall f :: !RefReports(success, plan, f)
    ensures forall f :: !ProofReports(success, f)
    ensures forall f :: !ValidationReports(success, plan, f)
  {
    forall f ensures !RefReports(success, plan, f) && !ProofReports(success, f) && !ValidationReports(success, plan, f) {
      assert !CoverageReports(success, plan, f);
    }
  }

  lemma DependenciesExactly(plan: Plan, found: seq<D.Finding>)
    requires DependencyFindings(plan, found)
    ensures DependenciesSound(plan) <==> found == []
  {
    var actions := DependencyActions(plan);
    var table := D.Table(actions);
    forall id ensures id in table <==> IsAction(plan, id) {
      if id in table {
        var i :| 0 <= i < |actions| && actions[i].actionId == id;
        assert plan.actions[i] in plan.actions;
      }
      if a :| a in plan.actions && a.actionId == id {
        var i :| 0 <= i < |plan.actions| && plan.actions[i] == a;
        assert actions[i].actionId == id;
      }
    }
    if found == [] {
      forall a, d | a in plan.actions && d in a.dependsOn ensures IsAction(plan, d) {
        var i :| 0 <= i < |plan.actions| && plan.actions[i] == a;
        var k :| 0 <= k < |a.dependsOn| && a.dependsOn[k] == d;
        assert D.MissingDependency(i, k) !in found;
      }
      forall d | d in plan.dependencies ensures !d.unresolved {
        var k :| 0 <= k < |plan.dependencies| && plan.dependencies[k] == d;
        assert D.UnresolvedDependency(k) !in found;
      }
    } else {
      var f := found[0];
      assert f in found;
      match f
      case MissingDependency(i, k) => assert plan.actions[i] in plan.actions && plan.actions[i].dependsOn[k] in plan.actions[i].dependsOn;
      case DependencyCycle(_, _) =>
      case UnresolvedDependency(k) => assert plan.dependencies[k] in plan.dependencies;
    }
  }

  lemma ActivationExactly(req: Request)
    ensures AllRunnable(req) <==> forall f :: !ActivationReports(req, f)
  {
    if AllRunnable(req) {
      forall f ensures !ActivationReports(req, f) {
        if f.CannotRun? && f.action < |req.plan.actions| {
          assert req.plan.actions[f.action] in req.plan.actions;
        }
      }
    }
    if forall f :: !ActivationReports(req, f) {
      forall a | a in req.plan.actions ensures Runnable(ById(req.capabilities, CapabilityId), req.authorityIds, a) {
        var i :| 0 <= i < |req.plan.actions| && req.plan.actions[i] == a;
        assert !ActivationReports(req, CannotRun(i));
      }
    }
  }

  // The checkers are silent exactly when the plan is sound in every respect.
  lemma SilentExactly(req: Request, evidence: seq<Finding>, dependency: seq<D.Finding>, findings: seq<Finding>)
    requires SuccessValid(req.success) && PlanValid(req.plan)
    requires CheckersFind(req, evidence, dependency, findings)
    ensures findings == [] <==> evidence == [] && Ready(req)
  {
    CoverageExactly(req.success, req.plan);
    DependenciesExactly(req.plan, dependency);
    ActivationExactly(req);
    assert evidence != [] ==> evidence[0] in findings;
    assert dependency != [] ==> Dependency(dependency[0]) in findings;
    if findings == [] {
      forall f ensures !AuthorityReports(req.plan, f) { assert f !in findings; }
      forall f ensures !CoverageReports(req.success, req.plan, f) { assert f !in findings; }
      forall f ensures !ActivationReports(req, f) { assert f !in findings; }
      AuthorityQuietMeansSound(req.plan);
    } else if evidence == [] && Ready(req) {
      assert findings[0] in findings;
      AuthoritySoundMeansQuiet(req.plan, findings[0]);
      assert false;
    }
  }

  ghost predicate DeclaresReady(analysis: Analysis) {
    analysis.Decided? && analysis.decision.ready
  }

  // The request passed admission and is sound, and nobody else found anything.
  ghost predicate ReadyAround(req: Request, around: Surroundings) {
    && around.schemaErrors == 0 && around.evidence == [] && Ready(req)
    && ReviewValid(req, around.reviewer) && around.accepted == [] && IdsAccepted(around.rejected)
  }

  // The flags, the verdict and the findings of a decision agree.
  ghost predicate Coherent(decision: Decision) {
    && (decision.ready <==> decision.verdict == NoMaterialGap)
    && (decision.ready <==> !decision.blocking)
    && (decision.ready <==> decision.findings == [])
  }

  lemma ConcludedReady(req: Request, findings: seq<Finding>, rejected: seq<string>)
    ensures DeclaresReady(Concluded(req, findings, rejected)) <==> findings == [] && IdsAccepted(rejected)
    ensures Concluded(req, findings, rejected).Decided? ==> Coherent(Concluded(req, findings, rejected).decision)
  {
    assert findings == [] ==> PrintedIds(req, findings) == [];
  }

  // A request is declared ready for execution exactly when it passes schema
  // admission, is sound in every respect, and neither the evidence checks nor
  // a valid review found anything.
  lemma ReadyExactly(req: Request, around: Surroundings, analysis: Analysis, deterministic: seq<Finding>, dependency: seq<D.Finding>)
    requires Analyzed(req, around, analysis, deterministic, dependency)
    ensures DeclaresReady(analysis) <==> ReadyAround(req, around)
    ensures analysis.Decided? ==> Coherent(analysis.decision)
  {
    if around.schemaErrors == 0 {
      if deterministic == [] {
        ConcludedReady(req, around.accepted, around.rejected);
      } else {
        ConcludedReady(req, deterministic, []);
      }
      assert deterministic == [] <==> around.evidence == [] && Ready(req) by {
        if SuccessValid(req.success) && PlanValid(req.plan) {
          SilentExactly(req, around.evidence, dependency, deterministic);
        }
      }
    }
  }

  // ----- When the engine's own validator objects -----

  ghost predicate TwoUnknown(plan: Plan, ids: seq<string>) {
    exists j, k :: 0 <= j < k < |ids| && !IsAction(plan, ids[j]) && !IsAction(plan, ids[k])
  }

  ghost predicate RepeatsAnId(req: Request, evidence: seq<Finding>) {
    || !Distinct(ReportedIds(req, evidence))
    || (exists a :: a in req.plan.actions && TwoUnknown(req.plan, a.dependsOn))
    || TwoUnknownValidated(req)
  }

  // A validation whose proof exists names two unknown actions.
  ghost predicate TwoUnknownValidated(req: Request) {
    exists v, p ::
      && v in req.plan.validations && TwoUnknown(req.plan, v.actionIds)
      && p in req.success.proofs && p.proofId == v.proofId
  }

  lemma SameName<T>(items: seq<T>, id: T -> string, i: nat, j: nat)
    requires Distinct(Ids(items, id)) && i < |items| && j < |items|
    requires NameAt(items, id, i) == NameAt(items, id, j)
    ensures i == j
  {
    assert Ids(items, id)[i] == Ids(items, id)[j];
  }

  ghost predicate Found(req: Request, evidence: seq<Finding>, dependency: seq<D.Finding>, f: Finding) {
    || f in evidence || CoverageReports(req.success, req.plan, f)
    || (f.Dependency? && f.finding in dependency)
    || AuthorityReports(req.plan, f) || ActivationReports(req, f)
  }

  // Two different findings of the checkers share an id only if they are about
  // two unknown dependencies of one action, two unknown actions of one
  // validation, or come from the evidence checks.
  ghost predicate MaySharedId(f: Finding, g: Finding) {
    || (f.External? && g.External? && f.id == g.id)
    || (f.ValidationAction? && g.ValidationAction? && f.validation == g.validation)
    || (f.Dependency? && g.Dependency? && f.finding.MissingDependency? && g.finding.MissingDependency?
        && f.finding.actionIndex == g.finding.actionIndex)
  }

  // The position a finding names is one of the plan.
  ghost predicate InBounds(req: Request, f: Finding) {
    match f
    case ProofRequirement(i, _) => i < |req.success.proofs|
    case UnknownProof(i) => i < |req.plan.validations|
    case ProofCoverage(i) => i < |req.plan.validations|
    case ValidationAction(i, _) => i < |req.plan.validations|
    case UnresolvedRisk(i) => i < |req.plan.risks|
    case CannotRun(i) => i < |req.plan.actions|
    case SchemaError(_) => false
    case DomainInvalid(_) => false
    case _ => true
  }

  lemma FoundInBounds(req: Request, evidence: seq<Finding>, dependency: seq<D.Finding>, f: Finding)
    requires FromEvidence(evidence)
    requires Found(req, evidence, dependency, f)
    ensures InBounds(req, f)
    ensures f.Dependency? ==> f.finding in dependency
  {
  }

  lemma SharedIdInBounds(req: Request, f: Finding, g: Finding)
    requires SuccessValid(req.success) && PlanValid(req.plan)
    requires InBounds(req, f) && InBounds(req, g) && !f.Dependency?
    requires f != g && Id(req, f) == Id(req, g)
    ensures MaySharedId(f, g)
  {
    match f
    case ValidationAction(i, _) => SameName(req.plan.validations, ValidationId, i, g.validation);
    case UnknownProof(i) => SameName(req.plan.validations, ValidationId, i, g.validation);
    case ProofCoverage(i) => SameName(req.plan.validations, ValidationId, i, g.validation);
    case ProofRequirement(i, _) => SameName(req.success.proofs, ProofId, i, g.proof);
    case UnresolvedRisk(i) => SameName(req.plan.risks, RiskId, i, g.risk);
    case CannotRun(i) => SameName(req.plan.actions, ActionId, i, g.action);
    case _ =>
  }

  lemma SharedId(req: Request, evidence: seq<Finding>, dependency: seq<D.Finding>, f: Finding, g: Finding)
    requires SuccessValid(req.success) && PlanValid(req.plan) && DependencyFindings(req.plan, dependency)
    requires FromEvidence(evidence)
    requires Found(req, evidence, dependency, f) && Found(req, evidence, dependency, g)
    requires f != g && Id(req, f) == Id(req, g)
    ensures MaySharedId(f, g)
  {
    FoundInBounds(req, evidence, dependency, f);
    FoundInBounds(req, evidence, dependency, g);
    if f.Dependency? {
      SharedDependencyId(req.plan, dependency, f.finding, g.finding);
    } else {
      SharedIdInBounds(req, f, g);
    }
  }

  lemma SharedDependencyId(plan: Plan, dependency: seq<D.Finding>, f: D.Finding, g: D.Finding)
    requires PlanValid(plan) && DependencyFindings(plan, dependency)
    requires f in dependency && g in dependency && f != g
    requires DependencyFindingId(plan, f) == DependencyFindingId(plan, g)
    ensures f.MissingDependency? && g.MissingDependency? && f.actionIndex == g.actionIndex
  {
    var p :| 0 <= p < |dependency| && dependency[p] == f;
    var q :| 0 <= q < |dependency| && dependency[q] == g;
    match f
    case MissingDependency(i, _) => SameName(plan.actions, ActionId, i, g.actionIndex);
    case UnresolvedDependency(k) => SameName(plan.dependencies, DependencyId, k, g.dependencyIndex);
    case DependencyCycle(_, _) => assert false;
  }

  lemma SameIdTwice(req: Request, findings: seq<Finding>, f: Finding, g: Finding)
    requires f in findings && g in findings && f != g && Id(req, f) == Id(req, g)
    ensures !Distinct(ReportedIds(req, findings))
  {
    var p :| 0 <= p < |findings| && findings[p] == f;
    var q :| 0 <= q < |findings| && findings[q] == g;
    assert ReportedIds(req, findings)[p] == ReportedIds(req, findings)[q];
  }

  lemma DistinctIdsMeanDistinct(req: Request, findings: seq<Finding>)
    requires Distinct(ReportedIds(req, findings))
    ensures Distinct(findings)
  {
    forall i, j | 0 <= i < j < |findings| ensures findings[i] != findings[j] {
      assert ReportedIds(req, findings)[i] != ReportedIds(req, findings)[j];
    }
  }

  // A repeated unknown reference produces two findings with one id.
  lemma RepeatMeansShared(req: Request, evidence: seq<Finding>, dependency: seq<D.Finding>, findings: seq<Finding>)
    requires SuccessValid(req.success) && PlanValid(req.plan)
    requires CheckersFind(req, evidence, dependency, findings)
    requires RepeatsAnId(req, evidence)
    ensures !Distinct(ReportedIds(req, findings))
  {
    if a :| a in req.plan.actions && TwoUnknown(req.plan, a.dependsOn) {
      TwoUnknownDependencies(req, evidence, dependency, findings, a);
    } else if v, p :| v in req.plan.validations && TwoUnknown(req.plan, v.actionIds) && p in req.success.proofs && p.proofId == v.proofId {
      TwoUnknownActions(req, evidence, dependency, findings, v, p);
    } else {
      EvidenceRepeats(req, evidence, findings);
    }
  }

  lemma TwoUnknownDependencies(req: Request, evidence: seq<Finding>, dependency: seq<D.Finding>, findings: seq<Finding>, a: Action)
    requires CheckersFind(req, evidence, dependency, findings)
    requires a in req.plan.actions && TwoUnknown(req.plan, a.dependsOn)
    ensures !Distinct(ReportedIds(req, findings))
  {
    var i, j, k := TwoMissing(req.plan, dependency, a);
    FoundIsListed(req, evidence, dependency, findings, Dependency(D.MissingDependency(i, j)));
    FoundIsListed(req, evidence, dependency, findings, Dependency(D.MissingDependency(i, k)));
    SameIdTwice(req, findings, Dependency(D.MissingDependency(i, j)), Dependency(D.MissingDependency(i, k)));
  }

  lemma MissingFound(plan: Plan, dependency: seq<D.Finding>, i: nat, k: nat)
    requires DependencyFindings(plan, dependency)
    requires i < |plan.actions| && k < |plan.actions[i].dependsOn| && !IsAction(plan, plan.actions[i].dependsOn[k])
    ensures D.MissingDependency(i, k) in dependency
  {
    UnknownToTable(plan, plan.actions[i].dependsOn[k]);
  }

  lemma TwoMissing(plan: Plan, dependency: seq<D.Finding>, a: Action) returns (i: nat, j: nat, k: nat)
    requires DependencyFindings(plan, dependency) && a in plan.actions && TwoUnknown(plan, a.dependsOn)
    ensures j < k && D.MissingDependency(i, j) in dependency && D.MissingDependency(i, k) in dependency
  {
    i :| 0 <= i < |plan.actions| && plan.actions[i] == a;
    j, k :| 0 <= j < k < |a.dependsOn| && !IsAction(plan, a.dependsOn[j]) && !IsAction(plan, a.dependsOn[k]);
    MissingFound(plan, dependency, i, j);
    MissingFound(plan, dependency, i, k);
  }

  lemma FoundIsListed(req: Request, evidence: seq<Finding>, dependency: seq<D.Finding>, findings: seq<Finding>, f: Finding)
    requires CheckersFind(req, evidence, dependency, findings)
    ensures f in findings <==> Found(req, evidence, dependency, f)
  {
  }

  lemma TwoUnknownActions(req: Request, evidence: seq<Finding>, dependency: seq<D.Finding>, findings: seq<Finding>, v: Validation, p: Proof)
    requires CheckersFind(req, evidence, dependency, findings)
    requires v in req.plan.validations && TwoUnknown(req.plan, v.actionIds)
    requires p in req.success.proofs && p.proofId == v.proofId
    ensures !Distinct(ReportedIds(req, findings))
  {
    var i :| 0 <= i < |req.plan.validations| && req.plan.validations[i] == v;
    var j, k :| 0 <= j < k < |v.actionIds| && !IsAction(req.plan, v.actionIds[j]) && !IsAction(req.plan, v.actionIds[k]);
    ActionKeys(req.plan, v.actionIds[j]);
    ActionKeys(req.plan, v.actionIds[k]);
    ProofKey(req.success, p);
    assert ValidationReports(req.success, req.plan, ValidationAction(i, j));
    assert ValidationReports(req.success, req.plan, ValidationAction(i, k));
    SameIdTwice(req, findings, ValidationAction(i, j), ValidationAction(i, k));
  }

  lemma ProofKey(success: Success, p: Proof)
    requires p in success.proofs
    ensures p.proofId in ById(success.proofs, ProofId)
  {
    ByIdLooksUp(success.proofs, ProofId);
    var i :| 0 <= i < |success.proofs| && success.proofs[i] == p;
    assert ProofId(success.proofs[i]) == p.proofId;
  }

  lemma UnknownToTable(plan: Plan, id: string)
    ensures id in D.Table(DependencyActions(plan)) <==> IsAction(plan, id)
  {
    var actions := DependencyActions(plan);
    if id in D.Table(actions) {
      var i :| 0 <= i < |actions| && actions[i].actionId == id;
      assert plan.actions[i] in plan.actions;
    }
    if a :| a in plan.actions && a.actionId == id {
      var i :| 0 <= i < |plan.actions| && plan.actions[i] == a;
      assert actions[i].actionId == id;
    }
  }

  lemma EvidenceRepeats(req: Request, evidence: seq<Finding>, findings: seq<Finding>)
    requires !Distinct(ReportedIds(req, evidence))
    requires forall f :: f in evidence ==> f in findings
    requires !Distinct(evidence) ==> !Distinct(findings)
    ensures !Distinct(ReportedIds(req, findings))
  {
    if !Distinct(evidence) {
      if Distinct(ReportedIds(req, findings)) {
        DistinctIdsMeanDistinct(req, findings);
      }
    } else {
      var i, j :| 0 <= i < j < |evidence| && ReportedIds(req, evidence)[i] == ReportedIds(req, evidence)[j];
      SameIdTwice(req, findings, evidence[i], evidence[j]);
    }
  }

  lemma SharedMeansRepeat(req: Request, evidence: seq<Finding>, dependency: seq<D.Finding>, findings: seq<Finding>)
    requires SuccessValid(req.success) && PlanValid(req.plan)
    requires FromEvidence(evidence)
    requires CheckersFind(req, evidence, dependency, findings)
    requires !Distinct(ReportedIds(req, findings))
    ensures RepeatsAnId(req, evidence)
  {
    if Distinct(ReportedIds(req, evidence)) {
      DistinctIdsMeanDistinct(req, evidence);
      var i, j :| 0 <= i < j < |findings| && ReportedIds(req, findings)[i] == ReportedIds(req, findings)[j];
      var f, g := findings[i], findings[j];
      assert f in findings && g in findings && f != g;
      SharedId(req, evidence, dependency, f, g);
      if f.External? {
        if f in evidence && g in evidence {
          SameIdTwice(req, evidence, f, g);
        }
      } else if f.Dependency? {
        UnknownPair(req.plan, dependency, f.finding, g.finding);
      } else {
        UnknownActionPair(req, f, g);
      }
    }
  }

  lemma UnknownPair(plan: Plan, dependency: seq<D.Finding>, f: D.Finding, g: D.Finding)
    requires DependencyFindings(plan, dependency) && f in dependency && g in dependency && f != g
    requires f.MissingDependency? && g.MissingDependency? && f.actionIndex == g.actionIndex
    ensures exists a :: a in plan.actions && TwoUnknown(plan, a.dependsOn)
  {
    var a := plan.actions[f.actionIndex];
    UnknownToTable(plan, a.dependsOn[f.position]);
    UnknownToTable(plan, a.dependsOn[g.position]);
    assert a in plan.actions && f.position != g.position;
    assert TwoUnknown(plan, a.dependsOn);
  }

  lemma UnknownActionPair(req: Request, f: Finding, g: Finding)
    requires ValidationReports(req.success, req.plan, f) && ValidationReports(req.success, req.plan, g) && f != g
    requires f.ValidationAction? && g.ValidationAction? && f.validation == g.validation
    ensures TwoUnknownValidated(req)
  {
    var v := req.plan.validations[f.validation];
    ActionKeys(req.plan, v.actionIds[f.position]);
    ActionKeys(req.plan, v.actionIds[g.position]);
    ByIdLooksUp(req.success.proofs, ProofId);
    var i :| 0 <= i < |req.success.proofs| && ProofId(req.success.proofs[i]) == v.proofId;
    assert req.success.proofs[i] in req.success.proofs;
    assert f.position != g.position && TwoUnknown(req.plan, v.actionIds);
    assert v in req.plan.validations;
  }

  // ----- Ids that are no identifiers -----

  // What schema admission guarantees of the ids that other ids are derived from.
  ghost predicate AdmittedIds(req: Request) {
    && Identifier(req.analysisId)
    && (forall e :: e in req.evidence ==> Identifier(e.evidenceId))
    && (forall a :: a in req.plan.assumptions ==> Identifier(a.assumptionId))
    && (forall a :: a in req.plan.actions ==> Identifier(a.actionId))
    && (forall v :: v in req.plan.validations ==> Identifier(v.validationId))
    && (forall d :: d in req.plan.dependencies ==> Identifier(d.dependencyId))
    && (forall r :: r in req.plan.risks ==> Identifier(r.riskId))
    && (forall q :: q in req.success.requirements ==> Identifier(q.requirementId))
    && (forall p :: p in req.success.proofs ==> Identifier(p.proofId))
  }

  // What schema admission guarantees of lists: none of these is empty.
  ghost predicate Filled(req: Request) {
    && req.success.actorIds != [] && req.success.requirements != [] && req.success.proofs != []
    && (forall p :: p in req.success.proofs ==> p.requirementIds != [])
    && req.plan.targets != [] && req.plan.coverage != [] && req.plan.actions != [] && req.plan.validations != []
    && req.plan.failureIds != [] && req.plan.stopIds != []
    && (forall row :: row in req.plan.coverage ==> row.actionIds != [] && row.validationIds != [])
    && (forall a :: a in req.plan.actions ==> a.requirementIds != [] && a.outputs != [])
    && (forall v :: v in req.plan.validations ==> v.requirementIds != [] && v.actionIds != [] && v.boundary.types != {})
    && req.authorityIds != {}
  }

  ghost predicate NamesUnknown(plan: Plan, ids: seq<string>) {
    exists id :: id in ids && !IsAction(plan, id)
  }

  // An action is reported, and its id leaves no room for what is put before it.
  ghost predicate LongAction(req: Request, a: Action) {
    || (TooLong("dependency.missing.", a.actionId) && NamesUnknown(req.plan, a.dependsOn))
    || (TooLong("activation.", a.actionId) && !Runnable(ById(req.capabilities, CapabilityId), req.authorityIds, a))
  }

  ghost predicate LongRequirement(plan: Plan, r: string) {
    || (TooLong("coverage.missing.", r) && GapsOf(plan, r).row)
    || (TooLong("coverage.action.", r) && GapsOf(plan, r).actions)
    || (TooLong("coverage.validation.", r) && GapsOf(plan, r).validations)
    || (TooLong("coverage.empty.", r) && GapsOf(plan, r).empty)
  }

  ghost predicate HasProof(success: Success, v: Validation) {
    exists p :: p in success.proofs && p.proofId == v.proofId
  }

  ghost predicate LongValidation(req: Request, v: Validation) {
    || (TooLong("proof.unknown.", v.validationId) && !HasProof(req.success, v))
    || (TooLong("proof.coverage.", v.validationId) && HasProof(req.success, v) && !Proves(req.success, v))
    || (TooLong("validation.action.", v.validationId) && HasProof(req.success, v) && NamesUnknown(req.plan, v.actionIds))
  }

  // The position stands behind the id of a proof, so a newline at the end of
  // that id does harm as well.
  ghost predicate LongProof(success: Success, p: Proof) {
    exists k: nat :: k < |p.requirementIds| && !IsRequirement(success, p.requirementIds[k])
      && (TooLong("proof.requirement.", p.proofId + ("." + Decimal(k))) || EndsInNewline(p.proofId))
  }

  // Something the checkers report has an id too long to be reported under.
  ghost predicate LongName(req: Request) {
    || (exists a :: a in req.plan.actions && LongAction(req, a))
    || (exists q :: q in req.success.requirements && q.blocking && LongRequirement(req.plan, q.requirementId))
    || (exists v :: v in req.plan.validations && LongValidation(req, v))
    || (exists p :: p in req.success.proofs && LongProof(req.success, p))
    || (exists d :: d in req.plan.dependencies && d.unresolved && TooLong("dependency.unresolved.", d.dependencyId))
    || (exists r :: r in req.plan.risks && r.unresolved && TooLong("authority.risk.", r.riskId))
  }

  // A count or a position with too many digits; see `LongNumbersAreHuge`.
  ghost predicate LongNumber(req: Request, dependency: seq<D.Finding>) {
    exists f :: Found(req, [], dependency, f) && NumberTooLong(Id(req, f))
  }

  lemma IdProper(req: Request, f: Finding)
    requires f.External? ==> OutsideName(f.id)
    ensures Proper(Id(req, f))
  {
  }

  lemma PrintedAlike(req: Request, f: Finding, g: Finding)
    requires f.External? ==> OutsideName(f.id)
    requires g.External? ==> OutsideName(g.id)
    ensures Print(Id(req, f)) == Print(Id(req, g)) <==> Id(req, f) == Id(req, g)
  {
    IdProper(req, f);
    IdProper(req, g);
    PrintInjective(Id(req, f), Id(req, g));
  }

  // Printing neither adds nor hides a repetition.
  lemma PrintedDistinct(req: Request, findings: seq<Finding>)
    requires forall i :: 0 <= i < |findings| && findings[i].External? ==> OutsideName(findings[i].id)
    ensures Distinct(PrintedIds(req, findings)) <==> Distinct(ReportedIds(req, findings))
  {
    var printed, ids := PrintedIds(req, findings), ReportedIds(req, findings);
    forall i, j | 0 <= i < j < |findings| ensures printed[i] == printed[j] <==> ids[i] == ids[j] {
      PrintedAlike(req, findings[i], findings[j]);
    }
  }

  // A finding the checkers report, without what came from outside.
  ghost predicate Reported(req: Request, dependency: seq<D.Finding>, f: Finding) {
    Found(req, [], dependency, f)
  }

  ghost predicate IsNumbered(id: FindingId) {
    Counted(id.family) || Paired(id.family)
  }

  lemma DependencyNamed(plan: Plan, dependency: seq<D.Finding>, d: D.Finding)
    requires DependencyFindings(plan, dependency) && d in dependency
    requires forall a :: a in plan.actions ==> Identifier(a.actionId)
    requires forall e :: e in plan.dependencies ==> Identifier(e.dependencyId)
    ensures IsNumbered(DependencyFindingId(plan, d)) || Identifier(DependencyFindingId(plan, d).name)
  {
    match d
    case MissingDependency(i, k) => assert plan.actions[i] in plan.actions;
    case UnresolvedDependency(k) => assert plan.dependencies[k] in plan.dependencies;
    case DependencyCycle(_, _) =>
  }

  lemma BlockingNamed(success: Success, r: string)
    ensures r in BlockingIds(success.requirements) <==>
      exists q :: q in success.requirements && q.blocking && q.requirementId == r
  {
    var requirements := success.requirements;
    if r in BlockingIds(requirements) {
      var i :| 0 <= i < |requirements| && requirements[i].requirementId == r && requirements[i].blocking;
      assert requirements[i] in requirements;
    }
  }

  predicate OfRequirement(f: Finding) {
    f.NoCoverageRow? || f.CoverageAction? || f.CoverageValidation? || f.CoverageEmpty?
  }

  lemma PositionNamed(req: Request, f: Finding)
    requires AdmittedIds(req) && InBounds(req, f) && !f.External? && !f.Dependency? && !OfRequirement(f)
    ensures IsNumbered(Id(req, f)) || Identifier(Id(req, f).name)
  {
    match f
    case ProofRequirement(i, _) => assert req.success.proofs[i] in req.success.proofs;
    case UnknownProof(i) => assert req.plan.validations[i] in req.plan.validations;
    case ProofCoverage(i) => assert req.plan.validations[i] in req.plan.validations;
    case ValidationAction(i, _) => assert req.plan.validations[i] in req.plan.validations;
    case UnresolvedRisk(i) => assert req.plan.risks[i] in req.plan.risks;
    case CannotRun(i) => assert req.plan.actions[i] in req.plan.actions;
    case _ =>
  }

  // What the parts of the analysis contribute, told by the kind of finding.
  lemma ReportedParts(req: Request, dependency: seq<D.Finding>, f: Finding)
    ensures OfRequirement(f) ==>
      (Reported(req, dependency, f) <==> BlockingReports(req.plan, f) && f.requirement in BlockingIds(req.success.requirements))
    ensures f.UnknownProof? || f.ProofCoverage? || f.ValidationAction? ==>
      (Reported(req, dependency, f) <==> ValidationReports(req.success, req.plan, f))
    ensures f.ProofRequirement? ==> (Reported(req, dependency, f) <==> ProofReports(req.success, f))
    ensures f.Dependency? ==> (Reported(req, dependency, f) <==> f.finding in dependency)
    ensures f.UnresolvedRisk? ==> (Reported(req, dependency, f) <==> RiskReports(req.plan, f))
    ensures f.CannotRun? ==> (Reported(req, dependency, f) <==> ActivationReports(req, f))
    ensures f.External? || f.SchemaError? || f.DomainInvalid? ==> !Reported(req, dependency, f)
  {
  }

  // What is reported is named after something the plan holds.
  lemma ReportedNamed(req: Request, dependency: seq<D.Finding>, f: Finding)
    requires AdmittedIds(req) && DependencyFindings(req.plan, dependency) && Reported(req, dependency, f)
    ensures !f.External? && (IsNumbered(Id(req, f)) || Identifier(Id(req, f).name))
  {
    ReportedParts(req, dependency, f);
    if f.Dependency? {
      DependencyNamed(req.plan, dependency, f.finding);
    } else if OfRequirement(f) {
      BlockingNamed(req.success, f.requirement);
    } else {
      FoundInBounds(req, [], dependency, f);
      PositionNamed(req, f);
    }
  }

  // Reported under an id that is not admissible.
  ghost predicate Unprintable(req: Request, dependency: seq<D.Finding>, f: Finding) {
    Reported(req, dependency, f) && !Printable(Id(req, f))
  }

  // Which names make an id inadmissible, family by family.
  lemma PrintableNames(req: Request, f: Finding)
    ensures f.NoCoverageRow? ==> (Printable(Id(req, f)) <==> !TooLong("coverage.missing.", f.requirement))
    ensures f.CoverageAction? ==> (Printable(Id(req, f)) <==> !TooLong("coverage.action.", f.requirement))
    ensures f.CoverageValidation? ==> (Printable(Id(req, f)) <==> !TooLong("coverage.validation.", f.requirement))
    ensures f.CoverageEmpty? ==> (Printable(Id(req, f)) <==> !TooLong("coverage.empty.", f.requirement))
  {
  }

  lemma LongRequirementFound(req: Request, dependency: seq<D.Finding>, q: Requirement) returns (f: Finding)
    requires q in req.success.requirements && q.blocking && LongRequirement(req.plan, q.requirementId)
    ensures Unprintable(req, dependency, f)
  {
    var r, gaps := q.requirementId, GapsOf(req.plan, q.requirementId);
    BlockingNamed(req.success, r);
    f := if TooLong("coverage.missing.", r) && gaps.row then NoCoverageRow(r)
      else if TooLong("coverage.action.", r) && gaps.actions then CoverageAction(r)
      else if TooLong("coverage.validation.", r) && gaps.validations then CoverageValidation(r)
      else CoverageEmpty(r);
    ReportedParts(req, dependency, f);
    PrintableNames(req, f);
  }

  lemma RequirementIsLong(req: Request, dependency: seq<D.Finding>, f: Finding)
    requires OfRequirement(f) && Unprintable(req, dependency, f)
    ensures exists q :: q in req.success.requirements && q.blocking && LongRequirement(req.plan, q.requirementId)
  {
    ReportedParts(req, dependency, f);
    BlockingNamed(req.success, f.requirement);
    PrintableNames(req, f);
  }

  lemma PrintableOfValidation(req: Request, f: Finding)
    requires (f.UnknownProof? || f.ProofCoverage? || f.ValidationAction?) && f.validation < |req.plan.validations|
    ensures var id := req.plan.validations[f.validation].validationId;
      Printable(Id(req, f)) <==>
        !TooLong(if f.UnknownProof? then "proof.unknown." else if f.ProofCoverage? then "proof.coverage." else "validation.action.", id)
  {
  }

  lemma ProofKeys(success: Success, v: Validation)
    ensures v.proofId in ById(success.proofs, ProofId) <==> HasProof(success, v)
  {
    ByIdLooksUp(success.proofs, ProofId);
    if v.proofId in ById(success.proofs, ProofId) {
      var i :| 0 <= i < |success.proofs| && ProofId(success.proofs[i]) == v.proofId;
      assert success.proofs[i] in success.proofs;
    }
    if p :| p in success.proofs && p.proofId == v.proofId {
      ProofKey(success, p);
    }
  }

  lemma LongValidationFound(req: Request, dependency: seq<D.Finding>, v: Validation) returns (f: Finding)
    requires SuccessValid(req.success) && v in req.plan.validations && LongValidation(req, v)
    ensures Unprintable(req, dependency, f)
  {
    var i :| 0 <= i < |req.plan.validations| && req.plan.validations[i] == v;
    ProofKeys(req.success, v);
    ProvesExactly(req.success, v);
    if TooLong("proof.unknown.", v.validationId) && !HasProof(req.success, v) {
      f := UnknownProof(i);
    } else if TooLong("proof.coverage.", v.validationId) && HasProof(req.success, v) && !Proves(req.success, v) {
      f := ProofCoverage(i);
    } else {
      var id :| id in v.actionIds && !IsAction(req.plan, id);
      var k :| 0 <= k < |v.actionIds| && v.actionIds[k] == id;
      ActionKeys(req.plan, id);
      f := ValidationAction(i, k);
    }
    ReportedParts(req, dependency, f);
    PrintableOfValidation(req, f);
  }

  lemma ValidationIsLong(req: Request, dependency: seq<D.Finding>, f: Finding)
    requires SuccessValid(req.success) && Unprintable(req, dependency, f)
    requires f.UnknownProof? || f.ProofCoverage? || f.ValidationAction?
    ensures exists v :: v in req.plan.validations && LongValidation(req, v)
  {
    ReportedParts(req, dependency, f);
    PrintableOfValidation(req, f);
    var v := req.plan.validations[f.validation];
    ProofKeys(req.success, v);
    ProvesExactly(req.success, v);
    if f.ValidationAction? {
      ActionKeys(req.plan, v.actionIds[f.position]);
      assert v.actionIds[f.position] in v.actionIds;
    }
    assert v in req.plan.validations && LongValidation(req, v);
  }

  lemma PrintableOfProof(req: Request, f: Finding)
    requires f.ProofRequirement? && f.proof < |req.success.proofs|
    ensures var id := req.success.proofs[f.proof].proofId;
      Printable(Id(req, f)) <==> !TooLong("proof.requirement.", id + ("." + Decimal(f.position))) && !EndsInNewline(id)
  {
  }

  lemma LongProofFound(req: Request, dependency: seq<D.Finding>, p: Proof) returns (f: Finding)
    requires p in req.success.proofs && LongProof(req.success, p)
    ensures Unprintable(req, dependency, f)
  {
    var i :| 0 <= i < |req.success.proofs| && req.success.proofs[i] == p;
    var k: nat :| k < |p.requirementIds| && !IsRequirement(req.success, p.requirementIds[k])
      && (TooLong("proof.requirement.", p.proofId + ("." + Decimal(k))) || EndsInNewline(p.proofId));
    f := ProofRequirement(i, k);
    ReportedParts(req, dependency, f);
    PrintableOfProof(req, f);
  }

  lemma ProofIsLong(req: Request, dependency: seq<D.Finding>, f: Finding)
    requires f.ProofRequirement? && Unprintable(req, dependency, f)
    ensures exists p :: p in req.success.proofs && LongProof(req.success, p)
  {
    ReportedParts(req, dependency, f);
    PrintableOfProof(req, f);
    var p := req.success.proofs[f.proof];
    assert f.position < |p.requirementIds| && !IsRequirement(req.success, p.requirementIds[f.position]);
    assert p in req.success.proofs && LongProof(req.success, p);
  }

  lemma PrintableOfAction(req: Request, f: Finding, i: nat)
    requires i < |req.plan.actions|
    requires f == CannotRun(i) || (f.Dependency? && f.finding.MissingDependency? && f.finding.actionIndex == i)
    ensures Printable(Id(req, f)) <==>
      !TooLong(if f.CannotRun? then "activation." else "dependency.missing.", req.plan.actions[i].actionId)
  {
  }

  lemma LongActionFound(req: Request, dependency: seq<D.Finding>, a: Action) returns (f: Finding)
    requires DependencyFindings(req.plan, dependency) && a in req.plan.actions && LongAction(req, a)
    ensures Unprintable(req, dependency, f)
  {
    var i :| 0 <= i < |req.plan.actions| && req.plan.actions[i] == a;
    if TooLong("activation.", a.actionId) && !Runnable(ById(req.capabilities, CapabilityId), req.authorityIds, a) {
      f := CannotRun(i);
    } else {
      var id :| id in a.dependsOn && !IsAction(req.plan, id);
      var k :| 0 <= k < |a.dependsOn| && a.dependsOn[k] == id;
      MissingFound(req.plan, dependency, i, k);
      f := Dependency(D.MissingDependency(i, k));
    }
    ReportedParts(req, dependency, f);
    PrintableOfAction(req, f, i);
  }

  lemma ActionIsLong(req: Request, dependency: seq<D.Finding>, f: Finding)
    requires DependencyFindings(req.plan, dependency) && Unprintable(req, dependency, f)
    requires f.CannotRun? || (f.Dependency? && f.finding.MissingDependency?)
    ensures exists a :: a in req.plan.actions && LongAction(req, a)
  {
    ReportedParts(req, dependency, f);
    var i := if f.CannotRun? then f.action else f.finding.actionIndex;
    PrintableOfAction(req, f, i);
    var a := req.plan.actions[i];
    if f.Dependency? {
      UnknownToTable(req.plan, a.dependsOn[f.finding.position]);
      assert a.dependsOn[f.finding.position] in a.dependsOn;
    }
    assert a in req.plan.actions && LongAction(req, a);
  }

  lemma LongDependencyFound(req: Request, dependency: seq<D.Finding>, d: D.Dependency) returns (f: Finding)
    requires DependencyFindings(req.plan, dependency) && d in req.plan.dependencies
    requires d.unresolved && TooLong("dependency.unresolved.", d.dependencyId)
    ensures Unprintable(req, dependency, f)
  {
    var k: nat :| k < |req.plan.dependencies| && req.plan.dependencies[k] == d;
    assert D.UnresolvedDependency(k) in dependency;
    f := Dependency(D.UnresolvedDependency(k));
    ReportedParts(req, dependency, f);
  }

  lemma LongRiskFound(req: Request, dependency: seq<D.Finding>, r: Risk) returns (f: Finding)
    requires r in req.plan.risks && r.unresolved && TooLong("authority.risk.", r.riskId)
    ensures Unprintable(req, dependency, f)
  {
    var i: nat :| i < |req.plan.risks| && req.plan.risks[i] == r;
    f := UnresolvedRisk(i);
    ReportedParts(req, dependency, f);
  }

  lemma OtherIsLong(req: Request, dependency: seq<D.Finding>, f: Finding)
    requires DependencyFindings(req.plan, dependency) && Unprintable(req, dependency, f)
    requires f.UnresolvedRisk? || (f.Dependency? && f.finding.UnresolvedDependency?)
    ensures LongName(req)
  {
    ReportedParts(req, dependency, f);
    if f.UnresolvedRisk? {
      assert req.plan.risks[f.risk] in req.plan.risks;
    } else {
      assert req.plan.dependencies[f.finding.dependencyIndex] in req.plan.dependencies;
    }
  }

  // Something is reported under an inadmissible id exactly when a name or a
  // number is too long.
  lemma UnprintableExactly(req: Request, dependency: seq<D.Finding>)
    requires SuccessValid(req.success) && DependencyFindings(req.plan, dependency)
    ensures (exists f :: Unprintable(req, dependency, f)) <==> LongName(req) || LongNumber(req, dependency)
  {
    if LongName(req) {
      var f := LongNameFound(req, dependency);
    } else if f :| Found(req, [], dependency, f) && NumberTooLong(Id(req, f)) {
      assert Unprintable(req, dependency, f);
    }
    if f :| Unprintable(req, dependency, f) {
      UnprintableIsLong(req, dependency, f);
    }
  }

  lemma LongNameFound(req: Request, dependency: seq<D.Finding>) returns (f: Finding)
    requires SuccessValid(req.success) && DependencyFindings(req.plan, dependency) && LongName(req)
    ensures Unprintable(req, dependency, f)
  {
    if a :| a in req.plan.actions && LongAction(req, a) {
      f := LongActionFound(req, dependency, a);
    } else if q :| q in req.success.requirements && q.blocking && LongRequirement(req.plan, q.requirementId) {
      f := LongRequirementFound(req, dependency, q);
    } else if v :| v in req.plan.validations && LongValidation(req, v) {
      f := LongValidationFound(req, dependency, v);
    } else if p :| p in req.success.proofs && LongProof(req.success, p) {
      f := LongProofFound(req, dependency, p);
    } else if d :| d in req.plan.dependencies && d.unresolved && TooLong("dependency.unresolved.", d.dependencyId) {
      f := LongDependencyFound(req, dependency, d);
    } else {
      var r :| r in req.plan.risks && r.unresolved && TooLong("authority.risk.", r.riskId);
      f := LongRiskFound(req, dependency, r);
    }
  }

  lemma UnprintableIsLong(req: Request, dependency: seq<D.Finding>, f: Finding)
    requires SuccessValid(req.success) && DependencyFindings(req.plan, dependency) && Unprintable(req, dependency, f)
    ensures LongName(req) || LongNumber(req, dependency)
  {
    if IsNumbered(Id(req, f)) {
      assert Found(req, [], dependency, f) && NumberTooLong(Id(req, f));
    } else if OfRequirement(f) {
      RequirementIsLong(req, dependency, f);
    } else if f.UnknownProof? || f.ProofCoverage? || f.ValidationAction? {
      ValidationIsLong(req, dependency, f);
    } else if f.ProofRequirement? {
      ProofIsLong(req, dependency, f);
    } else if f.CannotRun? || (f.Dependency? && f.finding.MissingDependency?) {
      ActionIsLong(req, dependency, f);
    } else {
      ReportedParts(req, dependency, f);
      OtherIsLong(req, dependency, f);
    }
  }

  // ----- When the analysis raises -----

  // The engine's validator rejects its own decision, or the review before it.
  // For a request that failed admission: if the decision quotes something
  // invalid. Without findings: if the id of the neutral review is too long, if
  // a supplied review is invalid, or if what substantiation hands on is.
  // With deterministic findings: if an id is repeated, which takes an action
  // with two unknown dependencies, a validation with two unknown actions, or
  // repeated ids from the evidence checks; or if an id is no identifier.
  ghost predicate Objects(req: Request, around: Surroundings, dependency: seq<D.Finding>) {
    if around.schemaErrors > 0 then
      !around.quotable || TooLong("finding.schema.error.", Decimal(around.schemaErrors))
    else if !SuccessValid(req.success) || !PlanValid(req.plan) then
      false
    else if around.evidence == [] && Ready(req) then
      || (around.reviewer.Neutral? && TooLong("review.", req.analysisId))
      || (around.reviewer.Supplied? && !around.reviewer.valid)
      || !IdsAccepted(PrintedIds(req, around.accepted)) || !IdsAccepted(around.rejected)
    else
      || RepeatsAnId(req, around.evidence)
      || LongName(req) || LongNumber(req, dependency)
      || exists e :: e in around.evidence && e.External? && !Identifier(e.id)
  }

  lemma SchemaNumber(req: Request, k: nat, n: nat)
    requires 1 <= k <= n
    ensures Identifier(Print(Id(req, SchemaError(k)))) <==> !TooLong("finding.schema.error.", Decimal(k))
    ensures |Decimal(k)| <= |Decimal(n)|
  {
    PrintableExactly(Id(req, SchemaError(k)));
    DecimalLonger(k, n);
  }

  lemma SchemaNumbers(req: Request, n: nat)
    requires n > 0
    ensures AllIdentifiers(PrintedIds(req, SchemaErrors(n))) <==> !TooLong("finding.schema.error.", Decimal(n))
  {
    var errors := SchemaErrors(n);
    assert errors[n - 1] == SchemaError(n) && errors[n - 1] in errors;
    IdsOfFindings(req, errors);
    SchemaNumber(req, n, n);
    forall f | f in errors
      ensures !TooLong("finding.schema.error.", Decimal(n)) ==> Identifier(Print(Id(req, f)))
    {
      SchemaNumber(req, f.number, n);
    }
  }

  lemma DomainIds(req: Request)
    ensures var (success, plan) := (Id(req, DomainInvalid("success_definition")), Id(req, DomainInvalid("plan")));
      Identifier(Print(success)) && Identifier(Print(plan)) && Print(success) != Print(plan)
  {
    var success, plan := Id(req, DomainInvalid("success_definition")), Id(req, DomainInvalid("plan"));
    FieldNames();
    assert success.name != plan.name;
    PrintInjective(success, plan);
    PrintableExactly(success);
    PrintableExactly(plan);
  }

  lemma FieldNames()
    ensures Identifier("success_definition") && Identifier("plan")
  {
  }

  lemma DomainIdsAccepted(req: Request, findings: seq<Finding>)
    requires findings == (if SuccessValid(req.success) then [] else [DomainInvalid("success_definition")])
      + (if PlanValid(req.plan) then [] else [DomainInvalid("plan")])
    ensures IdsAccepted(PrintedIds(req, findings))
  {
    DomainIds(req);
    IdsOfFindings(req, findings);
  }

  lemma OutsidePrinted(req: Request, f: Finding)
    requires f.External?
    ensures Print(Id(req, f)) == f.id
  {
    assert "" + f.id == f.id;
  }

  lemma ReportedPrintable(req: Request, dependency: seq<D.Finding>, f: Finding)
    requires AdmittedIds(req) && DependencyFindings(req.plan, dependency) && Reported(req, dependency, f)
    ensures !f.External? && (Identifier(Print(Id(req, f))) <==> !Unprintable(req, dependency, f))
  {
    ReportedNamed(req, dependency, f);
    PrintableExactly(Id(req, f));
  }

  // Whether the id a finding is listed under is an identifier.
  lemma ListedPrintable(req: Request, evidence: seq<Finding>, dependency: seq<D.Finding>, f: Finding)
    requires AdmittedIds(req) && FromEvidence(evidence) && DependencyFindings(req.plan, dependency)
    requires f in evidence || Reported(req, dependency, f)
    ensures f in evidence ==> Print(Id(req, f)) == f.id && !Reported(req, dependency, f)
    ensures f !in evidence ==> (Identifier(Print(Id(req, f))) <==> !Unprintable(req, dependency, f))
  {
    if f in evidence {
      OutsidePrinted(req, f);
      ReportedParts(req, dependency, f);
    } else {
      ReportedPrintable(req, dependency, f);
    }
  }

  lemma IdentifiersExactly(req: Request, evidence: seq<Finding>, dependency: seq<D.Finding>, findings: seq<Finding>)
    requires AdmittedIds(req) && SuccessValid(req.success) && FromEvidence(evidence)
    requires CheckersFind(req, evidence, dependency, findings)
    ensures AllIdentifiers(PrintedIds(req, findings)) <==>
      (forall e :: e in evidence ==> Identifier(e.id)) && !LongName(req) && !LongNumber(req, dependency)
  {
    UnprintableExactly(req, dependency);
    IdsOfFindings(req, findings);
    forall f ensures f in findings <==> f in evidence || Reported(req, dependency, f) {
      FoundIsListed(req, evidence, dependency, findings, f);
    }
    ListedIdentifiers(req, evidence, dependency, findings);
  }

  lemma ListedIdentifiers(req: Request, evidence: seq<Finding>, dependency: seq<D.Finding>, findings: seq<Finding>)
    requires AdmittedIds(req) && FromEvidence(evidence) && DependencyFindings(req.plan, dependency)
    requires forall f :: f in findings <==> f in evidence || Reported(req, dependency, f)
    ensures (forall f :: f in findings ==> Identifier(Print(Id(req, f)))) <==>
      (forall e :: e in evidence ==> Identifier(e.id)) && forall f :: !Unprintable(req, dependency, f)
  {
    forall f | f in findings
      ensures f in evidence ==> Print(Id(req, f)) == f.id && !Unprintable(req, dependency, f)
      ensures f !in evidence ==> (Identifier(Print(Id(req, f))) <==> !Unprintable(req, dependency, f))
    {
      ListedPrintable(req, evidence, dependency, f);
    }
  }

  lemma IdsOfFindings(req: Request, findings: seq<Finding>)
    ensures AllIdentifiers(PrintedIds(req, findings)) <==> forall f :: f in findings ==> Identifier(Print(Id(req, f)))
  {
    var ids := PrintedIds(req, findings);
    forall f | f in findings ensures Print(Id(req, f)) in ids {
      var i :| 0 <= i < |findings| && findings[i] == f;
      assert ids[i] == Print(Id(req, f));
    }
  }

  // The analysis raises instead of returning a decision exactly when its
  // validator objects. If it returns, flags and findings agree (`ReadyExactly`).
  lemma RaisesExactly(req: Request, around: Surroundings, analysis: Analysis, deterministic: seq<Finding>, dependency: seq<D.Finding>)
    requires FromOutside(around) && (around.schemaErrors == 0 ==> AdmittedIds(req))
    requires Analyzed(req, around, analysis, deterministic, dependency)
    ensures analysis.Raised? <==> Objects(req, around, dependency)
  {
    if around.schemaErrors > 0 {
      SchemaNumbers(req, around.schemaErrors);
    } else if !SuccessValid(req.success) || !PlanValid(req.plan) {
      DomainIdsAccepted(req, deterministic);
    } else {
      SilentExactly(req, around.evidence, dependency, deterministic);
      if deterministic == [] {
        ReviewedRaises(req, around);
      } else {
        FoundRaises(req, around.evidence, dependency, deterministic);
      }
    }
  }

  lemma ReviewedRaises(req: Request, around: Surroundings)
    requires Identifier(req.analysisId)
    ensures Reviewed(req, around).Raised? <==>
      || (around.reviewer.Neutral? && TooLong("review.", req.analysisId))
      || (around.reviewer.Supplied? && !around.reviewer.valid)
      || !IdsAccepted(PrintedIds(req, around.accepted)) || !IdsAccepted(around.rejected)
  {
    DerivedExactly("review.", req.analysisId);
  }

  lemma FoundRaises(req: Request, evidence: seq<Finding>, dependency: seq<D.Finding>, findings: seq<Finding>)
    requires SuccessValid(req.success) && PlanValid(req.plan) && AdmittedIds(req) && FromEvidence(evidence)
    requires CheckersFind(req, evidence, dependency, findings)
    ensures Concluded(req, findings, []).Raised? <==>
      || RepeatsAnId(req, evidence) || LongName(req) || LongNumber(req, dependency)
      || exists e :: e in evidence && e.External? && !Identifier(e.id)
  {
    IdentifiersExactly(req, evidence, dependency, findings);
    RepetitionExactly(req, evidence, dependency, findings);
  }

  lemma RepetitionExactly(req: Request, evidence: seq<Finding>, dependency: seq<D.Finding>, findings: seq<Finding>)
    requires SuccessValid(req.success) && PlanValid(req.plan) && FromEvidence(evidence)
    requires CheckersFind(req, evidence, dependency, findings)
    ensures Distinct(PrintedIds(req, findings)) <==> !RepeatsAnId(req, evidence)
  {
    forall f | f in findings && f.External? ensures OutsideName(f.id) {
      FoundIsListed(req, evidence, dependency, findings, f);
      ReportedParts(req, dependency, f);
    }
    PrintedDistinct(req, findings);
    if RepeatsAnId(req, evidence) {
      RepeatMeansShared(req, evidence, dependency, findings);
    } else if !Distinct(ReportedIds(req, findings)) {
      SharedMeansRepeat(req, evidence, dependency, findings);
    }
  }

  // Findings of the structural checkers never lead to any other verdict.
  lemma DeterministicVerdict(req: Request, evidence: seq<Finding>, dependency: seq<D.Finding>, findings: seq<Finding>)
    requires CheckersFind(req, evidence, dependency, findings) && findings != []
    requires forall f :: f in evidence ==> f.External? && f.gap == BrokenReference
    ensures DecisionType(findings) == MaterialGapFound
  {
    forall f | f in findings
      ensures GapOf(f) in {BrokenReference, CoverageGap, DependencyGap, AuthorityAmbiguity, SequenceActivationGap}
    {
    }
  }
}
