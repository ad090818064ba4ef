/**
  What the checks of plan analysis look for, in the terms of the request: when
  nothing is wrong with the evidence, when a semantic rule fires, and under
  which text each finding is reported.
*/
module PlanFacts {
  import opened Dictionary
  import opened EvidenceChecks
  import opened FindingIds
  import opened Identifiers
  import opened Ordering
  import opened Readiness
  import opened SemanticRules
  import opened Text
  import D = DependencyChecks

  // ----- Evidence and references -----

  // The evidence holds an item of that id and that hash.
  ghost predicate Held(evidence: seq<EvidenceItem>, ref: EvidenceRef) {
    exists e :: e in evidence && e.evidenceId == ref.evidenceId && e.hash == ref.hash
  }

  // Somebody in the plan refers to it: a prerequisite, an assumption or a risk.
  ghost predicate Cited(plan: Plan, ref: EvidenceRef) {
    || (exists a, p :: a in plan.actions && p in a.prerequisites && ref in p.refs)
    || (exists a :: a in plan.assumptions && ref in a.refs)
    || (exists r :: r in plan.risks && ref in r.refs)
  }

  ghost predicate Untouched(req: Request) {
    && req.artifacts.authorityIntact && req.artifacts.repositoryIntact && req.artifacts.baselineIntact
    && forall e :: e in req.evidence ==> e.intact
  }

  ghost predicate Bound(req: Request) {
    && req.plan.successRef.artifactId == req.artifacts.success.artifactId
    && req.plan.successRef.schemaId == req.artifacts.success.schemaId
    && req.plan.successRef.version == req.artifacts.success.version
    && req.plan.successRef.hash == req.artifacts.success.hash
    && req.plan.baselineRef == req.artifacts.baseline && req.plan.authorityRef == req.artifacts.authority
  }

  ghost predicate NoTwoAlike(evidence: seq<EvidenceItem>) {
    forall i, j :: 0 <= i < j < |evidence| ==> evidence[i].evidenceId != evidence[j].evidenceId
  }

  // The evidence and reference checks find nothing exactly when no two items
  // share an id, no hash is broken, everything the plan cites is held with its
  // hash, and the plan is bound to the artifacts supplied with it.
  lemma FaultlessMeans(req: Request)
    ensures Faultless(req) <==>
      && NoTwoAlike(req.evidence) && Untouched(req) && Bound(req)
      && forall ref :: Cited(req.plan, ref) ==> Held(req.evidence, ref)
  {
    AlikeExactly(req);
    UntouchedExactly(req);
    BoundExactly(req);
    if NoTwoAlike(req.evidence) {
      CitedExactly(req);
    }
  }

  lemma AlikeExactly(req: Request)
    ensures NoTwoAlike(req.evidence) <==> forall x: Fault :: x.DuplicateId? ==> !Faulty(req, x)
  {
    if !NoTwoAlike(req.evidence) {
      var i, j :| 0 <= i < j < |req.evidence| && req.evidence[i].evidenceId == req.evidence[j].evidenceId;
      assert Faulty(req, DuplicateId(req.evidence[i].evidenceId));
    }
  }

  lemma UntouchedExactly(req: Request)
    ensures Untouched(req) <==> forall x: Fault :: x.BrokenArtifact? || x.BrokenItem? ==> !Faulty(req, x)
  {
    if forall x: Fault :: x.BrokenArtifact? || x.BrokenItem? ==> !Faulty(req, x) {
      assert !Faulty(req, BrokenArtifact(AuthorityEvidence)) && !Faulty(req, BrokenArtifact(RepositoryEvidence));
      assert !Faulty(req, BrokenArtifact(RepositoryBaseline));
      forall e | e in req.evidence ensures e.intact {
        var i :| 0 <= i < |req.evidence| && req.evidence[i] == e;
        assert !Faulty(req, BrokenItem(i));
      }
    }
  }

  lemma BoundExactly(req: Request)
    ensures Bound(req) <==> forall x: Fault :: x.WrongSuccess? || x.WrongBaseline? || x.WrongAuthority? ==> !Faulty(req, x)
  {
    if forall x: Fault :: x.WrongSuccess? || x.WrongBaseline? || x.WrongAuthority? ==> !Faulty(req, x) {
      assert !Faulty(req, WrongSuccess(ArtifactId)) && !Faulty(req, WrongSuccess(SchemaId));
      assert !Faulty(req, WrongSuccess(Version)) && !Faulty(req, WrongSuccess(ContentHash));
      assert !Faulty(req, WrongBaseline) && !Faulty(req, WrongAuthority);
    }
  }

  lemma CitedExactly(req: Request)
    requires NoTwoAlike(req.evidence)
    ensures (forall ref :: Cited(req.plan, ref) ==> Held(req.evidence, ref))
      <==> forall x: Fault :: x.BadReference? ==> !Faulty(req, x)
  {
    var refs := PlanEvidence(req.plan);
    forall ref ensures ref in refs <==> Cited(req.plan, ref) {
      CollectedExactly(req.plan, ref);
    }
    forall ref ensures Present(req.evidence, ref) <==> Held(req.evidence, ref) {
      PresentExactly(req.evidence, ref);
    }
    if forall x: Fault :: x.BadReference? ==> !Faulty(req, x) {
      forall ref | Cited(req.plan, ref) ensures Held(req.evidence, ref) {
        var n :| 0 <= n < |refs| && refs[n] == ref;
        assert !Faulty(req, BadReference(n));
      }
    }
  }

  // With distinct ids the item known under an id is the one that has it.
  lemma PresentExactly(evidence: seq<EvidenceItem>, ref: EvidenceRef)
    requires NoTwoAlike(evidence)
    ensures Present(evidence, ref) <==> Held(evidence, ref)
  {
    var ids := Ids(evidence, EvidenceId);
    assert forall i :: 0 <= i < |ids| ==> ids[i] == evidence[i].evidenceId;
    ByIdLooksUp(evidence, EvidenceId);
    if e :| e in evidence && e.evidenceId == ref.evidenceId && e.hash == ref.hash {
      LooksUpItself(evidence, EvidenceId, e);
    }
  }

  lemma CollectedExactly(plan: Plan, ref: EvidenceRef)
    ensures ref in PlanEvidence(plan) <==> Cited(plan, ref)
  {
    ActionsCite(plan.actions, ref);
    AssumptionsCite(plan.assumptions, ref);
    RisksCite(plan.risks, ref);
  }

  lemma {:induction false} PrerequisitesCite(prerequisites: seq<Prerequisite>, ref: EvidenceRef)
    ensures ref in PrerequisiteEvidence(prerequisites) <==> exists p :: p in prerequisites && ref in p.refs
  {
    if prerequisites != [] {
      var n := |prerequisites| - 1;
      assert prerequisites == prerequisites[..n] + [prerequisites[n]];
      PrerequisitesCite(prerequisites[..n], ref);
    }
  }

  lemma {:induction false} ActionsCite(actions: seq<Action>, ref: EvidenceRef)
    ensures ref in ActionEvidence(actions) <==> exists a, p :: a in actions && p in a.prerequisites && ref in p.refs
  {
    if actions != [] {
      var n := |actions| - 1;
      assert actions == actions[..n] + [actions[n]];
      ActionsCite(actions[..n], ref);
      PrerequisitesCite(actions[n].prerequisites, ref);
    }
  }

  lemma {:induction false} AssumptionsCite(assumptions: seq<Assumption>, ref: EvidenceRef)
    ensures ref in AssumptionEvidence(assumptions) <==> exists a :: a in assumptions && ref in a.refs
  {
    if assumptions != [] {
      var n := |assumptions| - 1;
      assert assumptions == assumptions[..n] + [assumptions[n]];
      AssumptionsCite(assumptions[..n], ref);
    }
  }

  lemma {:induction false} RisksCite(risks: seq<Risk>, ref: EvidenceRef)
    ensures ref in RiskEvidence(risks) <==> exists r :: r in risks && ref in r.refs
  {
    if risks != [] {
      var n := |risks| - 1;
      assert risks == risks[..n] + [risks[n]];
      RisksCite(risks[..n], ref);
    }
  }

  // ----- Domain invariants -----

  ghost predicate NoTwo<T>(items: seq<T>, id: T -> string) {
    forall i, j :: 0 <= i < j < |items| ==> id(items[i]) != id(items[j])
  }

  lemma NoTwoExactly<T>(items: seq<T>, id: T -> string)
    ensures Distinct(Ids(items, id)) <==> NoTwo(items, id)
  {
    var ids := Ids(items, id);
    assert forall i :: 0 <= i < |items| ==> ids[i] == id(items[i]);
  }

  // A success definition is valid exactly when it repeats no id of an actor, a
  // requirement, an outcome, a non-goal or a proof, and its hash is confirmed.
  lemma SuccessValidExactly(success: Success)
    ensures SuccessValid(success) <==>
      && (forall i, j :: 0 <= i < j < |success.actorIds| ==> success.actorIds[i] != success.actorIds[j])
      && (forall i, j :: 0 <= i < j < |success.outcomeIds| ==> success.outcomeIds[i] != success.outcomeIds[j])
      && (forall i, j :: 0 <= i < j < |success.nonGoalIds| ==> success.nonGoalIds[i] != success.nonGoalIds[j])
      && NoTwo(success.requirements, (r: Requirement) => r.requirementId)
      && NoTwo(success.proofs, (p: Proof) => p.proofId) && success.hashConfirmed
  {
    NoTwoExactly(success.requirements, RequirementId);
    NoTwoExactly(success.proofs, ProofId);
  }

  // A plan is valid exactly when it repeats no id of any of its items; the
  // outputs of all actions count together.
  lemma PlanValidExactly(plan: Plan)
    ensures PlanValid(plan) <==>
      && NoTwo(plan.coverage, (r: Row) => r.requirementId) && NoTwo(plan.actions, (a: Action) => a.actionId)
      && NoTwo(plan.validations, (v: Validation) => v.validationId)
      && NoTwo(plan.dependencies, (d: D.Dependency) => d.dependencyId)
      && NoTwo(plan.assumptions, (a: Assumption) => a.assumptionId) && NoTwo(plan.risks, (r: Risk) => r.riskId)
      && (forall i, j :: 0 <= i < j < |plan.failureIds| ==> plan.failureIds[i] != plan.failureIds[j])
      && (forall i, j :: 0 <= i < j < |plan.stopIds| ==> plan.stopIds[i] != plan.stopIds[j])
      && OutputsDiffer(plan.actions)
  {
    NoTwoExactly(plan.coverage, RowId);
    NoTwoExactly(plan.actions, ActionId);
    NoTwoExactly(plan.validations, ValidationId);
    NoTwoExactly(plan.dependencies, DependencyId);
    NoTwoExactly(plan.assumptions, AssumptionId);
    NoTwoExactly(plan.risks, RiskId);
    OutputsExactly(plan.actions);
  }

  ghost predicate IsOutput(actions: seq<Action>, a: int, i: int) {
    0 <= a < |actions| && 0 <= i < |actions[a].outputs|
  }

  // No two outputs share an id, within an action or across actions.
  ghost predicate OutputsDiffer(actions: seq<Action>) {
    forall a, i, b, j :: IsOutput(actions, a, i) && IsOutput(actions, b, j) && (a != b || i != j) ==>
      actions[a].outputs[i].outputId != actions[b].outputs[j].outputId
  }

  lemma {:induction false} OutputIdsAre(actions: seq<Action>)
    ensures forall id :: id in OutputIds(actions) <==> exists a, i :: IsOutput(actions, a, i) && actions[a].outputs[i].outputId == id
  {
    if actions != [] {
      var n := |actions| - 1;
      var earlier := actions[..n];
      OutputIdsAre(earlier);
      forall id | id in OutputIds(earlier) ensures exists a, i :: IsOutput(actions, a, i) && actions[a].outputs[i].outputId == id {
        var a, i :| IsOutput(earlier, a, i) && earlier[a].outputs[i].outputId == id;
        assert IsOutput(actions, a, i);
      }
      forall a, i | IsOutput(actions, a, i) ensures actions[a].outputs[i].outputId in OutputIds(actions) {
        if a < n {
          assert IsOutput(earlier, a, i);
        } else {
          LastOutput(actions, i);
        }
      }
      forall id | id in OutputIds(actions) && id !in OutputIds(earlier)
        ensures exists a, i :: IsOutput(actions, a, i) && actions[a].outputs[i].outputId == id
      {
        var i :| 0 <= i < |actions[n].outputs| && actions[n].outputs[i].outputId == id;
        assert IsOutput(actions, n, i);
      }
    }
  }

  lemma LastOutput(actions: seq<Action>, i: int)
    requires actions != [] && IsOutput(actions, |actions| - 1, i)
    ensures actions[|actions| - 1].outputs[i].outputId in OutputIds(actions)
  {
    var n := |actions| - 1;
    var own := seq(|actions[n].outputs|, k requires 0 <= k < |actions[n].outputs| => actions[n].outputs[k].outputId);
    assert own[i] in own;
  }

  lemma {:induction false} OutputsExactly(actions: seq<Action>)
    ensures Distinct(OutputIds(actions)) <==> OutputsDiffer(actions)
  {
    if actions != [] {
      var n := |actions| - 1;
      var earlier := actions[..n];
      var own := seq(|actions[n].outputs|, k requires 0 <= k < |actions[n].outputs| => actions[n].outputs[k].outputId);
      OutputsExactly(earlier);
      DistinctJoin(OutputIds(earlier), own);
      OutputsJoin(actions);
      OwnApart(earlier, actions[n], own);
      assert OutputIds(actions) == OutputIds(earlier) + own;
      assert Distinct(own) <==> forall i, j :: 0 <= i < j < |own| ==> actions[n].outputs[i].outputId != actions[n].outputs[j].outputId;
    }
  }

  lemma OwnApart(earlier: seq<Action>, action: Action, own: seq<string>)
    requires |own| == |action.outputs| && forall k :: 0 <= k < |own| ==> own[k] == action.outputs[k].outputId
    ensures (forall j :: 0 <= j < |own| ==> own[j] !in OutputIds(earlier)) <==>
      forall j, a, i :: 0 <= j < |action.outputs| && IsOutput(earlier, a, i) ==>
        earlier[a].outputs[i].outputId != action.outputs[j].outputId
  {
    OutputIdsAre(earlier);
  }

  lemma DistinctJoin(a: seq<string>, b: seq<string>)
    ensures Distinct(a + b) <==> Distinct(a) && Distinct(b) && forall j :: 0 <= j < |b| ==> b[j] !in a
  {
    var all := a + b;
    if Distinct(all) {
      assert forall i :: 0 <= i < |a| ==> all[i] == a[i];
      assert forall j :: 0 <= j < |b| ==> all[|a| + j] == b[j];
    } else if Distinct(a) && Distinct(b) && forall j :: 0 <= j < |b| ==> b[j] !in a {
      DistinctAppend(a, b);
    }
  }

  lemma OutputsJoin(actions: seq<Action>)
    requires actions != []
    ensures var (n, earlier) := (|actions| - 1, actions[..|actions| - 1]);
      OutputsDiffer(actions) <==>
        && OutputsDiffer(earlier)
        && (forall i, j :: 0 <= i < j < |actions[n].outputs| ==> actions[n].outputs[i].outputId != actions[n].outputs[j].outputId)
        && (forall j, a, i :: 0 <= j < |actions[n].outputs| && IsOutput(earlier, a, i) ==>
              earlier[a].outputs[i].outputId != actions[n].outputs[j].outputId)
  {
    var n, earlier := |actions| - 1, actions[..|actions| - 1];
    assert forall a, i :: IsOutput(actions, a, i) <==> IsOutput(earlier, a, i) || (a == n && 0 <= i < |actions[n].outputs|);
    if OutputsDiffer(actions) {
      forall i, j | 0 <= i < j < |actions[n].outputs| ensures actions[n].outputs[i].outputId != actions[n].outputs[j].outputId {
        assert IsOutput(actions, n, i) && IsOutput(actions, n, j);
      }
      forall j, a, i | 0 <= j < |actions[n].outputs| && IsOutput(earlier, a, i)
        ensures earlier[a].outputs[i].outputId != actions[n].outputs[j].outputId
      {
        assert IsOutput(actions, a, i) && IsOutput(actions, n, j);
      }
      forall a, i, b, j | IsOutput(earlier, a, i) && IsOutput(earlier, b, j) && (a != b || i != j)
        ensures earlier[a].outputs[i].outputId != earlier[b].outputs[j].outputId
      {
        assert IsOutput(actions, a, i) && IsOutput(actions, b, j);
      }
    }
  }

  // ----- The rules -----

  // The proof a validation names; with distinct ids there is at most one.
  ghost predicate Names(success: Success, v: Validation, proof: Proof) {
    proof in success.proofs && proof.proofId == v.proofId
  }

  // The proof demands an environment, and this is another one.
  ghost predicate Elsewhere(proof: Boundary, v: Boundary) {
    proof.environment !in {None, Some("")} && v.environment != proof.environment
  }

  // A type of evidence is missing, or the type of proof or the executor is
  // another one.
  ghost predicate Otherwise(proof: Boundary, v: Boundary) {
    || (exists kind :: kind in proof.types && kind !in v.types)
    || v.proofType != proof.proofType || v.executor != proof.executor
  }

  // A rule fires on an assumption that is called unsubstantiated; on a
  // validation outside the environment its proof demands; and on one that lacks
  // a type of evidence, or has another type of proof or executor, than its
  // proof demands.
  lemma FiresExactly(req: Request, i: nat)
    requires SuccessValid(req.success)
    ensures i < |req.plan.assumptions| ==>
      (Fires(req, Unsubstantiated(i)) <==> req.plan.assumptions[i].unsubstantiated)
    ensures i < |req.plan.validations| ==>
      var v := req.plan.validations[i];
      (Fires(req, OtherEnvironment(i)) <==> exists proof :: Names(req.success, v, proof) && Elsewhere(proof.boundary, v.boundary))
    ensures i < |req.plan.validations| ==>
      var v := req.plan.validations[i];
      (Fires(req, OtherEvidence(i)) <==> exists proof :: Names(req.success, v, proof) && Otherwise(proof.boundary, v.boundary))
  {
    if i < |req.plan.validations| {
      var v := req.plan.validations[i];
      ProofNamed(req.success, v);
    }
  }

  lemma ProofNamed(success: Success, v: Validation)
    requires SuccessValid(success)
    ensures ProofOf(success, v).Some? ==> Names(success, v, ProofOf(success, v).value)
    ensures forall proof :: Names(success, v, proof) ==> ProofOf(success, v) == Some(proof)
  {
    ByIdLooksUp(success.proofs, ProofId);
    forall proof | Names(success, v, proof) ensures ProofOf(success, v) == Some(proof) {
      LooksUpItself(success.proofs, ProofId, proof);
    }
  }

  // The local rules are specific about a location, and quote no support.
  ghost predicate Local(c: Candidate) {
    c.semantic && c.specific && c.located && !c.supported
  }

  // What a rule proposes: an id that tells the rule and the item, and the gap.
  lemma ProposalsExactly(req: Request, i: nat)
    ensures i < |req.plan.assumptions| ==>
      var c := Proposal(req, Unsubstantiated(i));
      && c.id == "semantic.assumption." + req.plan.assumptions[i].assumptionId && c.gap == UnsupportedAssumption
      && c.requirementIds == [] && Local(c)
    ensures i < |req.plan.validations| ==>
      var c := Proposal(req, OtherEnvironment(i));
      && c.id == "semantic.environment." + req.plan.validations[i].validationId && c.gap == OutputEnvironmentGap
      && c.requirementIds == req.plan.validations[i].requirementIds
      && (c.resolves <==> req.plan.validations[i].boundary.environment.Some?) && Local(c)
    ensures i < |req.plan.validations| ==>
      var c := Proposal(req, OtherEvidence(i));
      && c.id == "semantic.evidence." + req.plan.validations[i].validationId && c.gap == ValidationEvidenceGap
      && c.requirementIds == req.plan.validations[i].requirementIds && c.resolves && Local(c)
  {
  }

  // What a rule cites: the assumption's own evidence if it has any; for an
  // environment the first item that speaks of one; otherwise the first item,
  // and with no items the repository evidence.
  lemma CitesExactly(req: Request, hit: Hit)
    requires Fires(req, hit)
    ensures hit.Unsubstantiated? && req.plan.assumptions[hit.assumption].refs != [] ==>
      CitedRefs(req, hit) == req.plan.assumptions[hit.assumption].refs
    ensures req.evidence == [] && !BringsEvidence(req.plan, hit) ==> CitedRefs(req, hit) == [req.artifacts.repository]
    ensures req.evidence != [] && !hit.OtherEnvironment? && !BringsEvidence(req.plan, hit) ==>
      CitedRefs(req, hit) == [EvidenceRef(req.evidence[0].evidenceId, req.evidence[0].hash)]
    ensures hit.OtherEnvironment? && NoTwoAlike(req.evidence) ==>
      forall k :: 0 <= k < |req.evidence| && req.evidence[k].speaks && (forall j :: 0 <= j < k ==> !req.evidence[j].speaks) ==>
        CitedRefs(req, hit) == [EvidenceRef(req.evidence[k].evidenceId, req.evidence[k].hash)]
  {
    if hit.OtherEnvironment? && NoTwoAlike(req.evidence) {
      forall k | 0 <= k < |req.evidence| && req.evidence[k].speaks && (forall j :: 0 <= j < k ==> !req.evidence[j].speaks)
        ensures CitedRefs(req, hit) == [RefOf(req.evidence[k])]
      {
        FirstSpeaks(req.evidence, k);
        FirstHasName(req.evidence, k);
      }
    }
  }

  lemma {:induction false} FirstSpeaks(items: seq<EvidenceItem>, k: nat)
    requires k < |items| && items[k].speaks && forall j :: 0 <= j < k ==> !items[j].speaks
    ensures FirstSpeaking(items) == Some(items[k])
  {
    if k > 0 {
      FirstSpeaks(items[1..], k - 1);
    }
  }

  lemma {:induction false} FirstHasName(items: seq<EvidenceItem>, k: nat)
    requires k < |items| && NoTwoAlike(items)
    ensures FirstNamed(items, items[k].evidenceId) == Some(items[k])
  {
    if k > 0 {
      FirstHasName(items[1..], k - 1);
    }
  }

  // ----- The text of a finding id -----

  // Under which text each finding is reported.
  lemma ReportedAs(req: Request, f: Finding)
    ensures f.SchemaError? ==> Print(Id(req, f)) == "finding.schema.error." + Decimal(f.number)
    ensures f.DomainInvalid? ==> Print(Id(req, f)) == "domain." + f.field
    ensures f.External? ==> Print(Id(req, f)) == f.id
    ensures f.UnknownRequirement? ==> Print(Id(req, f)) == "coverage.unknown." + Decimal(f.number)
  {
    if f.External? {
      assert "" + f.id == f.id;
    }
  }

  lemma CoverageReported(req: Request, f: Finding)
    ensures f.NoCoverageRow? ==> Print(Id(req, f)) == "coverage.missing." + f.requirement
    ensures f.CoverageAction? ==> Print(Id(req, f)) == "coverage.action." + f.requirement
    ensures f.CoverageValidation? ==> Print(Id(req, f)) == "coverage.validation." + f.requirement
    ensures f.CoverageEmpty? ==> Print(Id(req, f)) == "coverage.empty." + f.requirement
    ensures f.TargetNotAllowed? ==> Print(Id(req, f)) == "authority.target." + Decimal(f.target)
  {
  }

  lemma ReportedByName(req: Request, f: Finding)
    ensures f.ProofRequirement? && f.proof < |req.success.proofs| ==>
      Print(Id(req, f)) == "proof.requirement." + (req.success.proofs[f.proof].proofId + ("." + Decimal(f.position)))
    ensures f.UnknownProof? && f.validation < |req.plan.validations| ==>
      Print(Id(req, f)) == "proof.unknown." + req.plan.validations[f.validation].validationId
    ensures f.ProofCoverage? && f.validation < |req.plan.validations| ==>
      Print(Id(req, f)) == "proof.coverage." + req.plan.validations[f.validation].validationId
    ensures f.ValidationAction? && f.validation < |req.plan.validations| ==>
      Print(Id(req, f)) == "validation.action." + req.plan.validations[f.validation].validationId
  {
  }

  lemma RisksAndActionsReported(req: Request, f: Finding)
    ensures f.UnresolvedRisk? && f.risk < |req.plan.risks| ==>
      Print(Id(req, f)) == "authority.risk." + req.plan.risks[f.risk].riskId
    ensures f.CannotRun? && f.action < |req.plan.actions| ==>
      Print(Id(req, f)) == "activation." + req.plan.actions[f.action].actionId
  {
  }

  lemma ConflictReported(req: Request, f: Finding)
    ensures f.TargetConflict? ==> Print(Id(req, f)) == "authority.conflict." + (Decimal(f.target) + ("." + Decimal(f.exclusion)))
  {
  }

  lemma ReportedByPosition(req: Request, f: Finding)
    ensures f.ActionTarget? ==> Print(Id(req, f)) == "authority.action-target." + (Decimal(f.action) + ("." + Decimal(f.position)))
    ensures f.OutputTarget? ==> Print(Id(req, f)) == "authority.output-target." + (Decimal(f.action) + ("." + Decimal(f.position)))
  {
  }

  lemma DependenciesReported(req: Request, f: Finding)
    ensures f.Dependency? && f.finding.DependencyCycle? ==> Print(Id(req, f)) == "dependency.cycle." + Decimal(f.finding.number)
    ensures f.Dependency? && f.finding.MissingDependency? && f.finding.actionIndex < |req.plan.actions| ==>
      Print(Id(req, f)) == "dependency.missing." + req.plan.actions[f.finding.actionIndex].actionId
    ensures f.Dependency? && f.finding.UnresolvedDependency? && f.finding.dependencyIndex < |req.plan.dependencies| ==>
      Print(Id(req, f)) == "dependency.unresolved." + req.plan.dependencies[f.finding.dependencyIndex].dependencyId
  {
  }
}
