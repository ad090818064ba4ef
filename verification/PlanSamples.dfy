/**
  Requests on which plan analysis does not do what one would expect, all of
  them made from one small plan that passes admission.
*/
module PlanSamples {
  import opened Dictionary
  import opened EvidenceChecks
  import opened Identifiers
  import opened Ordering
  import opened PlanAnalysis
  import opened Readiness
  import opened SemanticRules
  import opened Text
  import D = DependencyChecks

  // One requirement with one proof, and a plan of one action and one
  // validation that covers it.
  function Sample(analysisId: string, actionId: string, dependsOn: seq<string>, assumptions: seq<Assumption>,
                  required: Option<string>, stated: Option<string>, evidence: seq<EvidenceItem>, hash: string): Request {
    var action := Action(actionId, ["requirement"], [], [Output("output", None)], dependsOn, "capability", "codex",
                         "design", Activation("automatic", Some("authority"), true), []);
    var validation := Validation("validation", ["requirement"], [actionId], "proof",
                                 Boundary(stated, {"artifact"}, "artifact", "human"));
    var success, baseline := ArtifactRef("success", "schema", "1.0.0", hash), ArtifactRef("baseline", "schema", "1.0.0", hash);
    var authority := ArtifactRef("authority", "schema", "1.0.0", hash);
    Request(analysisId,
            Success([Requirement("requirement", true)],
                    [Proof("proof", ["requirement"], Boundary(required, {"artifact"}, "artifact", "human"))],
                    ["actor"], [], [], true),
            Plan([Row("requirement", [actionId], ["validation"])], [action], [validation], [], [Target("src", true)], [], [],
                 assumptions, ["failure"], ["stop"], success, baseline, authority),
            [Capability("capability", true, "codex", "automatic", None, None, true)], {"authority"}, evidence,
            Artifacts(success, baseline, authority, EvidenceRef("repository", hash), true, true, true))
  }

  // What the parameters of a sample are taken to be.
  predicate Ordinary(analysisId: string, actionId: string, assumptions: seq<Assumption>, evidence: seq<EvidenceItem>) {
    && Identifier(analysisId) && Identifier(actionId)
    && |assumptions| <= 1 && (forall a | a in assumptions :: Identifier(a.assumptionId) && a.refs == [])
    && |evidence| <= 1 && (forall e | e in evidence :: Identifier(e.evidenceId) && e.intact)
  }

  lemma NamesAdmitted()
    ensures Identifier("requirement") && Identifier("proof") && Identifier("validation")
    ensures Identifier("analysis") && Identifier("action")
  {
  }

  lemma SampleAdmitted(analysisId: string, actionId: string, dependsOn: seq<string>, assumptions: seq<Assumption>,
                       required: Option<string>, stated: Option<string>, evidence: seq<EvidenceItem>, hash: string)
    requires Ordinary(analysisId, actionId, assumptions, evidence)
    ensures var req := Sample(analysisId, actionId, dependsOn, assumptions, required, stated, evidence, hash);
      Filled(req) && AdmittedIds(req)
  {
    NamesAdmitted();
  }

  lemma SampleValid(analysisId: string, actionId: string, dependsOn: seq<string>, assumptions: seq<Assumption>,
                    required: Option<string>, stated: Option<string>, evidence: seq<EvidenceItem>, hash: string)
    requires Ordinary(analysisId, actionId, assumptions, evidence)
    ensures var req := Sample(analysisId, actionId, dependsOn, assumptions, required, stated, evidence, hash);
      SuccessValid(req.success) && PlanValid(req.plan)
  {
    var req := Sample(analysisId, actionId, dependsOn, assumptions, required, stated, evidence, hash);
    assert OutputIds(req.plan.actions[..0]) == [];
    assert |OutputIds(req.plan.actions)| == 1;
  }

  lemma SampleFaultless(analysisId: string, actionId: string, dependsOn: seq<string>, assumptions: seq<Assumption>,
                        required: Option<string>, stated: Option<string>, evidence: seq<EvidenceItem>, hash: string)
    requires Ordinary(analysisId, actionId, assumptions, evidence)
    ensures Faultless(Sample(analysisId, actionId, dependsOn, assumptions, required, stated, evidence, hash))
  {
    var req := Sample(analysisId, actionId, dependsOn, assumptions, required, stated, evidence, hash);
    assert PlanEvidence(req.plan) == [] by {
      assert req.plan.actions[..0] == [] && PrerequisiteEvidence(req.plan.actions[0].prerequisites) == [];
      assert ActionEvidence(req.plan.actions) == [] && RiskEvidence(req.plan.risks) == [];
      if assumptions != [] {
        assert assumptions[0] in assumptions && assumptions[..0] == [];
      }
      assert AssumptionEvidence(assumptions) == [];
    }
    forall x ensures !Faulty(req, x) {
      if x.BrokenItem? && x.item < |evidence| {
        assert evidence[x.item] in evidence;
      }
    }
  }

  lemma SampleCovered(analysisId: string, actionId: string, assumptions: seq<Assumption>, required: Option<string>,
                      stated: Option<string>, evidence: seq<EvidenceItem>, hash: string)
    ensures var req := Sample(analysisId, actionId, [], assumptions, required, stated, evidence, hash);
      CoverageSound(req.success, req.plan)
  {
    var req := Sample(analysisId, actionId, [], assumptions, required, stated, evidence, hash);
    var action, validation, row := req.plan.actions[0], req.plan.validations[0], req.plan.coverage[0];
    assert action in req.plan.actions && validation in req.plan.validations && row in req.plan.coverage;
    assert req.success.requirements[0] in req.success.requirements && req.success.proofs[0] in req.success.proofs;
    assert IsRequirement(req.success, "requirement") && IsAction(req.plan, actionId) && IsValidation(req.plan, "validation");
    assert "requirement" in action.requirementIds && "requirement" in validation.requirementIds;
    assert SoundRow(req.plan, "requirement", row);
  }

  lemma SampleRunnable(analysisId: string, actionId: string, assumptions: seq<Assumption>, required: Option<string>,
                       stated: Option<string>, evidence: seq<EvidenceItem>, hash: string)
    ensures AllRunnable(Sample(analysisId, actionId, [], assumptions, required, stated, evidence, hash))
  {
    var req := Sample(analysisId, actionId, [], assumptions, required, stated, evidence, hash);
    LooksUpItself(req.capabilities, CapabilityId, req.capabilities[0]);
  }

  lemma SampleAcyclic(analysisId: string, actionId: string, assumptions: seq<Assumption>, required: Option<string>,
                      stated: Option<string>, evidence: seq<EvidenceItem>, hash: string)
    ensures DependenciesSound(Sample(analysisId, actionId, [], assumptions, required, stated, evidence, hash).plan)
  {
    var actions := DependencyActions(Sample(analysisId, actionId, [], assumptions, required, stated, evidence, hash).plan);
    assert actions[..0] == [] && D.Table(actions) == map[actionId := []];
    D.TopologicalOrderMeansAcyclic(D.Table(actions), [actionId]);
  }

  // Without dependencies the sample is sound in every respect.
  lemma SampleReady(analysisId: string, actionId: string, assumptions: seq<Assumption>, required: Option<string>,
                    stated: Option<string>, evidence: seq<EvidenceItem>, hash: string)
    requires Ordinary(analysisId, actionId, assumptions, evidence)
    ensures Ready(Sample(analysisId, actionId, [], assumptions, required, stated, evidence, hash))
  {
    SampleValid(analysisId, actionId, [], assumptions, required, stated, evidence, hash);
    SampleCovered(analysisId, actionId, assumptions, required, stated, evidence, hash);
    SampleRunnable(analysisId, actionId, assumptions, required, stated, evidence, hash);
    SampleAcyclic(analysisId, actionId, assumptions, required, stated, evidence, hash);
  }

  // ----- Ids that are too long -----

  lemma ManyLetters(id: string, n: nat)
    requires 2 <= n <= MAX_LENGTH && |id| == n && forall i :: 0 <= i < n ==> id[i] == 'a'
    ensures Identifier(id)
  {
  }

  function LongActionSample(hash: string): Request {
    Sample("analysis", seq(120, _ => 'a'), ["missing"], [], None, None, [], hash)
  }

  lemma MissingActionRefused(id: string, hash: string)
    requires |id| == 120 && id[0] == 'a'
    ensures var req := Sample("analysis", id, ["missing"], [], None, None, [], hash);
      LongName(req) && !Ready(req)
  {
    var req := Sample("analysis", id, ["missing"], [], None, None, [], hash);
    var a := req.plan.actions[0];
    assert a in req.plan.actions && "missing" in a.dependsOn;
    assert a.actionId[0] == 'a' && "missing"[0] == 'm';
    assert !IsAction(req.plan, "missing");
    assert NamesUnknown(req.plan, a.dependsOn) && LongAction(req, a);
    assert !DependenciesSound(req.plan);
  }

  lemma LongActionAdmitted(id: string, hash: string)
    requires |id| == 120 && forall i :: 0 <= i < 120 ==> id[i] == 'a'
    ensures var req := Sample("analysis", id, ["missing"], [], None, None, [], hash);
      Filled(req) && AdmittedIds(req) && SuccessValid(req.success) && PlanValid(req.plan)
  {
    ManyLetters(id, 120);
    NamesAdmitted();
    SampleAdmitted("analysis", id, ["missing"], [], None, None, [], hash);
    SampleValid("analysis", id, ["missing"], [], None, None, [], hash);
  }

  lemma OneMissingRepeatsNothing(id: string, hash: string)
    ensures !RepeatsAnId(Sample("analysis", id, ["missing"], [], None, None, [], hash), [])
  {
    var req := Sample("analysis", id, ["missing"], [], None, None, [], hash);
    assert ReportedIds(req, []) == [];
  }

  // One action with an id of 120 characters and a single unknown dependency:
  // the request passes admission, nothing is repeated, and the analysis raises
  // whoever reviews.
  lemma LongActionIdRaises(hash: string, reviewer: Reviewer, dependency: seq<D.Finding>)
    ensures var req := LongActionSample(hash);
      && Filled(req) && AdmittedIds(req) && !RepeatsAnId(req, [])
      && Refused(req, 0, true, reviewer, dependency)
  {
    var id := seq(120, _ => 'a');
    LongActionAdmitted(id, hash);
    OneMissingRepeatsNothing(id, hash);
    MissingActionRefused(id, hash);
  }

  function LongAnalysisSample(hash: string): Request {
    Sample(seq(122, _ => 'a'), "action", [], [], None, None, [], hash)
  }

  // A plan that is sound in every respect, under an analysis id of 122
  // characters: the neutral reviewer's own review is invalid.
  lemma LongAnalysisIdRaises(hash: string, dependency: seq<D.Finding>)
    ensures var req := LongAnalysisSample(hash);
      && Filled(req) && AdmittedIds(req) && Faultless(req) && Ready(req)
      && Refused(req, 0, true, Neutral, dependency)
  {
    var id := seq(122, _ => 'a');
    ManyLetters(id, 122);
    NamesAdmitted();
    SampleAdmitted(id, "action", [], [], None, None, [], hash);
    SampleFaultless(id, "action", [], [], None, None, [], hash);
    SampleReady(id, "action", [], None, None, [], hash);
  }

  // ----- Rules that are overlooked -----

  lemma NothingTooLong(req: Request)
    requires |req.analysisId| <= 20
    requires forall hit :: Fires(req, hit) ==> |Subject(req.plan, hit)| <= 20
    ensures !ReviewRefused(req, Neutral)
  {
    forall hit | Fires(req, hit) ensures !HitTooLong(req.plan, hit) {
      assert |HitPrefix(hit)| <= 21;
    }
  }

  function EnvironmentSample(stated: Option<string>, hash: string): Request {
    Sample("analysis", "action", [], [], Some("production"), stated, [EvidenceItem("evidence", hash, true, false)], hash)
  }

  lemma EnvironmentSampleSound(stated: Option<string>, hash: string)
    ensures var req := EnvironmentSample(stated, hash);
      Filled(req) && AdmittedIds(req) && Faultless(req) && Ready(req)
  {
    var items := [EvidenceItem("evidence", hash, true, false)];
    NamesAdmitted();
    EvidenceNamed();
    SampleAdmitted("analysis", "action", [], [], Some("production"), stated, items, hash);
    SampleFaultless("analysis", "action", [], [], Some("production"), stated, items, hash);
    SampleReady("analysis", "action", [], Some("production"), stated, items, hash);
  }

  lemma EvidenceNamed()
    ensures Identifier("evidence") && Identifier("premise")
  {
  }

  lemma EnvironmentSampleFires(stated: Option<string>, hash: string)
    ensures forall hit :: Fires(EnvironmentSample(stated, hash), hit) <==>
      hit == OtherEnvironment(0) && stated != Some("production")
  {
    var req := EnvironmentSample(stated, hash);
    LooksUpItself(req.success.proofs, ProofId, req.success.proofs[0]);
  }

  // The proof of the one requirement demands production. A validation that
  // states another environment is reported; for one that states none the rule
  // fires too, but its finding is dropped, because the missing field is no
  // location of the plan, and the plan is ready.
  lemma EnvironmentReadyExactly(stated: Option<string>, hash: string)
    ensures var req := EnvironmentSample(stated, hash);
      && Filled(req) && AdmittedIds(req)
      && (Fires(req, OtherEnvironment(0)) <==> stated != Some("production"))
      && (ReadyToExecute(req, Neutral) <==> stated == None || stated == Some("production"))
  {
    var req := EnvironmentSample(stated, hash);
    EnvironmentSampleSound(stated, hash);
    EnvironmentSampleFires(stated, hash);
    NothingTooLong(req);
    assert Overlooked(req, OtherEnvironment(0)) <==> stated == None;
  }

  // With no evidence in the request every rule is overlooked, because what it
  // cites instead counts as absent.
  lemma NoEvidenceNoRules(req: Request)
    requires Faultless(req) && req.evidence == []
    ensures forall hit :: Fires(req, hit) ==> Overlooked(req, hit)
  {
    forall hit | Fires(req, hit) ensures Overlooked(req, hit) {
      if BringsEvidence(req.plan, hit) {
        BroughtIsPresent(req, hit);
      }
    }
  }

  lemma BroughtIsPresent(req: Request, hit: Hit)
    requires Faultless(req) && Fires(req, hit) && BringsEvidence(req.plan, hit)
    ensures req.evidence != []
  {
    FaultlessEvidence(req);
    AssumptionCited(req.plan.assumptions, hit.assumption);
    assert Present(req.evidence, req.plan.assumptions[hit.assumption].refs[0]);
  }

  // So a sound request without evidence is ready under the neutral reviewer,
  // whatever its plan assumes and wherever it validates, unless an id is too
  // long.
  lemma NoEvidenceReadyExactly(req: Request)
    requires Faultless(req) && Ready(req) && req.evidence == []
    ensures ReadyToExecute(req, Neutral) <==>
      !TooLong("review.", req.analysisId) && forall hit :: Fires(req, hit) ==> !HitTooLong(req.plan, hit)
  {
    NoEvidenceNoRules(req);
  }

  function AssumptionSample(hash: string): Request {
    Sample("analysis", "action", [], [Assumption("premise", true, [])], None, None, [], hash)
  }

  lemma AssumptionSampleSound(hash: string)
    ensures var req := AssumptionSample(hash);
      Filled(req) && AdmittedIds(req) && Faultless(req) && Ready(req)
  {
    var assumptions := [Assumption("premise", true, [])];
    NamesAdmitted();
    EvidenceNamed();
    SampleAdmitted("analysis", "action", [], assumptions, None, None, [], hash);
    SampleFaultless("analysis", "action", [], assumptions, None, None, [], hash);
    SampleReady("analysis", "action", assumptions, None, None, [], hash);
  }

  lemma AssumptionSampleShort(hash: string)
    ensures Fires(AssumptionSample(hash), Unsubstantiated(0))
    ensures forall hit :: Fires(AssumptionSample(hash), hit) ==> !HitTooLong(AssumptionSample(hash).plan, hit)
  {
    forall hit | Fires(AssumptionSample(hash), hit) ensures !HitTooLong(AssumptionSample(hash).plan, hit) {
      assert |HitPrefix(hit)| <= 21;
      assert |Subject(AssumptionSample(hash).plan, hit)| <= 10;
    }
  }

  // A plan that rests on a premise it calls unsubstantiated is ready if the
  // request carries no evidence.
  lemma UnsupportedAssumptionIsReady(hash: string)
    ensures var req := AssumptionSample(hash);
      && Filled(req) && AdmittedIds(req) && Fires(req, Unsubstantiated(0)) && ReadyToExecute(req, Neutral)
  {
    AssumptionSampleSound(hash);
    AssumptionSampleShort(hash);
    NoEvidenceReadyExactly(AssumptionSample(hash));
  }
}
