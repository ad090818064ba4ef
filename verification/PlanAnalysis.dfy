/**
  The analysis of a plan from admission to decision: the evidence and reference
  checks, the structural checkers, the review with the local semantic rules,
  and when the whole declares a plan ready for execution or raises.
*/
module PlanAnalysis {
  import opened Dictionary
  import opened EvidenceChecks
  import opened FindingIds
  import opened Identifiers
  import opened Ordering
  import opened Readiness
  import opened SemanticRules
  import opened Text
  import D = DependencyChecks

  // ----- The review -----

  function CandidateId(c: Candidate): string { c.id }

  function Proposed(reviewer: Reviewer): seq<Candidate> {
    if reviewer.Neutral? then [] else reviewer.candidates
  }

  // Ids that only the local rules may use.
  predicate Reserved(c: Candidate) {
    "semantic." <= c.id
  }

  function ReservedIds(candidates: seq<Candidate>): seq<string> {
    if candidates == [] then []
    else
      var n := |candidates| - 1;
      ReservedIds(candidates[..n]) + (if Reserved(candidates[n]) then [candidates[n].id] else [])
  }

  function Outside(candidates: seq<Candidate>): seq<Candidate> {
    if candidates == [] then []
    else
      var n := |candidates| - 1;
      Outside(candidates[..n]) + (if Reserved(candidates[n]) then [] else [candidates[n]])
  }

  function RuleProposals(req: Request): seq<Candidate> {
    Proposals(req, Hits(req))
  }

  function Substantiations(req: Request, reviewer: Reviewer): seq<Candidate> {
    Accepted(req, RuleProposals(req), true) + Accepted(req, Outside(Proposed(reviewer)), false)
  }

  function Rejections(req: Request, reviewer: Reviewer): seq<string> {
    ReservedIds(Proposed(reviewer)) + Rejected(req, RuleProposals(req), true)
    + Rejected(req, Outside(Proposed(reviewer)), false)
  }

  function Findings(candidates: seq<Candidate>): seq<Finding> {
    seq(|candidates|, i requires 0 <= i < |candidates| => External(candidates[i].id, candidates[i].gap))
  }

  function Around(req: Request, schemaErrors: nat, quotable: bool, faults: seq<Fault>, reviewer: Reviewer): Surroundings {
    Surroundings(schemaErrors, quotable, FaultFindings(faults), reviewer,
                 Findings(Substantiations(req, reviewer)), Rejections(req, reviewer))
  }

  method Partition(candidates: seq<Candidate>) returns (reserved: seq<string>, outside: seq<Candidate>)
    ensures reserved == ReservedIds(candidates) && outside == Outside(candidates)
  {
    reserved, outside := [], [];
    for i := 0 to |candidates|
      invariant reserved == ReservedIds(candidates[..i]) && outside == Outside(candidates[..i])
    {
      assert candidates[..i + 1][..i] == candidates[..i];
      if Reserved(candidates[i]) {
        reserved := reserved + [candidates[i].id];
      } else {
        outside := outside + [candidates[i]];
      }
    }
    assert candidates[..|candidates|] == candidates;
  }

  // The review of a request in which nothing was found before.
  method Review(req: Request, reviewer: Reviewer) returns (analysis: Analysis)
    ensures analysis == if ReviewValid(req, reviewer)
      then Concluded(req, Findings(Substantiations(req, reviewer)), Rejections(req, reviewer)) else Raised
  {
    if !ReviewValid(req, reviewer) {
      return Raised;
    }
    var builtIn := Propose(req);
    var reserved, external := Partition(Proposed(reviewer));
    var acceptedBuiltIn, rejectedBuiltIn := Substantiate(req, builtIn, true);
    var acceptedExternal, rejectedExternal := Substantiate(req, external, false);
    analysis := Conclude(req, Findings(acceptedBuiltIn + acceptedExternal), reserved + rejectedBuiltIn + rejectedExternal);
  }

  // ----- The analysis -----

  // What admission and the schema of a review guarantee of ids.
  ghost predicate Admitted(req: Request, reviewer: Reviewer) {
    && AdmittedIds(req)
    && (reviewer.Supplied? && reviewer.valid ==> forall c :: c in reviewer.candidates ==> Identifier(c.id))
  }

  // The analysis is one of the request, drawn from these findings.
  ghost predicate AnalyzedPlan(req: Request, schemaErrors: nat, quotable: bool, reviewer: Reviewer, analysis: Analysis,
                               faults: seq<Fault>, deterministic: seq<Finding>, dependency: seq<D.Finding>) {
    && (schemaErrors == 0 ==> Distinct(faults) && forall x :: x in faults <==> Faulty(req, x))
    && Analyzed(req, Around(req, schemaErrors, quotable, faults, reviewer), analysis, deterministic, dependency)
  }

  // The analysis of a request. It declares the request ready exactly when it
  // is, and raises exactly when it is refused.
  method Analyze(req: Request, schemaErrors: nat, quotable: bool, reviewer: Reviewer)
    returns (analysis: Analysis, ghost dependency: seq<D.Finding>)
    requires schemaErrors == 0 ==> Admitted(req, reviewer)
    ensures DeclaresReady(analysis) <==> schemaErrors == 0 && ReadyToExecute(req, reviewer)
    ensures analysis.Raised? <==> Refused(req, schemaErrors, quotable, reviewer, dependency)
    ensures analysis.Decided? ==> VerdictIs(req, schemaErrors, reviewer, analysis.decision)
    ensures exists faults, deterministic ::
      AnalyzedPlan(req, schemaErrors, quotable, reviewer, analysis, faults, deterministic, dependency)
  {
    ghost var deterministic: seq<Finding>, faults: seq<Fault>;
    if schemaErrors > 0 {
      analysis := RefuseSchema(req, schemaErrors, quotable);
      faults, deterministic, dependency := [], [], [];
    } else {
      analysis, faults, deterministic, dependency := AnalyzeAdmitted(req, quotable, reviewer);
    }
    assert AnalyzedPlan(req, schemaErrors, quotable, reviewer, analysis, faults, deterministic, dependency);
    AnalyzedExactly(req, schemaErrors, quotable, reviewer, analysis, faults, deterministic, dependency);
  }

  method CheckEvidence(req: Request) returns (faults: seq<Fault>)
    ensures Distinct(faults) && forall x :: x in faults <==> Faulty(req, x)
  {
    var evidence := EvidenceCheck(req);
    var references := ReferenceCheck(req);
    DistinctAppend(evidence, references);
    faults := evidence + references;
  }

  method AnalyzeAdmitted(req: Request, quotable: bool, reviewer: Reviewer)
    returns (analysis: Analysis, ghost faults: seq<Fault>, ghost deterministic: seq<Finding>, ghost dependency: seq<D.Finding>)
    ensures AnalyzedPlan(req, 0, quotable, reviewer, analysis, faults, deterministic, dependency)
  {
    var found := CheckEvidence(req);
    faults := found;
    FaultsOutside(found);
    var findings;
    findings, dependency := Deterministic(req, FaultFindings(found));
    deterministic := findings;
    if findings == [] {
      analysis := Review(req, reviewer);
    } else {
      analysis := Conclude(req, findings, []);
    }
  }

  // ----- What readiness and refusal mean -----

  // A rule fires but its finding is dropped: on a validation that states no
  // environment at all, or for want of any evidence to cite.
  predicate Overlooked(req: Request, hit: Hit) {
    !LocationExists(req.plan, hit) || (req.evidence == [] && !BringsEvidence(req.plan, hit))
  }

  predicate HitTooLong(plan: Plan, hit: Hit) {
    TooLong(HitPrefix(hit), Subject(plan, hit))
  }

  // The review gives an id twice: among what it has accepted, among what it
  // has rejected, or for a rule's rejected finding as well.
  ghost predicate RepeatsInReview(req: Request, candidates: seq<Candidate>) {
    || !Distinct(Ids(Accepted(req, Outside(candidates), false), CandidateId))
    || !Distinct(Rejected(req, Outside(candidates), false))
    || !Distinct(ReservedIds(candidates))
    || (exists c, hit :: c in candidates && Fires(req, hit) && Overlooked(req, hit) && c.id == HitId(req.plan, hit))
  }

  ghost predicate ReviewRefused(req: Request, reviewer: Reviewer) {
    || (reviewer.Neutral? && TooLong("review.", req.analysisId))
    || (reviewer.Supplied? && !reviewer.valid)
    || (exists hit :: Fires(req, hit) && HitTooLong(req.plan, hit))
    || RepeatsInReview(req, Proposed(reviewer))
  }

  // The plan is sound, everything it refers to is there and intact, the rules
  // fire only where they are overlooked, nothing the reviewer proposes is
  // substantiated, and the review is not refused.
  ghost predicate ReadyToExecute(req: Request, reviewer: Reviewer) {
    && Faultless(req) && Ready(req)
    && (forall hit :: Fires(req, hit) ==> Overlooked(req, hit))
    && (forall c :: c in Proposed(reviewer) && !Reserved(c) ==> !Substantiated(req, c, false))
    && !ReviewRefused(req, reviewer)
  }

  // The analysis raises: it quotes something invalid, an id is repeated, an id
  // is too long for what is derived from it, or the review is refused.
  ghost predicate Refused(req: Request, schemaErrors: nat, quotable: bool, reviewer: Reviewer, dependency: seq<D.Finding>) {
    if schemaErrors > 0 then
      !quotable || TooLong("finding.schema.error.", Decimal(schemaErrors))
    else if !SuccessValid(req.success) || !PlanValid(req.plan) then
      false
    else if Faultless(req) && Ready(req) then
      ReviewRefused(req, reviewer)
    else
      || (exists a :: a in req.plan.actions && TwoUnknown(req.plan, a.dependsOn))
      || TwoUnknownValidated(req)
      || LongName(req) || LongNumber(req, dependency)
      || exists x :: Faulty(req, x) && StampTooLong(x)
  }

  // ----- Who is accepted and who is rejected -----

  lemma {:induction false} AcceptedAre(req: Request, candidates: seq<Candidate>, locationsSuffice: bool)
    ensures forall c :: c in Accepted(req, candidates, locationsSuffice) <==>
      c in candidates && Substantiated(req, c, locationsSuffice)
  {
    if candidates != [] {
      AcceptedAre(req, candidates[..|candidates| - 1], locationsSuffice);
    }
  }

  lemma {:induction false} RejectedAre(req: Request, candidates: seq<Candidate>, locationsSuffice: bool)
    ensures forall id :: id in Rejected(req, candidates, locationsSuffice) <==>
      exists c :: c in candidates && !Substantiated(req, c, locationsSuffice) && c.id == id
  {
    if candidates != [] {
      var n, good := |candidates| - 1, iset c | Substantiated(req, c, locationsSuffice);
      RejectedAre(req, candidates[..n], locationsSuffice);
      assert candidates == candidates[..n] + [candidates[n]];
      RejectedNext(Rejected(req, candidates[..n], locationsSuffice), Rejected(req, candidates, locationsSuffice),
                   candidates[..n], candidates[n], good);
    }
  }

  lemma RejectedNext(rejected: seq<string>, longer: seq<string>, earlier: seq<Candidate>, last: Candidate, good: iset<Candidate>)
    requires forall id :: id in rejected <==> exists c :: c in earlier && c !in good && c.id == id
    requires longer == if last in good then rejected else rejected + [last.id]
    ensures var all := earlier + [last];
      forall id :: id in longer <==> exists c :: c in all && c !in good && c.id == id
  {
    var all := earlier + [last];
    forall id ensures id in longer <==> exists c :: c in all && c !in good && c.id == id {
      if c :| c in all && c !in good && c.id == id {
        assert c in earlier || c == last;
      }
      if id in rejected {
        var c :| c in earlier && c !in good && c.id == id;
        assert c in all;
      } else if id in longer {
        assert last in all;
      }
    }
  }

  lemma {:induction false} DistinctKept(req: Request, candidates: seq<Candidate>, locationsSuffice: bool)
    requires Distinct(Ids(candidates, CandidateId))
    ensures Distinct(Ids(Accepted(req, candidates, locationsSuffice), CandidateId))
    ensures Distinct(Rejected(req, candidates, locationsSuffice))
  {
    if candidates != [] {
      var n := |candidates| - 1;
      NewId(candidates, n);
      DistinctKept(req, candidates[..n], locationsSuffice);
      var earlier, dropped := Accepted(req, candidates[..n], locationsSuffice), Rejected(req, candidates[..n], locationsSuffice);
      AcceptedAre(req, candidates[..n], locationsSuffice);
      RejectedAre(req, candidates[..n], locationsSuffice);
      IdsMembers(earlier);
      IdsAppend(earlier, [candidates[n]]);
      IdsAre([candidates[n]]);
      assert Ids([candidates[n]], CandidateId) == [candidates[n].id];
      DistinctAppend(Ids(earlier, CandidateId), [candidates[n].id]);
      DistinctAppend(dropped, [candidates[n].id]);
      assert dropped + [] == dropped && earlier + [] == earlier;
    }
  }

  lemma NewId(candidates: seq<Candidate>, n: nat)
    requires Distinct(Ids(candidates, CandidateId)) && n == |candidates| - 1
    ensures Distinct(Ids(candidates[..n], CandidateId))
    ensures forall c :: c in candidates[..n] ==> c.id != candidates[n].id
  {
    var ids := Ids(candidates, CandidateId);
    IdsAre(candidates);
    assert Ids(candidates[..n], CandidateId) == ids[..n];
    forall i | 0 <= i < n ensures candidates[i].id != candidates[n].id {
      assert ids[i] != ids[n];
    }
  }

  lemma IdsAre(candidates: seq<Candidate>)
    ensures forall i :: 0 <= i < |candidates| ==> Ids(candidates, CandidateId)[i] == candidates[i].id
  {
    forall i | 0 <= i < |candidates| ensures Ids(candidates, CandidateId)[i] == candidates[i].id {
      assert CandidateId(candidates[i]) == candidates[i].id;
    }
  }

  lemma IdsAppend(a: seq<Candidate>, b: seq<Candidate>)
    ensures Ids(a + b, CandidateId) == Ids(a, CandidateId) + Ids(b, CandidateId)
  {
  }

  lemma IdsMembers(candidates: seq<Candidate>)
    ensures forall id :: id in Ids(candidates, CandidateId) <==> exists c :: c in candidates && c.id == id
  {
    var ids := Ids(candidates, CandidateId);
    IdsAre(candidates);
    forall id ensures id in ids <==> exists c :: c in candidates && c.id == id {
      if id in ids {
        var i :| 0 <= i < |ids| && ids[i] == id;
        assert candidates[i] in candidates && candidates[i].id == id;
      }
      if c :| c in candidates && c.id == id {
        var i :| 0 <= i < |candidates| && candidates[i] == c;
        assert ids[i] == id;
      }
    }
  }

  lemma {:induction false} OutsideAre(candidates: seq<Candidate>)
    ensures forall c :: c in Outside(candidates) <==> c in candidates && !Reserved(c)
  {
    if candidates != [] {
      OutsideAre(candidates[..|candidates| - 1]);
    }
  }

  lemma {:induction false} ReservedAre(candidates: seq<Candidate>)
    ensures forall id :: id in ReservedIds(candidates) <==> exists c :: c in candidates && Reserved(c) && c.id == id
  {
    if candidates != [] {
      var n := |candidates| - 1;
      ReservedAre(candidates[..n]);
      assert candidates == candidates[..n] + [candidates[n]];
    }
  }

  lemma DistinctAppendExactly<T>(a: seq<T>, b: seq<T>)
    ensures Distinct(a + b) <==> Distinct(a) && Distinct(b) && forall x :: x in a ==> x !in b
  {
    if Distinct(a + b) {
      DistinctParts(a, b);
    } else if Distinct(a) && Distinct(b) && forall x :: x in a ==> x !in b {
      DistinctAppend(a, b);
    }
  }

  lemma DistinctParts<T>(a: seq<T>, b: seq<T>)
    requires Distinct(a + b)
    ensures Distinct(a) && Distinct(b) && forall x :: x in a ==> x !in b
  {
    var s := a + b;
    assert forall i :: 0 <= i < |a| ==> s[i] == a[i];
    assert forall j :: 0 <= j < |b| ==> s[|a| + j] == b[j];
  }

  // ----- The proposals of the rules -----

  lemma RuleProposalsAre(req: Request)
    requires PlanValid(req.plan)
    ensures forall c :: c in RuleProposals(req) <==> exists hit :: Fires(req, hit) && c == Proposal(req, hit)
    ensures forall c :: c in RuleProposals(req) ==> Reserved(c)
  {
    HitsAre(req);
    var hits, proposals := Hits(req), RuleProposals(req);
    forall c ensures c in proposals <==> exists hit :: Fires(req, hit) && c == Proposal(req, hit) {
      if c in proposals {
        var i :| 0 <= i < |proposals| && proposals[i] == c;
        assert hits[i] in hits && c == Proposal(req, hits[i]);
      }
      if hit :| Fires(req, hit) && c == Proposal(req, hit) {
        var i :| 0 <= i < |hits| && hits[i] == hit;
        assert proposals[i] == c;
      }
    }
    forall c | c in proposals ensures Reserved(c) {
      var hit :| Fires(req, hit) && c == Proposal(req, hit);
      HitIdTaken(req.plan, hit);
    }
  }

  lemma ProposalId(req: Request, i: nat)
    requires i < |Hits(req)|
    ensures Ids(RuleProposals(req), CandidateId)[i] == HitId(req.plan, Hits(req)[i])
  {
    IdsAre(RuleProposals(req));
  }

  lemma RuleProposalsDistinct(req: Request)
    requires PlanValid(req.plan)
    ensures Distinct(Ids(RuleProposals(req), CandidateId))
  {
    HitsAre(req);
    var hits, ids := Hits(req), Ids(RuleProposals(req), CandidateId);
    forall i, j | 0 <= i < j < |ids| ensures ids[i] != ids[j] {
      assert hits[i] in hits && hits[j] in hits;
      ProposalId(req, i);
      ProposalId(req, j);
      if ids[i] == ids[j] {
        HitIdInjective(req, hits[i], hits[j]);
      }
    }
  }

  // A rule's finding is rejected exactly when it is overlooked or too long.
  lemma RuleRejected(req: Request, hit: Hit)
    requires Faultless(req) && Ready(req) && AdmittedIds(req) && Fires(req, hit)
    ensures Substantiated(req, Proposal(req, hit), true) <==> !Overlooked(req, hit) && !HitTooLong(req.plan, hit)
  {
    RuleAcceptedExactly(req, hit);
  }

  ghost predicate RejectedByRule(req: Request, id: string) {
    exists hit :: Fires(req, hit) && (Overlooked(req, hit) || HitTooLong(req.plan, hit)) && HitId(req.plan, hit) == id
  }

  lemma RuleOutcome(req: Request)
    requires Faultless(req) && Ready(req) && AdmittedIds(req)
    ensures var rejected := Rejected(req, RuleProposals(req), true);
      && Distinct(rejected) && (forall id :: id in rejected <==> RejectedByRule(req, id))
      && (AllIdentifiers(rejected) <==> !exists hit :: Fires(req, hit) && HitTooLong(req.plan, hit))
    ensures var accepted := Accepted(req, RuleProposals(req), true);
      && Distinct(Ids(accepted, CandidateId)) && (forall c :: c in accepted ==> Reserved(c) && Identifier(c.id))
      && (accepted == [] <==> forall hit :: Fires(req, hit) ==> Overlooked(req, hit) || HitTooLong(req.plan, hit))
  {
    var proposals := RuleProposals(req);
    RuleProposalsDistinct(req);
    DistinctKept(req, proposals, true);
    RuleRejections(req);
    RuleAcceptances(req);
  }

  lemma RuleRejections(req: Request)
    requires Faultless(req) && Ready(req) && AdmittedIds(req)
    ensures var rejected := Rejected(req, RuleProposals(req), true);
      && (forall id :: id in rejected <==> RejectedByRule(req, id))
      && (AllIdentifiers(rejected) <==> !exists hit :: Fires(req, hit) && HitTooLong(req.plan, hit))
  {
    var proposals, rejected := RuleProposals(req), Rejected(req, RuleProposals(req), true);
    RuleProposalsAre(req);
    RejectedAre(req, proposals, true);
    forall id ensures id in rejected <==> RejectedByRule(req, id) {
      if id in rejected {
        var c :| c in proposals && !Substantiated(req, c, true) && c.id == id;
        var hit :| Fires(req, hit) && c == Proposal(req, hit);
        RuleRejected(req, hit);
        assert HitId(req.plan, hit) == id;
      }
      if RejectedByRule(req, id) {
        var hit :| Fires(req, hit) && (Overlooked(req, hit) || HitTooLong(req.plan, hit)) && HitId(req.plan, hit) == id;
        RuleRejected(req, hit);
        assert Proposal(req, hit) in proposals && Proposal(req, hit).id == id;
      }
    }
    RejectedLengths(req, rejected);
  }

  lemma RejectedLengths(req: Request, rejected: seq<string>)
    requires AdmittedIds(req) && forall id :: id in rejected <==> RejectedByRule(req, id)
    ensures AllIdentifiers(rejected) <==> !exists hit :: Fires(req, hit) && HitTooLong(req.plan, hit)
  {
    if hit :| Fires(req, hit) && HitTooLong(req.plan, hit) {
      SubjectIdentifier(req, hit);
      assert RejectedByRule(req, HitId(req.plan, hit));
    }
    if id :| id in rejected && !Identifier(id) {
      var hit :| Fires(req, hit) && (Overlooked(req, hit) || HitTooLong(req.plan, hit)) && HitId(req.plan, hit) == id;
      SubjectIdentifier(req, hit);
    }
  }

  lemma RuleAcceptances(req: Request)
    requires Faultless(req) && Ready(req) && AdmittedIds(req)
    ensures var accepted := Accepted(req, RuleProposals(req), true);
      && (forall c :: c in accepted ==> Reserved(c) && Identifier(c.id))
      && (accepted == [] <==> forall hit :: Fires(req, hit) ==> Overlooked(req, hit) || HitTooLong(req.plan, hit))
  {
    var proposals, accepted := RuleProposals(req), Accepted(req, RuleProposals(req), true);
    RuleProposalsAre(req);
    AcceptedAre(req, proposals, true);
    forall c | c in accepted ensures Reserved(c) && Identifier(c.id) {
      var hit :| Fires(req, hit) && c == Proposal(req, hit);
    }
    if accepted == [] {
      forall hit | Fires(req, hit) ensures Overlooked(req, hit) || HitTooLong(req.plan, hit) {
        RuleRejected(req, hit);
        assert Proposal(req, hit) in proposals && Proposal(req, hit) !in accepted;
      }
    } else {
      var c := accepted[0];
      assert c in accepted;
      var hit :| Fires(req, hit) && c == Proposal(req, hit);
      RuleRejected(req, hit);
    }
  }

  // ----- What the review hands on -----

  lemma OutsideOutcome(req: Request, candidates: seq<Candidate>)
    requires forall c :: c in candidates ==> Identifier(c.id)
    ensures AllIdentifiers(ReservedIds(candidates)) && forall id :: id in ReservedIds(candidates) ==> "semantic." <= id
    ensures var rejected := Rejected(req, Outside(candidates), false);
      AllIdentifiers(rejected) && forall id :: id in rejected ==> !("semantic." <= id)
    ensures var accepted := Accepted(req, Outside(candidates), false);
      && (forall c :: c in accepted ==> !Reserved(c) && Identifier(c.id))
      && (accepted == [] <==> forall c :: c in candidates && !Reserved(c) ==> !Substantiated(req, c, false))
  {
    OutsideAre(candidates);
    ReservedAre(candidates);
    AcceptedAre(req, Outside(candidates), false);
    RejectedAre(req, Outside(candidates), false);
    var accepted := Accepted(req, Outside(candidates), false);
    assert accepted != [] ==> accepted[0] in accepted;
  }

  lemma AcceptedIdsExactly(req: Request, candidates: seq<Candidate>)
    requires Faultless(req) && Ready(req) && AdmittedIds(req)
    requires forall c :: c in candidates ==> Identifier(c.id)
    ensures var found := Findings(Accepted(req, RuleProposals(req), true) + Accepted(req, Outside(candidates), false));
      && (IdsAccepted(PrintedIds(req, found)) <==> Distinct(Ids(Accepted(req, Outside(candidates), false), CandidateId)))
      && (found == [] <==>
            && (forall hit :: Fires(req, hit) ==> Overlooked(req, hit) || HitTooLong(req.plan, hit))
            && (forall c :: c in candidates && !Reserved(c) ==> !Substantiated(req, c, false)))
  {
    var rules, others := Accepted(req, RuleProposals(req), true), Accepted(req, Outside(candidates), false);
    RuleOutcome(req);
    OutsideOutcome(req, candidates);
    PrintedCandidates(req, rules + others);
    JoinedIds(rules, others);
  }

  lemma JoinedIds(rules: seq<Candidate>, others: seq<Candidate>)
    requires forall c :: c in rules ==> Reserved(c) && Identifier(c.id)
    requires forall c :: c in others ==> !Reserved(c) && Identifier(c.id)
    ensures AllIdentifiers(Ids(rules + others, CandidateId))
    ensures Distinct(Ids(rules + others, CandidateId)) <==>
      Distinct(Ids(rules, CandidateId)) && Distinct(Ids(others, CandidateId))
  {
    IdsAppend(rules, others);
    IdsMembers(rules);
    IdsMembers(others);
    DistinctAppendExactly(Ids(rules, CandidateId), Ids(others, CandidateId));
  }

  lemma PrintedCandidates(req: Request, candidates: seq<Candidate>)
    ensures PrintedIds(req, Findings(candidates)) == Ids(candidates, CandidateId)
  {
    var printed, ids := PrintedIds(req, Findings(candidates)), Ids(candidates, CandidateId);
    IdsAre(candidates);
    forall i | 0 <= i < |candidates| ensures printed[i] == ids[i] {
      OutsidePrinted(req, Findings(candidates)[i]);
    }
  }

  lemma RejectionsExactly(req: Request, reviewer: Reviewer)
    requires Faultless(req) && Ready(req) && AdmittedIds(req)
    requires forall c :: c in Proposed(reviewer) ==> Identifier(c.id)
    ensures IdsAccepted(Rejections(req, reviewer)) <==>
      && !(exists hit :: Fires(req, hit) && HitTooLong(req.plan, hit))
      && Distinct(Rejected(req, Outside(Proposed(reviewer)), false)) && Distinct(ReservedIds(Proposed(reviewer)))
      && !(exists c, hit :: c in Proposed(reviewer) && Fires(req, hit) && Overlooked(req, hit) && c.id == HitId(req.plan, hit))
  {
    var candidates := Proposed(reviewer);
    var reserved, rules := ReservedIds(candidates), Rejected(req, RuleProposals(req), true);
    var others := Rejected(req, Outside(candidates), false);
    RuleOutcome(req);
    OutsideOutcome(req, candidates);
    DistinctAppendExactly(reserved, rules);
    DistinctAppendExactly(reserved + rules, others);
    RulesReserved(req, rules);
    if AllIdentifiers(rules) {
      ClashExactly(req, candidates, rules);
    }
  }

  lemma RulesReserved(req: Request, rules: seq<string>)
    requires forall id :: id in rules <==> RejectedByRule(req, id)
    ensures forall id :: id in rules ==> "semantic." <= id
  {
    forall id | id in rules ensures "semantic." <= id {
      var hit :| Fires(req, hit) && (Overlooked(req, hit) || HitTooLong(req.plan, hit)) && HitId(req.plan, hit) == id;
      HitIdTaken(req.plan, hit);
    }
  }

  lemma ClashExactly(req: Request, candidates: seq<Candidate>, rules: seq<string>)
    requires forall id :: id in rules <==> RejectedByRule(req, id)
    requires !exists hit :: Fires(req, hit) && HitTooLong(req.plan, hit)
    ensures (exists id :: id in ReservedIds(candidates) && id in rules) <==>
      exists c, hit :: c in candidates && Fires(req, hit) && Overlooked(req, hit) && c.id == HitId(req.plan, hit)
  {
    ReservedAre(candidates);
    if id :| id in ReservedIds(candidates) && id in rules {
      var c :| c in candidates && Reserved(c) && c.id == id;
      var hit :| Fires(req, hit) && (Overlooked(req, hit) || HitTooLong(req.plan, hit)) && HitId(req.plan, hit) == id;
      assert c in candidates && Overlooked(req, hit) && c.id == HitId(req.plan, hit);
    }
    if c, hit :| c in candidates && Fires(req, hit) && Overlooked(req, hit) && c.id == HitId(req.plan, hit) {
      HitIdTaken(req.plan, hit);
      assert Reserved(c) && c.id in ReservedIds(candidates) && RejectedByRule(req, c.id);
    }
  }

  // Once a review is valid, what it hands on is accepted exactly when no rule's
  // finding is too long and no id is repeated.
  lemma ReviewAcceptedExactly(req: Request, reviewer: Reviewer)
    requires Faultless(req) && Ready(req) && Admitted(req, reviewer) && ReviewValid(req, reviewer)
    ensures IdsAccepted(PrintedIds(req, Findings(Substantiations(req, reviewer)))) && IdsAccepted(Rejections(req, reviewer))
      <==> !(exists hit :: Fires(req, hit) && HitTooLong(req.plan, hit)) && !RepeatsInReview(req, Proposed(reviewer))
    ensures Substantiations(req, reviewer) == [] <==>
      && (forall hit :: Fires(req, hit) ==> Overlooked(req, hit) || HitTooLong(req.plan, hit))
      && (forall c :: c in Proposed(reviewer) && !Reserved(c) ==> !Substantiated(req, c, false))
  {
    AcceptedIdsExactly(req, Proposed(reviewer));
    RejectionsExactly(req, reviewer);
  }

  lemma ReviewValidExactly(req: Request, reviewer: Reviewer)
    requires AdmittedIds(req)
    ensures ReviewValid(req, reviewer) <==>
      !(reviewer.Neutral? && TooLong("review.", req.analysisId)) && !(reviewer.Supplied? && !reviewer.valid)
  {
    DerivedExactly("review.", req.analysisId);
  }

  lemma FaultlessExactly(req: Request, faults: seq<Fault>)
    requires forall x :: x in faults <==> Faulty(req, x)
    ensures FaultFindings(faults) == [] <==> Faultless(req)
  {
    if faults != [] {
      assert faults[0] in faults;
    }
  }

  // ----- The two verdicts -----

  // A plan is declared ready for execution exactly when it passed admission,
  // is sound in every respect, what it refers to is there and intact, every
  // rule that fires is overlooked, nothing the reviewer proposes is
  // substantiated, and no id of the review is repeated or too long.
  lemma DeclaredReadyExactly(req: Request, schemaErrors: nat, quotable: bool, reviewer: Reviewer, analysis: Analysis,
                             faults: seq<Fault>, deterministic: seq<Finding>, dependency: seq<D.Finding>)
    requires schemaErrors == 0 ==> Admitted(req, reviewer)
    requires AnalyzedPlan(req, schemaErrors, quotable, reviewer, analysis, faults, deterministic, dependency)
    ensures DeclaresReady(analysis) <==> schemaErrors == 0 && ReadyToExecute(req, reviewer)
  {
    var around := Around(req, schemaErrors, quotable, faults, reviewer);
    ReadyExactly(req, around, analysis, deterministic, dependency);
    if schemaErrors == 0 {
      FaultlessExactly(req, faults);
      if Faultless(req) && Ready(req) {
        ReviewReadyExactly(req, reviewer);
      }
    }
  }

  lemma ReviewReadyExactly(req: Request, reviewer: Reviewer)
    requires Faultless(req) && Ready(req) && Admitted(req, reviewer)
    ensures ReadyToExecute(req, reviewer) <==>
      && ReviewValid(req, reviewer) && Findings(Substantiations(req, reviewer)) == []
      && IdsAccepted(Rejections(req, reviewer))
  {
    ReviewValidExactly(req, reviewer);
    if ReviewValid(req, reviewer) {
      ReviewAcceptedExactly(req, reviewer);
      NothingAccepted(req, reviewer);
    }
  }

  lemma ReviewRefusedExactly(req: Request, reviewer: Reviewer)
    requires Faultless(req) && Ready(req) && Admitted(req, reviewer)
    ensures ReviewRefused(req, reviewer) <==>
      || !ReviewValid(req, reviewer) || !IdsAccepted(PrintedIds(req, Findings(Substantiations(req, reviewer))))
      || !IdsAccepted(Rejections(req, reviewer))
  {
    ReviewValidExactly(req, reviewer);
    if ReviewValid(req, reviewer) {
      ReviewAcceptedExactly(req, reviewer);
    }
  }

  lemma NothingAccepted(req: Request, reviewer: Reviewer)
    ensures Findings(Substantiations(req, reviewer)) == [] <==> Substantiations(req, reviewer) == []
    ensures PrintedIds(req, []) == []
  {
  }

  // The analysis raises exactly when the request is refused.
  lemma RefusedExactly(req: Request, schemaErrors: nat, quotable: bool, reviewer: Reviewer, analysis: Analysis,
                       faults: seq<Fault>, deterministic: seq<Finding>, dependency: seq<D.Finding>)
    requires schemaErrors == 0 ==> Admitted(req, reviewer)
    requires AnalyzedPlan(req, schemaErrors, quotable, reviewer, analysis, faults, deterministic, dependency)
    ensures analysis.Raised? <==> Refused(req, schemaErrors, quotable, reviewer, dependency)
  {
    var around := Around(req, schemaErrors, quotable, faults, reviewer);
    FaultsOutside(faults);
    RaisesExactly(req, around, analysis, deterministic, dependency);
    if schemaErrors == 0 {
      ObjectsExactly(req, quotable, reviewer, faults, dependency);
    }
  }

  lemma ObjectsExactly(req: Request, quotable: bool, reviewer: Reviewer, faults: seq<Fault>, dependency: seq<D.Finding>)
    requires Admitted(req, reviewer) && Distinct(faults) && forall x :: x in faults <==> Faulty(req, x)
    ensures Objects(req, Around(req, 0, quotable, faults, reviewer), dependency) <==>
      Refused(req, 0, quotable, reviewer, dependency)
  {
    FaultsDistinct(req, faults);
    FaultlessExactly(req, faults);
    FaultIdentifiers(req, faults);
    if Faultless(req) && Ready(req) {
      ReviewValidExactly(req, reviewer);
      ReviewRefusedExactly(req, reviewer);
    }
  }

  // ----- The verdict of every other decision -----

  lemma AnalyzedExactly(req: Request, schemaErrors: nat, quotable: bool, reviewer: Reviewer, analysis: Analysis,
                        faults: seq<Fault>, deterministic: seq<Finding>, dependency: seq<D.Finding>)
    requires schemaErrors == 0 ==> Admitted(req, reviewer)
    requires AnalyzedPlan(req, schemaErrors, quotable, reviewer, analysis, faults, deterministic, dependency)
    ensures DeclaresReady(analysis) <==> schemaErrors == 0 && ReadyToExecute(req, reviewer)
    ensures analysis.Raised? <==> Refused(req, schemaErrors, quotable, reviewer, dependency)
    ensures analysis.Decided? ==> VerdictIs(req, schemaErrors, reviewer, analysis.decision)
  {
    DeclaredReadyExactly(req, schemaErrors, quotable, reviewer, analysis, faults, deterministic, dependency);
    RefusedExactly(req, schemaErrors, quotable, reviewer, analysis, faults, deterministic, dependency);
    if analysis.Decided? {
      VerdictExactly(req, schemaErrors, quotable, reviewer, analysis, faults, deterministic, dependency);
    }
  }

  // What of a review counts: a rule that fires and is not overlooked, and a
  // proposal from outside that is substantiated.
  ghost predicate RuleRaises(req: Request, gap: Gap) {
    exists hit :: Fires(req, hit) && !Overlooked(req, hit) && OfGap(hit, gap)
  }

  ghost predicate OfGap(hit: Hit, gap: Gap) {
    match hit
    case Unsubstantiated(_) => gap == UnsupportedAssumption
    case OtherEnvironment(_) => gap == OutputEnvironmentGap
    case OtherEvidence(_) => gap == ValidationEvidenceGap
  }

  ghost predicate ReviewerRaises(req: Request, reviewer: Reviewer, gap: Gap) {
    reviewer.Supplied? && exists c :: c in reviewer.candidates && !("semantic." <= c.id) && Substantiated(req, c, false) && c.gap == gap
  }

  // The verdict of a decision: only a review of an otherwise sound plan leads
  // to anything but a material gap, and there the gravest gap raised decides.
  ghost predicate VerdictIs(req: Request, schemaErrors: nat, reviewer: Reviewer, d: Decision) {
    var sound := schemaErrors == 0 && Faultless(req) && Ready(req);
    && (d.verdict == NoMaterialGap <==> schemaErrors == 0 && ReadyToExecute(req, reviewer))
    && (d.ready <==> d.verdict == NoMaterialGap) && (d.blocking <==> d.verdict != NoMaterialGap)
    && (d.verdict == Contradicted <==> sound && ReviewerRaises(req, reviewer, Contradiction))
    && (d.verdict == DriftRevalidationRequired <==>
          sound && ReviewerRaises(req, reviewer, RelevantDrift) && !ReviewerRaises(req, reviewer, Contradiction))
    && (d.verdict == MissingEvidence <==>
          && sound && !ReviewerRaises(req, reviewer, Contradiction) && !ReviewerRaises(req, reviewer, RelevantDrift)
          && (EvidenceRaised(req, reviewer, UnsupportedAssumption) || EvidenceRaised(req, reviewer, ValidationEvidenceGap)
              || EvidenceRaised(req, reviewer, OutputEnvironmentGap)))
  }

  ghost predicate EvidenceRaised(req: Request, reviewer: Reviewer, gap: Gap) {
    RuleRaises(req, gap) || ReviewerRaises(req, reviewer, gap)
  }

  lemma VerdictExactly(req: Request, schemaErrors: nat, quotable: bool, reviewer: Reviewer, analysis: Analysis,
                       faults: seq<Fault>, deterministic: seq<Finding>, dependency: seq<D.Finding>)
    requires schemaErrors == 0 ==> Admitted(req, reviewer)
    requires AnalyzedPlan(req, schemaErrors, quotable, reviewer, analysis, faults, deterministic, dependency)
    requires analysis.Decided?
    ensures VerdictIs(req, schemaErrors, reviewer, analysis.decision)
  {
    DeclaredReadyExactly(req, schemaErrors, quotable, reviewer, analysis, faults, deterministic, dependency);
    if schemaErrors == 0 {
      AdmittedVerdict(req, quotable, reviewer, analysis, faults, deterministic, dependency);
    }
  }

  lemma AdmittedVerdict(req: Request, quotable: bool, reviewer: Reviewer, analysis: Analysis,
                        faults: seq<Fault>, deterministic: seq<Finding>, dependency: seq<D.Finding>)
    requires Admitted(req, reviewer) && AnalyzedPlan(req, 0, quotable, reviewer, analysis, faults, deterministic, dependency)
    requires analysis.Decided? && (DeclaresReady(analysis) <==> ReadyToExecute(req, reviewer))
    ensures VerdictIs(req, 0, reviewer, analysis.decision)
  {
    var around := Around(req, 0, quotable, faults, reviewer);
    FaultlessExactly(req, faults);
    DeterministicExactly(req, around, deterministic, dependency);
    if deterministic == [] {
      ReviewVerdict(req, reviewer, analysis);
    } else {
      CheckersVerdict(req, faults, around, deterministic, dependency);
      UnsoundVerdict(req, reviewer, analysis.decision, deterministic);
    }
  }

  lemma UnsoundVerdict(req: Request, reviewer: Reviewer, d: Decision, found: seq<Finding>)
    requires d == DecisionFrom(found, []) && found != [] && DecisionType(found) == MaterialGapFound
    requires !(Faultless(req) && Ready(req))
    ensures VerdictIs(req, 0, reviewer, d)
  {
  }

  // Nothing is found before the review exactly on a sound plan with nothing
  // wrong in its evidence.
  lemma DeterministicExactly(req: Request, around: Surroundings, deterministic: seq<Finding>, dependency: seq<D.Finding>)
    requires around.schemaErrors == 0
    requires SuccessValid(req.success) && PlanValid(req.plan) ==> CheckersFind(req, around.evidence, dependency, deterministic)
    requires !SuccessValid(req.success) || !PlanValid(req.plan) ==>
      deterministic == (if SuccessValid(req.success) then [] else [DomainInvalid("success_definition")])
        + (if PlanValid(req.plan) then [] else [DomainInvalid("plan")])
    ensures deterministic == [] <==> around.evidence == [] && Ready(req)
  {
    if SuccessValid(req.success) && PlanValid(req.plan) {
      SilentExactly(req, around.evidence, dependency, deterministic);
    }
  }

  // Whatever the checks and the checkers find is no more than a material gap.
  lemma CheckersVerdict(req: Request, faults: seq<Fault>, around: Surroundings, deterministic: seq<Finding>, dependency: seq<D.Finding>)
    requires around.evidence == FaultFindings(faults) && deterministic != []
    requires SuccessValid(req.success) && PlanValid(req.plan) ==> CheckersFind(req, around.evidence, dependency, deterministic)
    requires !SuccessValid(req.success) || !PlanValid(req.plan) ==>
      deterministic == (if SuccessValid(req.success) then [] else [DomainInvalid("success_definition")])
        + (if PlanValid(req.plan) then [] else [DomainInvalid("plan")])
    ensures DecisionType(deterministic) == MaterialGapFound
  {
    DecisionTypeExactly(deterministic);
    forall f | f in deterministic ensures !(f.External? && f.gap != BrokenReference) {
      if f.External? {
        assert f in around.evidence;
      }
    }
    forall f | f in deterministic
      ensures GapOf(f) in {StructuralInvalid, CoverageGap, DependencyGap, AuthorityAmbiguity, SequenceActivationGap, BrokenReference}
    {
      GapsExactly(f);
    }
  }

  lemma ReviewVerdict(req: Request, reviewer: Reviewer, analysis: Analysis)
    requires Faultless(req) && Ready(req) && Admitted(req, reviewer) && analysis.Decided? && ReviewValid(req, reviewer)
    requires analysis == Concluded(req, Findings(Substantiations(req, reviewer)), Rejections(req, reviewer))
    ensures VerdictIs(req, 0, reviewer, analysis.decision)
  {
    var found := Findings(Substantiations(req, reviewer));
    ReviewReadyExactly(req, reviewer);
    RejectionsExactly(req, reviewer);
    forall gap ensures HasGap(found, gap) <==> EvidenceRaised(req, reviewer, gap) {
      ReviewRaises(req, reviewer, gap);
    }
    RaisedVerdict(req, reviewer, found);
  }

  // The verdict on findings with these gaps.
  lemma RaisedVerdict(req: Request, reviewer: Reviewer, found: seq<Finding>)
    requires forall gap :: HasGap(found, gap) <==> EvidenceRaised(req, reviewer, gap)
    ensures var verdict := DecisionFrom(found, []).verdict;
      && (verdict == NoMaterialGap <==> found == [])
      && (verdict == Contradicted <==> ReviewerRaises(req, reviewer, Contradiction))
      && (verdict == DriftRevalidationRequired <==>
            ReviewerRaises(req, reviewer, RelevantDrift) && !ReviewerRaises(req, reviewer, Contradiction))
      && (verdict == MissingEvidence <==>
            && !ReviewerRaises(req, reviewer, Contradiction) && !ReviewerRaises(req, reviewer, RelevantDrift)
            && (EvidenceRaised(req, reviewer, UnsupportedAssumption) || EvidenceRaised(req, reviewer, ValidationEvidenceGap)
                || EvidenceRaised(req, reviewer, OutputEnvironmentGap)))
  {
    DecisionTypeExactly(found);
    RulesRaiseEvidence(req, Contradiction);
    RulesRaiseEvidence(req, RelevantDrift);
  }

  lemma RulesRaiseEvidence(req: Request, gap: Gap)
    ensures RuleRaises(req, gap) ==> gap in {UnsupportedAssumption, OutputEnvironmentGap, ValidationEvidenceGap}
  {
  }

  // The gaps among the findings of a review.
  lemma ReviewRaises(req: Request, reviewer: Reviewer, gap: Gap)
    requires Faultless(req) && Ready(req) && Admitted(req, reviewer)
    requires !exists hit :: Fires(req, hit) && HitTooLong(req.plan, hit)
    ensures HasGap(Findings(Substantiations(req, reviewer)), gap) <==> EvidenceRaised(req, reviewer, gap)
  {
    var rules, others := Accepted(req, RuleProposals(req), true), Accepted(req, Outside(Proposed(reviewer)), false);
    RulesRaise(req, gap);
    OthersRaise(req, reviewer, gap);
    FindingGaps(rules + others, gap);
  }

  lemma FindingGaps(candidates: seq<Candidate>, gap: Gap)
    ensures HasGap(Findings(candidates), gap) <==> exists c :: c in candidates && c.gap == gap
  {
    var found := Findings(candidates);
    if f :| f in found && GapOf(f) == gap {
      var i :| 0 <= i < |found| && found[i] == f;
      assert candidates[i] in candidates && candidates[i].gap == gap;
    }
    if c :| c in candidates && c.gap == gap {
      var i :| 0 <= i < |candidates| && candidates[i] == c;
      assert found[i] in found && GapOf(found[i]) == gap;
    }
  }

  lemma RulesRaise(req: Request, gap: Gap)
    requires Faultless(req) && Ready(req) && AdmittedIds(req)
    requires !exists hit :: Fires(req, hit) && HitTooLong(req.plan, hit)
    ensures (exists c :: c in Accepted(req, RuleProposals(req), true) && c.gap == gap) <==> RuleRaises(req, gap)
  {
    var proposals := RuleProposals(req);
    RuleProposalsAre(req);
    AcceptedAre(req, proposals, true);
    if c :| c in Accepted(req, proposals, true) && c.gap == gap {
      var hit :| Fires(req, hit) && c == Proposal(req, hit);
      RuleCounts(req, hit, gap);
    }
    if RuleRaises(req, gap) {
      var hit :| Fires(req, hit) && !Overlooked(req, hit) && OfGap(hit, gap);
      RuleCounts(req, hit, gap);
      assert Proposal(req, hit) in proposals;
    }
  }

  lemma RuleCounts(req: Request, hit: Hit, gap: Gap)
    requires Faultless(req) && Ready(req) && AdmittedIds(req) && Fires(req, hit) && !HitTooLong(req.plan, hit)
    ensures Substantiated(req, Proposal(req, hit), true) <==> !Overlooked(req, hit)
    ensures Proposal(req, hit).gap == gap <==> OfGap(hit, gap)
  {
    RuleRejected(req, hit);
  }

  lemma OthersRaise(req: Request, reviewer: Reviewer, gap: Gap)
    ensures (exists c :: c in Accepted(req, Outside(Proposed(reviewer)), false) && c.gap == gap) <==> ReviewerRaises(req, reviewer, gap)
  {
    OutsideAre(Proposed(reviewer));
    AcceptedAre(req, Outside(Proposed(reviewer)), false);
  }
}
