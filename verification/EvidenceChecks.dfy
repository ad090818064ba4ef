/**
  The evidence and reference checks of plan analysis: hashes of the supplied
  artifacts, the evidence the plan refers to, and the references by which it
  is bound to its success definition, baseline and authority bundle.
*/
module EvidenceChecks {
  import opened Dictionary
  import opened FindingIds
  import opened Identifiers
  import opened Ordering
  import opened Readiness
  import opened Text

  datatype Artifact = AuthorityEvidence | RepositoryEvidence | RepositoryBaseline

  datatype RefField = ArtifactId | SchemaId | Version | ContentHash

  datatype Fault =
    | DuplicateId(id: string)
    | BrokenArtifact(artifact: Artifact)
    | BrokenItem(item: nat)
    | BadReference(number: nat)
    | WrongSuccess(field: RefField)
    | WrongBaseline
    | WrongAuthority

  // The finding id a fault is reported under.
  function Stamp(x: Fault): string {
    Front(x) + Back(x)
  }

  function Front(x: Fault): string {
    match x
    case DuplicateId(_) => "evidence.duplicate."
    case BrokenArtifact(_) => "hash."
    case BrokenItem(_) => "hash.evidence."
    case BadReference(_) => "evidence.reference."
    case WrongSuccess(_) => "reference.success."
    case WrongBaseline => "reference."
    case WrongAuthority => "reference."
  }

  function Back(x: Fault): string {
    match x
    case DuplicateId(id) => id
    case BrokenArtifact(a) => Label(a)
    case BrokenItem(i) => Decimal(i)
    case BadReference(n) => Decimal(n)
    case WrongSuccess(field) => FieldName(field)
    case WrongBaseline => "repository_baseline_reference"
    case WrongAuthority => "authority_bundle_reference"
  }

  function Label(a: Artifact): string {
    match a
    case AuthorityEvidence => "authority-evidence"
    case RepositoryEvidence => "repository-evidence"
    case RepositoryBaseline => "repository-baseline"
  }

  function FieldName(field: RefField): string {
    match field
    case ArtifactId => "artifact_id"
    case SchemaId => "schema_id"
    case Version => "version"
    case ContentHash => "content_hash"
  }

  // ----- What the checks look for -----

  // The evidence known under the id of a reference has its hash. As in a
  // dictionary comprehension, the last item with an id counts.
  predicate Present(evidence: seq<EvidenceItem>, ref: EvidenceRef) {
    var known := ById(evidence, EvidenceId);
    ref.evidenceId in known && known[ref.evidenceId].hash == ref.hash
  }

  function PrerequisiteEvidence(prerequisites: seq<Prerequisite>): seq<EvidenceRef> {
    if prerequisites == [] then []
    else PrerequisiteEvidence(prerequisites[..|prerequisites| - 1]) + prerequisites[|prerequisites| - 1].refs
  }

  function ActionEvidence(actions: seq<Action>): seq<EvidenceRef> {
    if actions == [] then []
    else ActionEvidence(actions[..|actions| - 1]) + PrerequisiteEvidence(actions[|actions| - 1].prerequisites)
  }

  function AssumptionEvidence(assumptions: seq<Assumption>): seq<EvidenceRef> {
    if assumptions == [] then []
    else AssumptionEvidence(assumptions[..|assumptions| - 1]) + assumptions[|assumptions| - 1].refs
  }

  function RiskEvidence(risks: seq<Risk>): seq<EvidenceRef> {
    if risks == [] then []
    else RiskEvidence(risks[..|risks| - 1]) + risks[|risks| - 1].refs
  }

  // Every evidence reference of the plan, in the order they are collected.
  function PlanEvidence(plan: Plan): seq<EvidenceRef> {
    ActionEvidence(plan.actions) + AssumptionEvidence(plan.assumptions) + RiskEvidence(plan.risks)
  }

  predicate Duplicated(items: seq<EvidenceItem>, id: string) {
    exists i, j :: 0 <= i < j < |items| && items[i].evidenceId == id && items[j].evidenceId == id
  }

  predicate Intact(artifacts: Artifacts, a: Artifact) {
    match a
    case AuthorityEvidence => artifacts.authorityIntact
    case RepositoryEvidence => artifacts.repositoryIntact
    case RepositoryBaseline => artifacts.baselineIntact
  }

  function FieldOf(ref: ArtifactRef, field: RefField): string {
    match field
    case ArtifactId => ref.artifactId
    case SchemaId => ref.schemaId
    case Version => ref.version
    case ContentHash => ref.hash
  }

  predicate EvidenceFaulty(req: Request, x: Fault) {
    match x
    case DuplicateId(id) => Duplicated(req.evidence, id)
    case BrokenArtifact(a) => !Intact(req.artifacts, a)
    case BrokenItem(i) => i < |req.evidence| && !req.evidence[i].intact
    case BadReference(n) => n < |PlanEvidence(req.plan)| && !Present(req.evidence, PlanEvidence(req.plan)[n])
    case _ => false
  }

  predicate ReferenceFaulty(req: Request, x: Fault) {
    match x
    case WrongSuccess(field) => FieldOf(req.plan.successRef, field) != FieldOf(req.artifacts.success, field)
    case WrongBaseline => req.plan.baselineRef != req.artifacts.baseline
    case WrongAuthority => req.plan.authorityRef != req.artifacts.authority
    case _ => false
  }

  predicate Faulty(req: Request, x: Fault) {
    EvidenceFaulty(req, x) || ReferenceFaulty(req, x)
  }

  // ----- The checks -----

  method CollectRefs(plan: Plan) returns (refs: seq<EvidenceRef>)
    ensures refs == PlanEvidence(plan)
  {
    refs := [];
    for i := 0 to |plan.actions|
      invariant refs == ActionEvidence(plan.actions[..i])
    {
      assert plan.actions[..i + 1][..i] == plan.actions[..i];
      var found := CollectPrerequisites(plan.actions[i].prerequisites);
      refs := refs + found;
    }
    assert plan.actions[..|plan.actions|] == plan.actions;
    var assumed := CollectAssumptions(plan.assumptions);
    var risked := CollectRisks(plan.risks);
    refs := refs + assumed + risked;
  }

  method CollectAssumptions(assumptions: seq<Assumption>) returns (refs: seq<EvidenceRef>)
    ensures refs == AssumptionEvidence(assumptions)
  {
    refs := [];
    for i := 0 to |assumptions|
      invariant refs == AssumptionEvidence(assumptions[..i])
    {
      assert assumptions[..i + 1][..i] == assumptions[..i];
      refs := refs + assumptions[i].refs;
    }
    assert assumptions[..|assumptions|] == assumptions;
  }

  method CollectRisks(risks: seq<Risk>) returns (refs: seq<EvidenceRef>)
    ensures refs == RiskEvidence(risks)
  {
    refs := [];
    for i := 0 to |risks|
      invariant refs == RiskEvidence(risks[..i])
    {
      assert risks[..i + 1][..i] == risks[..i];
      refs := refs + risks[i].refs;
    }
    assert risks[..|risks|] == risks;
  }

  method CollectPrerequisites(prerequisites: seq<Prerequisite>) returns (refs: seq<EvidenceRef>)
    ensures refs == PrerequisiteEvidence(prerequisites)
  {
    refs := [];
    for j := 0 to |prerequisites|
      invariant refs == PrerequisiteEvidence(prerequisites[..j])
    {
      assert prerequisites[..j + 1][..j] == prerequisites[..j];
      refs := refs + prerequisites[j].refs;
    }
    assert prerequisites[..|prerequisites|] == prerequisites;
  }

  method CountId(items: seq<EvidenceItem>, id: string) returns (count: nat)
    ensures count > 1 <==> Duplicated(items, id)
  {
    count := 0;
    for i := 0 to |items|
      invariant count >= 1 <==> exists k :: 0 <= k < i && items[k].evidenceId == id
      invariant count > 1 <==> Duplicated(items[..i], id)
    {
      if items[i].evidenceId == id {
        count := count + 1;
      }
    }
    assert items[..|items|] == items;
  }

  method DuplicateIds(items: seq<EvidenceItem>) returns (ids: seq<string>)
    ensures forall id :: id in ids <==> Duplicated(items, id)
    ensures Distinct(ids)
  {
    var repeated: seq<string> := [];
    for i := 0 to |items|
      invariant forall id :: id in repeated <==> Duplicated(items, id) && exists k :: 0 <= k < i && items[k].evidenceId == id
    {
      var count := CountId(items, items[i].evidenceId);
      if count > 1 {
        repeated := repeated + [items[i].evidenceId];
      }
    }
    ids := SortDistinct(StringLess, repeated);
    StringLessIsStrictTotalOrder();
    SortDistinctIncreasing(StringLess, repeated);
    IncreasingDistinct(StringLess, ids);
  }

  method DuplicateFaults(req: Request) returns (faults: seq<Fault>)
    ensures forall x :: x in faults <==> x.DuplicateId? && EvidenceFaulty(req, x)
    ensures Distinct(faults)
  {
    var ids := DuplicateIds(req.evidence);
    faults := [];
    for i := 0 to |ids|
      invariant forall x :: x in faults <==> x.DuplicateId? && x.id in ids[..i]
      invariant Distinct(faults)
    {
      assert ids[..i + 1] == ids[..i] + [ids[i]] && ids[i] !in ids[..i];
      faults := faults + [DuplicateId(ids[i])];
    }
    assert ids[..|ids|] == ids;
  }

  method ArtifactFaults(artifacts: Artifacts) returns (faults: seq<Fault>)
    ensures forall x :: x in faults <==> x.BrokenArtifact? && !Intact(artifacts, x.artifact)
    ensures Distinct(faults)
  {
    var all := [AuthorityEvidence, RepositoryEvidence, RepositoryBaseline];
    faults := [];
    for k := 0 to |all|
      invariant forall x :: x in faults <==> x.BrokenArtifact? && x.artifact in all[..k] && !Intact(artifacts, x.artifact)
      invariant Distinct(faults)
    {
      assert all[..k + 1] == all[..k] + [all[k]] && all[k] !in all[..k];
      if !Intact(artifacts, all[k]) {
        faults := faults + [BrokenArtifact(all[k])];
      }
    }
    forall a: Artifact ensures a in all[..|all|] {
      assert all[..|all|] == all && all[match a case AuthorityEvidence => 0 case RepositoryEvidence => 1 case _ => 2] == a;
    }
  }

  method ItemFaults(items: seq<EvidenceItem>) returns (faults: seq<Fault>)
    ensures forall x :: x in faults <==> x.BrokenItem? && x.item < |items| && !items[x.item].intact
    ensures Distinct(faults)
  {
    faults := [];
    for i := 0 to |items|
      invariant forall x :: x in faults <==> x.BrokenItem? && x.item < i && !items[x.item].intact
      invariant Distinct(faults)
    {
      if !items[i].intact {
        faults := faults + [BrokenItem(i)];
      }
    }
  }

  method RefFaults(evidence: seq<EvidenceItem>, refs: seq<EvidenceRef>) returns (faults: seq<Fault>)
    ensures forall x :: x in faults <==> x.BadReference? && x.number < |refs| && !Present(evidence, refs[x.number])
    ensures Distinct(faults)
  {
    faults := [];
    for n := 0 to |refs|
      invariant forall x :: x in faults <==> x.BadReference? && x.number < n && !Present(evidence, refs[x.number])
      invariant Distinct(faults)
    {
      if !Present(evidence, refs[n]) {
        faults := faults + [BadReference(n)];
      }
    }
  }

  method EvidenceCheck(req: Request) returns (faults: seq<Fault>)
    ensures forall x :: x in faults <==> EvidenceFaulty(req, x)
    ensures Distinct(faults)
  {
    var duplicates := DuplicateFaults(req);
    var artifacts := ArtifactFaults(req.artifacts);
    var items := ItemFaults(req.evidence);
    var refs := CollectRefs(req.plan);
    var references := RefFaults(req.evidence, refs);
    DistinctAppend(duplicates, artifacts);
    DistinctAppend(duplicates + artifacts, items);
    DistinctAppend(duplicates + artifacts + items, references);
    faults := duplicates + artifacts + items + references;
  }

  function PositionOf(field: RefField): nat {
    match field
    case ArtifactId => 0
    case SchemaId => 1
    case Version => 2
    case ContentHash => 3
  }

  method ReferenceCheck(req: Request) returns (faults: seq<Fault>)
    ensures forall x :: x in faults <==> ReferenceFaulty(req, x)
    ensures Distinct(faults)
  {
    var fields := [ArtifactId, SchemaId, Version, ContentHash];
    faults := [];
    for k := 0 to |fields|
      invariant forall x :: x in faults <==> x.WrongSuccess? && x.field in fields[..k] && ReferenceFaulty(req, x)
      invariant Distinct(faults)
    {
      assert fields[..k + 1] == fields[..k] + [fields[k]] && fields[k] !in fields[..k];
      if FieldOf(req.plan.successRef, fields[k]) != FieldOf(req.artifacts.success, fields[k]) {
        faults := faults + [WrongSuccess(fields[k])];
      }
    }
    forall field: RefField ensures field in fields[..|fields|] {
      assert fields[..|fields|] == fields && fields[PositionOf(field)] == field;
    }
    if req.plan.baselineRef != req.artifacts.baseline {
      DistinctAppend(faults, [WrongBaseline]);
      faults := faults + [WrongBaseline];
    }
    if req.plan.authorityRef != req.artifacts.authority {
      DistinctAppend(faults, [WrongAuthority]);
      faults := faults + [WrongAuthority];
    }
  }

  // ----- The findings -----

  function FaultFindings(faults: seq<Fault>): seq<Finding> {
    seq(|faults|, i requires 0 <= i < |faults| => External(Stamp(faults[i]), BrokenReference))
  }

  // What kind of fault a finding id was made from, told by a few characters.
  function Kind(s: string): nat {
    match At(s, 0)
    case 'e' => if At(s, 9) == 'd' then 0 else 3
    case 'h' => if At(s, 5) == 'e' then 2 else 1
    case _ => (match At(s, 10) case 's' => 4 case 'r' => 5 case _ => 6)
  }

  function KindOf(x: Fault): nat {
    match x
    case DuplicateId(_) => 0
    case BrokenArtifact(_) => 1
    case BrokenItem(_) => 2
    case BadReference(_) => 3
    case WrongSuccess(_) => 4
    case WrongBaseline => 5
    case WrongAuthority => 6
  }

  lemma KindRecognized(x: Fault)
    ensures Kind(Stamp(x)) == KindOf(x)
  {
    var s, front, back := Stamp(x), Front(x), Back(x);
    assert forall i: nat :: i < |front| ==> At(s, i) == front[i];
    assert back != [] ==> At(s, |front|) == back[0];
  }

  lemma BackInjective(x: Fault, y: Fault)
    requires KindOf(x) == KindOf(y) && Back(x) == Back(y)
    ensures x == y
  {
    match x
    case DuplicateId(_) =>
    case BrokenArtifact(a) => assert Label(a)[0] == Label(y.artifact)[0] && Label(a)[11] == Label(y.artifact)[11];
    case BrokenItem(i) => DecimalInjective(i, y.item);
    case BadReference(n) => DecimalInjective(n, y.number);
    case WrongSuccess(field) => assert FieldName(field)[0] == FieldName(y.field)[0];
    case WrongBaseline =>
    case WrongAuthority =>
  }

  // Different faults are never reported under the same id.
  lemma StampInjective(x: Fault, y: Fault)
    requires Stamp(x) == Stamp(y)
    ensures x == y
  {
    KindRecognized(x);
    KindRecognized(y);
    SameSplit(Front(x), Back(x), Front(y), Back(y));
    BackInjective(x, y);
  }

  lemma StampOutside(x: Fault)
    ensures OutsideName(Stamp(x))
  {
    var s, front := Stamp(x), Front(x);
    assert s[..|front|] == front;
    if x.DuplicateId? || x.BadReference? {
      assert s[..9] == front[..9] == "evidence.";
    } else if x.BrokenArtifact? || x.BrokenItem? {
      assert s[..5] == front[..5] == "hash.";
    } else {
      assert s[..10] == front[..10] == "reference.";
    }
  }

  // A fault has no admissible id: a repeated evidence id leaves no room for the
  // prefix, or a position has too many digits.
  predicate StampTooLong(x: Fault) {
    match x
    case DuplicateId(id) => TooLong("evidence.duplicate.", id)
    case BrokenItem(i) => TooLong("hash.evidence.", Decimal(i))
    case BadReference(n) => TooLong("evidence.reference.", Decimal(n))
    case _ => false
  }

  lemma StampIdentifier(req: Request, x: Fault)
    requires Faulty(req, x) && forall e :: e in req.evidence ==> Identifier(e.evidenceId)
    ensures Identifier(Stamp(x)) <==> !StampTooLong(x)
  {
    if x.DuplicateId? {
      DuplicateNamed(req.evidence, x.id);
      FrontOpens(x);
      DerivedExactly(Front(x), x.id);
    } else if x.BrokenItem? || x.BadReference? {
      NumberedStamps(x);
    } else {
      FixedStamps(x);
    }
  }

  lemma DuplicateNamed(items: seq<EvidenceItem>, id: string)
    requires Duplicated(items, id) && forall e :: e in items ==> Identifier(e.evidenceId)
    ensures Identifier(id)
  {
    var i :| 0 <= i < |items| && items[i].evidenceId == id;
    assert items[i] in items;
  }

  lemma FrontOpens(x: Fault)
    requires x.DuplicateId? || x.BrokenItem? || x.BadReference?
    ensures Opening(Front(x))
  {
  }

  lemma NumberedStamps(x: Fault)
    requires x.BrokenItem? || x.BadReference?
    ensures Identifier(Stamp(x)) <==> !StampTooLong(x)
  {
    FrontOpens(x);
    DecimalPlain(if x.BrokenItem? then x.item else x.number);
    PlainExactly(Front(x), Back(x));
  }

  lemma FixedStamps(x: Fault)
    requires x.BrokenArtifact? || x.WrongSuccess? || x.WrongBaseline? || x.WrongAuthority?
    ensures Identifier(Stamp(x))
  {
    if x.BrokenArtifact? {
      LabelPlain(x.artifact);
    } else if x.WrongSuccess? {
      FieldPlain(x.field);
    } else {
      ReferencePlain(x);
    }
    PlainExactly(Front(x), Back(x));
  }

  lemma LabelPlain(a: Artifact)
    ensures Opening("hash.") && AllIdChars(Label(a)) && 1 <= |Label(a)| <= 30
  {
  }

  lemma FieldPlain(field: RefField)
    ensures Opening("reference.success.") && AllIdChars(FieldName(field)) && 1 <= |FieldName(field)| <= 30
  {
  }

  lemma ReferencePlain(x: Fault)
    requires x.WrongBaseline? || x.WrongAuthority?
    ensures Opening("reference.") && AllIdChars(Back(x)) && 1 <= |Back(x)| <= 30
  {
  }

  // The findings are under ids of their own kind.
  lemma FaultsOutside(faults: seq<Fault>)
    ensures FromEvidence(FaultFindings(faults))
  {
    var found := FaultFindings(faults);
    forall f | f in found ensures f.External? && OutsideName(f.id) {
      var i :| 0 <= i < |found| && found[i] == f;
      StampOutside(faults[i]);
    }
  }

  // None of their ids is given twice.
  lemma FaultsDistinct(req: Request, faults: seq<Fault>)
    requires Distinct(faults)
    ensures Distinct(ReportedIds(req, FaultFindings(faults)))
  {
    var ids := ReportedIds(req, FaultFindings(faults));
    forall i, j | 0 <= i < j < |ids| ensures ids[i] != ids[j] {
      if ids[i] == ids[j] {
        StampInjective(faults[i], faults[j]);
      }
    }
  }

  // Their ids are identifiers exactly when no repeated evidence id and no
  // position is too long.
  lemma FaultIdentifiers(req: Request, faults: seq<Fault>)
    requires forall x :: x in faults <==> Faulty(req, x)
    requires forall e :: e in req.evidence ==> Identifier(e.evidenceId)
    ensures (exists e :: e in FaultFindings(faults) && e.External? && !Identifier(e.id)) <==>
      exists x :: Faulty(req, x) && StampTooLong(x)
  {
    var found := FaultFindings(faults);
    if e :| e in found && e.External? && !Identifier(e.id) {
      var i :| 0 <= i < |found| && found[i] == e;
      assert faults[i] in faults;
      StampIdentifier(req, faults[i]);
    }
    if x :| Faulty(req, x) && StampTooLong(x) {
      StampIdentifier(req, x);
      var i :| 0 <= i < |faults| && faults[i] == x;
      assert found[i] == External(Stamp(x), BrokenReference) && found[i] in found;
    }
  }
}
