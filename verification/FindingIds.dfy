/**
  The ids under which plan analysis reports its findings: how each family is
  printed, and that the printed id determines what it was printed from.
*/
module FindingIds {
  import opened Identifiers

  datatype Family =
    | FSchema | FDomain | FOutside | FUnknown | FProofRequirement | FMissing | FAction | FValidation | FEmpty
    | FUnknownProof | FProofCoverage | FValidationAction | FDependencyMissing | FCycle | FDependencyUnresolved
    | FTarget | FConflict | FActionTarget | FOutputTarget | FRisk | FActivation

  // A family with the name or the numbers its ids carry.
  datatype FindingId = FindingId(family: Family, name: string, i: nat, j: nat)

  function Prefix(f: Family): string {
    match f
    case FSchema => "finding.schema.error."
    case FDomain => "domain."
    case FOutside => ""
    case FUnknown => "coverage.unknown."
    case FProofRequirement => "proof.requirement."
    case FMissing => "coverage.missing."
    case FAction => "coverage.action."
    case FValidation => "coverage.validation."
    case FEmpty => "coverage.empty."
    case FUnknownProof => "proof.unknown."
    case FProofCoverage => "proof.coverage."
    case FValidationAction => "validation.action."
    case FDependencyMissing => "dependency.missing."
    case FCycle => "dependency.cycle."
    case FDependencyUnresolved => "dependency.unresolved."
    case FTarget => "authority.target."
    case FConflict => "authority.conflict."
    case FActionTarget => "authority.action-target."
    case FOutputTarget => "authority.output-target."
    case FRisk => "authority.risk."
    case FActivation => "activation."
  }

  // Families whose ids end in one number, or in two.
  predicate Counted(f: Family) {
    f.FSchema? || f.FUnknown? || f.FCycle? || f.FTarget?
  }

  predicate Paired(f: Family) {
    f.FConflict? || f.FActionTarget? || f.FOutputTarget?
  }

  function Body(id: FindingId): string {
    if Counted(id.family) then Decimal(id.i)
    else if Paired(id.family) then Decimal(id.i) + ("." + Decimal(id.j))
    else if id.family.FProofRequirement? then id.name + ("." + Decimal(id.i))
    else id.name
  }

  function Print(id: FindingId): string {
    Prefix(id.family) + Body(id)
  }

  // Ids of the evidence and reference checks start in one of these ways.
  predicate OutsideName(name: string) {
    "evidence." <= name || "hash." <= name || "reference." <= name
  }

  // Nothing is carried that is not printed.
  predicate Proper(id: FindingId) {
    && (Counted(id.family) ==> id.name == "" && id.j == 0)
    && (Paired(id.family) ==> id.name == "")
    && (id.family.FProofRequirement? ==> id.j == 0)
    && (!Counted(id.family) && !Paired(id.family) && !id.family.FProofRequirement? ==> id.i == 0 && id.j == 0)
    && (id.family.FOutside? ==> OutsideName(id.name))
  }

  // ----- The printed id determines the finding id -----

  function At(s: string, i: nat): char {
    if i < |s| then s[i] else ' '
  }

  // The family of a printed id, told by a few of its characters.
  function Recognize(s: string): Family {
    match At(s, 0)
    case 'f' => FSchema
    case 'v' => FValidationAction
    case 'c' => (match At(s, 9) case 'u' => FUnknown case 'm' => FMissing case 'a' => FAction case 'v' => FValidation case _ => FEmpty)
    case 'p' => (match At(s, 6) case 'r' => FProofRequirement case 'u' => FUnknownProof case _ => FProofCoverage)
    case 'd' =>
      if At(s, 1) == 'o' then FDomain
      else (match At(s, 11) case 'm' => FDependencyMissing case 'c' => FCycle case _ => FDependencyUnresolved)
    case 'a' =>
      if At(s, 1) == 'c' then FActivation
      else (match At(s, 10) case 't' => FTarget case 'c' => FConflict case 'a' => FActionTarget case 'o' => FOutputTarget case _ => FRisk)
    case _ => FOutside
  }

  lemma PrefixRecognized(f: Family, body: string)
    requires f != FOutside
    ensures Recognize(Prefix(f) + body) == f
  {
    var s, p := Prefix(f) + body, Prefix(f);
    assert forall i: nat :: i < |p| ==> At(s, i) == p[i];
  }

  lemma Recognized(id: FindingId)
    requires Proper(id)
    ensures Recognize(Print(id)) == id.family
  {
    if id.family.FOutside? {
      assert Print(id) == id.name;
    } else {
      PrefixRecognized(id.family, Body(id));
    }
  }

  lemma DigitsHoldNoDot(n: nat)
    ensures '.' !in Decimal(n)
  {
  }

  // Two findings are printed alike only if they are the same.
  lemma PrintInjective(a: FindingId, b: FindingId)
    requires Proper(a) && Proper(b)
    ensures Print(a) == Print(b) <==> a == b
  {
    if Print(a) == Print(b) {
      Recognized(a);
      Recognized(b);
      SameSplit(Prefix(a.family), Body(a), Prefix(b.family), Body(b));
      BodyInjective(a, b);
    }
  }

  lemma BodyInjective(a: FindingId, b: FindingId)
    requires Proper(a) && Proper(b) && a.family == b.family && Body(a) == Body(b)
    ensures a == b
  {
    DigitsHoldNoDot(a.i);
    DigitsHoldNoDot(b.i);
    if Counted(a.family) {
      DecimalInjective(a.i, b.i);
    } else if Paired(a.family) {
      SplitAtDot(Decimal(a.i), Decimal(a.j), Decimal(b.i), Decimal(b.j));
      DecimalInjective(a.i, b.i);
      DecimalInjective(a.j, b.j);
    } else if a.family.FProofRequirement? {
      SplitAtDot(a.name, Decimal(a.i), b.name, Decimal(b.i));
      DecimalInjective(a.i, b.i);
    }
  }

  // ----- When the printed id is an identifier -----

  lemma CoverageOpens(f: Family)
    requires f.FUnknown? || f.FMissing? || f.FAction? || f.FValidation? || f.FEmpty?
    ensures Opening(Prefix(f))
  {
  }

  lemma ProofOpens(f: Family)
    requires f.FProofRequirement? || f.FUnknownProof? || f.FProofCoverage? || f.FValidationAction?
    ensures Opening(Prefix(f))
  {
  }

  lemma DependencyOpens(f: Family)
    requires f.FDependencyMissing? || f.FCycle? || f.FDependencyUnresolved? || f.FSchema? || f.FDomain? || f.FActivation?
    ensures Opening(Prefix(f))
  {
  }

  lemma AuthorityOpens(f: Family)
    requires f.FTarget? || f.FConflict? || f.FActionTarget? || f.FOutputTarget? || f.FRisk?
    ensures Opening(Prefix(f))
  {
  }

  lemma PrefixOpens(f: Family)
    requires f != FOutside
    ensures Opening(Prefix(f))
  {
    match f {
      case FUnknown | FMissing | FAction | FValidation | FEmpty => CoverageOpens(f);
      case FProofRequirement | FUnknownProof | FProofCoverage | FValidationAction => ProofOpens(f);
      case FTarget | FConflict | FActionTarget | FOutputTarget | FRisk => AuthorityOpens(f);
      case FOutside =>
      case _ => DependencyOpens(f);
    }
  }

  lemma DecimalPlain(n: nat)
    ensures AllIdChars(Decimal(n))
  {
  }

  // The numbers an id carries make it too long.
  predicate NumberTooLong(id: FindingId) {
    (Counted(id.family) || Paired(id.family)) && TooLong(Prefix(id.family), Body(id))
  }

  // A named id is an identifier exactly when its name leaves room for the
  // prefix; a numbered one when its numbers do.
  predicate Printable(id: FindingId) {
    if Counted(id.family) || Paired(id.family) then !TooLong(Prefix(id.family), Body(id))
    else if id.family.FProofRequirement? then !TooLong(Prefix(id.family), Body(id)) && !EndsInNewline(id.name)
    else !TooLong(Prefix(id.family), id.name)
  }

  lemma PrintableExactly(id: FindingId)
    requires Counted(id.family) || Paired(id.family) || Identifier(id.name)
    ensures Identifier(Print(id)) <==> Printable(id)
  {
    DecimalPlain(id.i);
    DecimalPlain(id.j);
    if id.family.FOutside? {
      assert Print(id) == id.name;
    } else {
      PrefixOpens(id.family);
      if Counted(id.family) || Paired(id.family) {
        PlainExactly(Prefix(id.family), Body(id));
      } else if id.family.FProofRequirement? {
        EmbeddedExactly(Prefix(id.family), id.name, "." + Decimal(id.i));
      } else {
        DerivedExactly(Prefix(id.family), id.name);
      }
    }
  }

  // Numbers alone make an id too long only beyond any list that fits a machine.
  lemma LongNumbersAreHuge(id: FindingId)
    requires NumberTooLong(id)
    ensures id.i >= PowerOfTen(50) || id.j >= PowerOfTen(50)
  {
    assert |Prefix(id.family)| <= 24;
    if |Decimal(id.i)| > 50 {
      DecimalLength(id.i, 50);
    } else if |Decimal(id.j)| > 50 {
      DecimalLength(id.j, 50);
    }
  }
}
