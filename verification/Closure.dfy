/**
  Closing the findings of an earlier analysis against a revised plan: which
  findings are closed, partially closed or still open, and when the result is
  refused.
*/
module Closure {
  import opened Dictionary
  import opened Json
  import opened Ordering
  import opened Text
  import Hashing
  import JsonPointer

  datatype Code =
    | AddRequiredField | CorrectInvalidValue | RepairReference | CoverRequirement | ResolveDependency | AlignTerminology
    | CorrectInterpretation | AssignValidCapability | RestoreSystemBoundary | ResolveOverlap | CorrectSequence
    | ResolveAuthorityOwnership | OtherBounded
    | SubstantiateOrRemoveAssumption | AddSufficientValidation | ResolveContradiction | RevalidateAfterDrift
    | ExerciseRequiredEnvironment
    | Unlisted

  // `builtIn` says that the id is one of the local semantic rules.
  datatype Finding = Finding(id: string, semantic: bool, builtIn: bool, gap: string, locations: seq<string>,
                             requirements: seq<string>, code: Code)

  datatype Validation = Validation(requirements: seq<string>, proofId: string, environment: Option<string>)

  // The revision: both plans, the environments its proofs require, whether
  // evidence was added and the semantic review replayed, and the findings of
  // the new analysis.
  datatype Revision = Revision(original: Json, revised: Json, validations: seq<Validation>, proofs: map<string, Option<string>>,
                               addedEvidence: bool, replayed: bool, remaining: seq<Finding>)

  datatype Status = Closed | PartiallyClosed | Open

  datatype Result = Result(id: string, status: Status)

  // How Python reads an index and compares numbers: `number` gives numerals of
  // equal value the same representative.
  datatype Numbers = Numbers(parse: JsonPointer.IntParser, number: string -> string)

  function ValueAt(py: Numbers, root: Json, location: string): Option<Json> {
    JsonPointer.Walk(py.parse, root, JsonPointer.PlanDecode(location))
  }

  // A value up to what `==` does not see: True is 1 and False is 0.
  function Comparable(py: Numbers, v: Json): Json {
    match v
    case Bool(b) => Num(py.number(if b then "1" else "0"))
    case Num(token) => Num(py.number(token))
    case Arr(items) => Arr(ComparableItems(py, items))
    case Obj(fields) => Obj(ComparableFields(py, fields))
    case _ => v
  }

  function ComparableItems(py: Numbers, items: Items): Items {
    if items.NoItem? then NoItem else Item(Comparable(py, items.head), ComparableItems(py, items.tail))
  }

  function ComparableFields(py: Numbers, fields: Fields): Fields {
    if fields.NoField? then NoField
    else Field(fields.key, Comparable(py, fields.value), ComparableFields(py, fields.rest))
  }

  // `before == after`, dictionaries compared without order.
  predicate PythonEqual(py: Numbers, before: Json, after: Json) {
    Hashing.Meaning(Comparable(py, before)) == Hashing.Meaning(Comparable(py, after))
  }

  // A location changed if its value differs, or if it cannot be looked up in
  // one of the plans.
  predicate ChangedAt(py: Numbers, rev: Revision, location: string) {
    var before, after := ValueAt(py, rev.original, location), ValueAt(py, rev.revised, location);
    before.None? || after.None? || !PythonEqual(py, before.value, after.value)
  }

  predicate Changed(py: Numbers, rev: Revision, f: Finding) {
    exists location | location in f.locations :: ChangedAt(py, rev, location)
  }

  predicate Overlap(a: seq<string>, b: seq<string>) {
    exists x | x in a :: x in b
  }

  predicate GapRemains(rev: Revision, f: Finding) {
    exists g | g in rev.remaining :: g.gap == f.gap && (Overlap(g.locations, f.locations) || Overlap(g.requirements, f.requirements))
  }

  predicate EnvironmentExercised(rev: Revision, f: Finding) {
    exists v | v in rev.validations ::
      Overlap(v.requirements, f.requirements)
      && v.environment == (if v.proofId in rev.proofs then rev.proofs[v.proofId] else None)
  }

  function Gate(rev: Revision, f: Finding, changed: bool): bool {
    if f.semantic && !(rev.replayed || f.builtIn) then false
    else
      match f.code
      case ExerciseRequiredEnvironment => EnvironmentExercised(rev, f) && (changed || rev.addedEvidence)
      case SubstantiateOrRemoveAssumption => changed || rev.addedEvidence
      case AddSufficientValidation => changed || rev.addedEvidence
      case ResolveContradiction => changed || rev.addedEvidence
      case RevalidateAfterDrift => changed || rev.addedEvidence
      case Unlisted => false
      case _ => changed
  }

  function StatusOf(rev: Revision, f: Finding, changed: bool): Status {
    if !GapRemains(rev, f) && Gate(rev, f, changed) then (if rev.remaining == [] then Closed else PartiallyClosed)
    else Open
  }

  function ResultsOf(py: Numbers, rev: Revision, prior: seq<Finding>): seq<Result> {
    seq(|prior|, i requires 0 <= i < |prior| =>
      Result(prior[i].id, StatusOf(rev, prior[i], Changed(py, rev, prior[i]))))
  }

  function IdOf(r: Result): string { r.id }
  function FindingId(f: Finding): string { f.id }

  // The invariant checked on the result: there is at least one finding, none
  // appears twice, and a clean new decision leaves no original finding
  // unresolved.
  predicate ResultInvariant(rev: Revision, results: seq<Result>) {
    && results != [] && Distinct(Ids(results, IdOf))
    && (rev.remaining == [] ==> forall r | r in results :: r.status == Closed)
  }

  method LocationChanged(py: Numbers, rev: Revision, location: string) returns (changed: bool)
    ensures changed == ChangedAt(py, rev, location)
  {
    var before := JsonPointer.PointerValue(py.parse, rev.original, location);
    var after := JsonPointer.PointerValue(py.parse, rev.revised, location);
    if before.None? || after.None? {
      return true;
    }
    changed := !PythonEqual(py, before.value, after.value);
  }

  method FindingChanged(py: Numbers, rev: Revision, f: Finding) returns (changed: bool)
    ensures changed == Changed(py, rev, f)
  {
    changed := false;
    for i := 0 to |f.locations|
      invariant changed <==> exists k :: 0 <= k < i && ChangedAt(py, rev, f.locations[k])
    {
      if !changed {
        changed := LocationChanged(py, rev, f.locations[i]);
      }
    }
    LocationsIndexed(py, rev, f);
  }

  lemma LocationsIndexed(py: Numbers, rev: Revision, f: Finding)
    ensures Changed(py, rev, f) <==> exists k :: 0 <= k < |f.locations| && ChangedAt(py, rev, f.locations[k])
  {
    if location :| location in f.locations && ChangedAt(py, rev, location) {
      var k :| 0 <= k < |f.locations| && f.locations[k] == location;
    }
  }

  // Closes what can be closed; the result is refused if it breaks its invariant.
  method CloseFindings(py: Numbers, rev: Revision, prior: seq<Finding>) returns (results: Option<seq<Result>>)
    ensures var all := ResultsOf(py, rev, prior);
      results == if ResultInvariant(rev, all) then Some(all) else None
  {
    var found: seq<Result> := [];
    ghost var all := ResultsOf(py, rev, prior);
    for i := 0 to |prior|
      invariant found == all[..i]
    {
      var changed := FindingChanged(py, rev, prior[i]);
      assert all[..i + 1] == all[..i] + [all[i]];
      found := found + [Result(prior[i].id, StatusOf(rev, prior[i], changed))];
    }
    assert found == all;
    if !ResultInvariant(rev, found) {
      return None;
    }
    results := Some(found);
  }

  // A validation of one of the finding's requirements names the environment
  // that its proof requires; a proof that is not listed requires none.
  ghost predicate Exercised(rev: Revision, f: Finding) {
    exists v :: v in rev.validations
      && (exists x :: x in v.requirements && x in f.requirements)
      && (v.proofId in rev.proofs ==> v.environment == rev.proofs[v.proofId])
      && (v.proofId !in rev.proofs ==> v.environment.None?)
  }

  // What its closure code asks of a finding: a listed code, a replayed review
  // if it was raised by one, the environment exercised if that is the point,
  // and a change, which added evidence replaces for five of the codes.
  ghost predicate Passes(rev: Revision, f: Finding, changed: bool) {
    && f.code != Unlisted
    && (f.semantic ==> rev.replayed || f.builtIn)
    && (f.code == ExerciseRequiredEnvironment ==> Exercised(rev, f))
    && (changed
        || (rev.addedEvidence && (f.code == ExerciseRequiredEnvironment || f.code == SubstantiateOrRemoveAssumption
                                  || f.code == AddSufficientValidation || f.code == ResolveContradiction
                                  || f.code == RevalidateAfterDrift)))
  }

  // The new analysis still finds this gap at one of its locations or
  // requirements.
  ghost predicate LeftOver(rev: Revision, f: Finding) {
    exists g :: g in rev.remaining && g.gap == f.gap
      && ((exists x :: x in g.locations && x in f.locations) || (exists x :: x in g.requirements && x in f.requirements))
  }

  lemma ExercisedExactly(rev: Revision, f: Finding)
    ensures EnvironmentExercised(rev, f) <==> Exercised(rev, f)
  {
    forall v | v in rev.validations
      ensures Overlap(v.requirements, f.requirements) <==> exists x :: x in v.requirements && x in f.requirements
    {
    }
  }

  lemma PassesExactly(rev: Revision, f: Finding, changed: bool)
    ensures Gate(rev, f, changed) <==> Passes(rev, f, changed)
  {
    ExercisedExactly(rev, f);
  }

  lemma LeftOverExactly(rev: Revision, f: Finding)
    ensures GapRemains(rev, f) <==> LeftOver(rev, f)
  {
    forall g | g in rev.remaining
      ensures Overlap(g.locations, f.locations) <==> exists x :: x in g.locations && x in f.locations
      ensures Overlap(g.requirements, f.requirements) <==> exists x :: x in g.requirements && x in f.requirements
    {
    }
  }

  // A finding is closed exactly when the new analysis is clean and it passes
  // what its closure code asks; with anything left over, none is closed.
  lemma ClosedExactly(rev: Revision, f: Finding, changed: bool)
    ensures StatusOf(rev, f, changed) == Closed <==> rev.remaining == [] && Passes(rev, f, changed)
    ensures StatusOf(rev, f, changed) == Open <==> LeftOver(rev, f) || !Passes(rev, f, changed)
  {
    PassesExactly(rev, f, changed);
    LeftOverExactly(rev, f);
    if rev.remaining != [] {
      assert rev.remaining[0] in rev.remaining;
    }
  }

  // Closure is all or nothing: a result that is returned closes every original
  // finding if the new analysis is clean and none of them otherwise.
  lemma AllOrNone(py: Numbers, rev: Revision, prior: seq<Finding>)
    requires ResultInvariant(rev, ResultsOf(py, rev, prior))
    ensures forall i :: 0 <= i < |prior| ==> (ResultsOf(py, rev, prior)[i].status == Closed <==> rev.remaining == [])
  {
    var all := ResultsOf(py, rev, prior);
    forall i | 0 <= i < |prior| ensures all[i].status == Closed <==> rev.remaining == [] {
      assert all[i] in all;
      ClosedExactly(rev, prior[i], Changed(py, rev, prior[i]));
    }
  }

  // The result is refused exactly when the prior decision had no findings or
  // repeats one, or when the new analysis is clean although some original
  // finding does not pass what its closure code asks.
  lemma RefusedExactly(py: Numbers, rev: Revision, prior: seq<Finding>)
    ensures !ResultInvariant(rev, ResultsOf(py, rev, prior)) <==>
      || prior == [] || !Distinct(Ids(prior, FindingId))
      || (rev.remaining == [] && exists f :: f in prior && !Passes(rev, f, Changed(py, rev, f)))
  {
    var all := ResultsOf(py, rev, prior);
    assert Ids(all, IdOf) == Ids(prior, FindingId);
    forall i | 0 <= i < |prior|
      ensures rev.remaining == [] ==> (all[i].status == Closed <==> Passes(rev, prior[i], Changed(py, rev, prior[i])))
    {
      ClosedExactly(rev, prior[i], Changed(py, rev, prior[i]));
    }
    if rev.remaining == [] {
      if f :| f in prior && !Passes(rev, f, Changed(py, rev, f)) {
        var i :| 0 <= i < |prior| && prior[i] == f;
        assert all[i] in all;
      }
      if r :| r in all && r.status != Closed {
        var i :| 0 <= i < |all| && all[i] == r;
        assert prior[i] in prior;
      }
    }
  }

  // A clean prior decision cannot be closed, whatever the revision.
  lemma CleanDecisionRefused(py: Numbers, rev: Revision)
    ensures !ResultInvariant(rev, ResultsOf(py, rev, []))
  {
    RefusedExactly(py, rev, []);
  }

  // Without any change to its locations and without added evidence no finding
  // is ever closed, and an external semantic finding is not closed unless its
  // review was replayed.
  lemma NothingClosesUnchanged(rev: Revision, f: Finding, changed: bool)
    ensures StatusOf(rev, f, changed) != Open ==> changed || rev.addedEvidence
    ensures StatusOf(rev, f, changed) != Open && f.semantic && !f.builtIn ==> rev.replayed
  {
  }

  // ----- When a location counts as changed -----

  // What Python's `==` compares a number or a boolean by.
  function Numeral(py: Numbers, v: Json): string
    requires v.Num? || v.Bool?
  {
    match v
    case Num(token) => py.number(token)
    case Bool(b) => if b then py.number("1") else py.number("0")
  }

  lemma {:induction false} ComparableAt(py: Numbers, fields: Fields, k: string)
    ensures HasKey(ComparableFields(py, fields), k) <==> HasKey(fields, k)
    ensures HasKey(fields, k) ==> Get(ComparableFields(py, fields), k) == Comparable(py, Get(fields, k))
  {
    if fields.Field? {
      ComparableAt(py, fields.rest, k);
    }
  }

  // Two values are equal to Python exactly if they are both null; the same
  // text; numbers or booleans of the same value; lists of equal items; or
  // dictionaries with the same keys and equal values, in any order.
  lemma PythonEqualExactly(py: Numbers, a: Json, b: Json)
    ensures PythonEqual(py, a, b) <==>
      || (a.Null? && b.Null?)
      || (a.Str? && b.Str? && a.text == b.text)
      || ((a.Num? || a.Bool?) && (b.Num? || b.Bool?) && Numeral(py, a) == Numeral(py, b))
      || (a.Arr? && b.Arr? && SameItems(py, a.items, b.items))
      || (a.Obj? && b.Obj? && forall k :: SameFieldAt(py, a.fields, b.fields, k))
  {
    if a.Obj? && b.Obj? {
      SameFieldsExactly(py, a.fields, b.fields);
    } else if a.Arr? && b.Arr? {
      SameItemsExactly(py, a.items, b.items);
    }
  }

  ghost predicate SameItems(py: Numbers, a: Items, b: Items) {
    if a.NoItem? || b.NoItem? then a.NoItem? && b.NoItem?
    else PythonEqual(py, a.head, b.head) && SameItems(py, a.tail, b.tail)
  }

  lemma {:induction false} SameItemsExactly(py: Numbers, a: Items, b: Items)
    ensures Hashing.ItemMeanings(ComparableItems(py, a)) == Hashing.ItemMeanings(ComparableItems(py, b)) <==> SameItems(py, a, b)
  {
    if a.Item? && b.Item? {
      SameItemsExactly(py, a.tail, b.tail);
      var x, y := Hashing.ItemMeanings(ComparableItems(py, a)), Hashing.ItemMeanings(ComparableItems(py, b));
      assert x[1..] == Hashing.ItemMeanings(ComparableItems(py, a.tail)) && y[1..] == Hashing.ItemMeanings(ComparableItems(py, b.tail));
      assert x == [x[0]] + x[1..] && y == [y[0]] + y[1..];
    }
  }

  function Contents(py: Numbers, fields: Fields): map<string, Hashing.Value> {
    Hashing.FieldMeanings(ComparableFields(py, fields))
  }

  lemma ContentsAt(py: Numbers, fields: Fields, k: string)
    ensures k in Contents(py, fields) <==> HasKey(fields, k)
    ensures HasKey(fields, k) ==> Contents(py, fields)[k] == Hashing.Meaning(Comparable(py, Get(fields, k)))
  {
    Hashing.FieldMeaningsAt(ComparableFields(py, fields));
    ComparableAt(py, fields, k);
  }

  ghost predicate SameFieldAt(py: Numbers, a: Fields, b: Fields, k: string) {
    (HasKey(a, k) <==> HasKey(b, k)) && (HasKey(a, k) && HasKey(b, k) ==> PythonEqual(py, Get(a, k), Get(b, k)))
  }

  lemma SameFieldsExactly(py: Numbers, a: Fields, b: Fields)
    ensures Contents(py, a) == Contents(py, b) <==> forall k :: SameFieldAt(py, a, b, k)
  {
    var m, n := Contents(py, a), Contents(py, b);
    forall k ensures SameFieldAt(py, a, b, k) <==> (k in m <==> k in n) && (k in m && k in n ==> m[k] == n[k]) {
      ContentsAt(py, a, k);
      ContentsAt(py, b, k);
    }
    if forall k :: SameFieldAt(py, a, b, k) {
      forall k ensures (k in m <==> k in n) && (k in m && k in n ==> m[k] == n[k]) {
        assert SameFieldAt(py, a, b, k);
      }
      assert m == n;
    }
  }
}
