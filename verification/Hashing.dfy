/**
  Canonical text, hashing and sealing of JSON artifacts, the plan lock, and
  what a lock accepted at evaluation time binds.

  The hash is a parameter: any injective function on texts.
*/
module Hashing {
  import opened Identifiers
  import opened Json
  import opened Ordering
  import opened Text

  // ----- Meaning: a JSON value up to the order of object fields -----

  datatype Value =
    | VNull
    | VBool(b: bool)
    | VNum(token: string)
    | VStr(text: string)
    | VArr(items: seq<Value>)
    | VObj(fields: map<string, Value>)

  function Meaning(v: Json): Value {
    match v
    case Null => VNull
    case Bool(b) => VBool(b)
    case Num(token) => VNum(token)
    case Str(text) => VStr(text)
    case Arr(items) => VArr(ItemMeanings(items))
    case Obj(fields) => VObj(FieldMeanings(fields))
  }

  function ItemMeanings(items: Items): seq<Value> {
    if items.NoItem? then [] else [Meaning(items.head)] + ItemMeanings(items.tail)
  }

  function FieldMeanings(fields: Fields): (m: map<string, Value>)
    ensures forall k :: k in m <==> HasKey(fields, k)
  {
    if fields.NoField? then map[] else FieldMeanings(fields.rest)[fields.key := Meaning(fields.value)]
  }

  lemma {:induction false} FieldMeaningsAt(fields: Fields)
    ensures forall k :: HasKey(fields, k) ==> FieldMeanings(fields)[k] == Meaning(Get(fields, k))
  {
    if fields.Field? { FieldMeaningsAt(fields.rest); }
  }

  // ----- Canonical copies -----

  // Inserts a field into a list sorted by key.
  function InsertField(key: string, value: Json, fields: Fields): (r: Fields)
    ensures forall k :: HasKey(r, k) <==> k == key || HasKey(fields, k)
  {
    if fields.NoField? || StringLess(key, fields.key) then Field(key, value, fields)
    else Field(fields.key, fields.value, InsertField(key, value, fields.rest))
  }

  function Canon(v: Json): Json {
    match v
    case Arr(items) => Arr(CanonItems(items))
    case Obj(fields) => Obj(CanonFields(fields))
    case _ => v
  }

  function CanonItems(items: Items): Items {
    if items.NoItem? then NoItem else Item(Canon(items.head), CanonItems(items.tail))
  }

  function CanonFields(fields: Fields): (r: Fields)
    ensures forall k :: HasKey(r, k) <==> HasKey(fields, k)
  {
    if fields.NoField? then NoField
    else InsertField(fields.key, Canon(fields.value), CanonFields(fields.rest))
  }

  ghost predicate KeysSorted(fields: Fields) {
    fields.Field? ==>
      KeysSorted(fields.rest) && forall k :: HasKey(fields.rest, k) ==> StringLess(fields.key, k)
  }

  lemma {:induction false} InsertFieldFacts(key: string, value: Json, fields: Fields)
    requires KeysSorted(fields) && !HasKey(fields, key)
    ensures KeysSorted(InsertField(key, value, fields))
    ensures forall k :: HasKey(InsertField(key, value, fields), k) ==>
      Get(InsertField(key, value, fields), k) == if k == key then value else Get(fields, k)
    ensures WellFormed(value) && WellFormedFields(fields) ==> WellFormedFields(InsertField(key, value, fields))
  {
    StringLessIsStrictTotalOrder();
    if fields.NoField? || StringLess(key, fields.key) {
    } else {
      InsertFieldFacts(key, value, fields.rest);
    }
  }

  lemma {:induction false} CanonWellFormed(v: Json)
    requires WellFormed(v)
    ensures WellFormed(Canon(v))
    decreases v
  {
    match v {
      case Arr(items) => CanonItemsWellFormed(items);
      case Obj(fields) => CanonFieldsFacts(fields);
      case _ =>
    }
  }

  lemma {:induction false} CanonItemsWellFormed(items: Items)
    requires WellFormedItems(items)
    ensures WellFormedItems(CanonItems(items))
    decreases items
  {
    if items.Item? {
      CanonWellFormed(items.head);
      CanonItemsWellFormed(items.tail);
    }
  }

  lemma {:induction false} CanonFieldsFacts(fields: Fields)
    requires WellFormedFields(fields)
    ensures WellFormedFields(CanonFields(fields)) && KeysSorted(CanonFields(fields))
    ensures forall k :: HasKey(fields, k) ==> Get(CanonFields(fields), k) == Canon(Get(fields, k))
    decreases fields
  {
    if fields.Field? {
      CanonWellFormed(fields.value);
      CanonFieldsFacts(fields.rest);
      InsertFieldFacts(fields.key, Canon(fields.value), CanonFields(fields.rest));
    }
  }

  // The canonical copy means the same value ...
  lemma {:induction false} CanonKeepsMeaning(v: Json)
    requires WellFormed(v)
    ensures Meaning(Canon(v)) == Meaning(v)
    decreases v
  {
    match v {
      case Arr(items) => CanonItemsKeepMeaning(items);
      case Obj(fields) =>
        CanonFieldsFacts(fields);
        forall k | HasKey(fields, k) ensures Meaning(Get(CanonFields(fields), k)) == Meaning(Get(fields, k)) {
          FieldCanonKeepsMeaning(fields, k);
        }
        FieldMeaningsAt(fields);
        FieldMeaningsAt(CanonFields(fields));
        assert FieldMeanings(CanonFields(fields)) == FieldMeanings(fields);
      case _ =>
    }
  }

  lemma {:induction false} CanonItemsKeepMeaning(items: Items)
    requires WellFormedItems(items)
    ensures ItemMeanings(CanonItems(items)) == ItemMeanings(items)
    decreases items
  {
    if items.Item? {
      CanonKeepsMeaning(items.head);
      CanonItemsKeepMeaning(items.tail);
    }
  }

  lemma {:induction false} FieldCanonKeepsMeaning(fields: Fields, k: string)
    requires WellFormedFields(fields) && HasKey(fields, k)
    ensures Meaning(Canon(Get(fields, k))) == Meaning(Get(fields, k))
    decreases fields
  {
    if fields.key == k {
      CanonKeepsMeaning(fields.value);
    } else {
      FieldCanonKeepsMeaning(fields.rest, k);
    }
  }

  // ... and values with the same meaning have the same canonical copy.
  lemma {:induction false} CanonUnique(v: Json, w: Json)
    requires WellFormed(v) && WellFormed(w) && Meaning(v) == Meaning(w)
    ensures Canon(v) == Canon(w)
    decreases v
  {
    match v {
      case Arr(items) => CanonItemsUnique(items, w.items);
      case Obj(fields) =>
        CanonFieldsFacts(fields);
        CanonFieldsFacts(w.fields);
        FieldMeaningsAt(fields);
        FieldMeaningsAt(w.fields);
        assert forall k :: HasKey(fields, k) <==> k in FieldMeanings(w.fields);
        forall k | HasKey(fields, k) ensures Get(CanonFields(fields), k) == Get(CanonFields(w.fields), k) {
          assert FieldMeanings(fields)[k] == FieldMeanings(w.fields)[k];
          FieldCanonUnique(fields, w.fields, k);
        }
        SortedFieldsUnique(CanonFields(fields), CanonFields(w.fields));
      case _ =>
    }
  }

  lemma {:induction false} CanonItemsUnique(a: Items, b: Items)
    requires WellFormedItems(a) && WellFormedItems(b) && ItemMeanings(a) == ItemMeanings(b)
    ensures CanonItems(a) == CanonItems(b)
    decreases a
  {
    assert |ItemMeanings(a)| == |ItemMeanings(b)|;
    if a.Item? {
      assert ItemMeanings(a)[0] == ItemMeanings(b)[0];
      assert ItemMeanings(a)[1..] == ItemMeanings(b)[1..];
      CanonUnique(a.head, b.head);
      CanonItemsUnique(a.tail, b.tail);
    }
  }

  lemma {:induction false} FieldCanonUnique(a: Fields, b: Fields, k: string)
    requires WellFormedFields(a) && WellFormedFields(b) && HasKey(a, k) && HasKey(b, k)
    requires Meaning(Get(a, k)) == Meaning(Get(b, k))
    ensures Canon(Get(a, k)) == Canon(Get(b, k))
    decreases a
  {
    if a.key == k {
      GetWellFormed(b, k);
      CanonUnique(a.value, Get(b, k));
    } else {
      FieldCanonUnique(a.rest, b, k);
    }
  }

  lemma {:induction false} GetWellFormed(fields: Fields, k: string)
    requires WellFormedFields(fields) && HasKey(fields, k)
    ensures WellFormed(Get(fields, k))
  {
    if fields.key != k { GetWellFormed(fields.rest, k); }
  }

  lemma FirstKeysAgree(a: Fields, b: Fields)
    requires KeysSorted(a) && KeysSorted(b) && a.Field? && b.Field?
    requires HasKey(a, b.key) && HasKey(b, a.key)
    ensures a.key == b.key
  {
    if a.key != b.key {
      StringLessIrreflexive(a.key);
      StringLessTransitive(a.key, b.key, a.key);
    }
  }

  lemma {:induction false} SortedFieldsUnique(a: Fields, b: Fields)
    requires KeysSorted(a) && KeysSorted(b)
    requires WellFormedFields(a) && WellFormedFields(b)
    requires forall k :: HasKey(a, k) <==> HasKey(b, k)
    requires forall k :: HasKey(a, k) ==> Get(a, k) == Get(b, k)
    ensures a == b
  {
    if a.Field? {
      assert HasKey(b, a.key);
      assert HasKey(a, b.key);
      FirstKeysAgree(a, b);
      assert Get(a, a.key) == Get(b, a.key);
      forall k ensures HasKey(a.rest, k) <==> HasKey(b.rest, k) {
        assert HasKey(a, k) <==> HasKey(b, k);
      }
      forall k | HasKey(a.rest, k) ensures Get(a.rest, k) == Get(b.rest, k) {
        assert Get(a, k) == Get(b, k);
      }
      SortedFieldsUnique(a.rest, b.rest);
    } else {
      assert b.Field? ==> HasKey(a, b.key);
    }
  }

  // ----- The artifact's own hash fields -----

  function Pop(fields: Fields, key: string): (r: Fields)
    ensures forall k :: HasKey(r, k) ==> HasKey(fields, k)
    ensures WellFormedFields(fields) ==> WellFormedFields(r)
  {
    if fields.NoField? then NoField
    else if fields.key == key then fields.rest
    else Field(fields.key, fields.value, Pop(fields.rest, key))
  }

  // Replaces the value of a key in place, or appends the key at the end.
  function Set(fields: Fields, key: string, value: Json): (r: Fields)
    ensures forall k :: HasKey(r, k) <==> k == key || HasKey(fields, k)
    ensures forall k :: HasKey(r, k) ==> Get(r, k) == if k == key then value else Get(fields, k)
    ensures WellFormedFields(fields) && WellFormed(value) ==> WellFormedFields(r)
  {
    if fields.NoField? then Field(key, value, NoField)
    else if fields.key == key then Field(key, value, fields.rest)
    else Field(fields.key, fields.value, Set(fields.rest, key, value))
  }

  const CONTENT_HASH := "content_hash"
  const LOCK_HASH := "lock_hash"
  const SUCCESS_ID := "success_definition_id"
  const CONFIRMATION := "confirmation"

  // Drops the hash fields at the top level and, in a success definition, the
  // hash its confirmation holds.
  function Scrub(v: Json): Json {
    match v
    case Obj(fields) =>
      var own := Pop(Pop(fields, CONTENT_HASH), LOCK_HASH);
      if HasKey(own, SUCCESS_ID) && HasKey(own, CONFIRMATION) && Get(own, CONFIRMATION).Obj? then
        Obj(Set(own, CONFIRMATION, Obj(Pop(Get(own, CONFIRMATION).fields, CONTENT_HASH))))
      else Obj(own)
    case _ => v
  }

  function OwnContent(v: Value): Value {
    match v
    case VObj(fields) =>
      var own := fields - {CONTENT_HASH, LOCK_HASH};
      if SUCCESS_ID in own && CONFIRMATION in own && own[CONFIRMATION].VObj? then
        VObj(own[CONFIRMATION := VObj(own[CONFIRMATION].fields - {CONTENT_HASH})])
      else VObj(own)
    case _ => v
  }

  lemma {:induction false} PopMeaning(fields: Fields, key: string)
    requires WellFormedFields(fields)
    ensures FieldMeanings(Pop(fields, key)) == FieldMeanings(fields) - {key}
  {
    if fields.Field? && fields.key != key { PopMeaning(fields.rest, key); }
  }

  lemma SetMeaning(fields: Fields, key: string, value: Json)
    ensures FieldMeanings(Set(fields, key, value)) == FieldMeanings(fields)[key := Meaning(value)]
  {
    FieldMeaningsAt(fields);
    FieldMeaningsAt(Set(fields, key, value));
  }

  // Dropping a field inside an object-valued field.
  lemma NestedPopMeaning(fields: Fields, key: string, inner: string)
    requires WellFormedFields(fields) && HasKey(fields, key) && Get(fields, key).Obj?
    ensures var popped := Obj(Pop(Get(fields, key).fields, inner));
      && WellFormed(popped)
      && FieldMeanings(fields)[key] == VObj(FieldMeanings(Get(fields, key).fields))
      && FieldMeanings(Set(fields, key, popped))
         == FieldMeanings(fields)[key := VObj(FieldMeanings(Get(fields, key).fields) - {inner})]
  {
    GetWellFormed(fields, key);
    FieldMeaningsAt(fields);
    var nested := Get(fields, key).fields;
    PopMeaning(nested, inner);
    SetMeaning(fields, key, Obj(Pop(nested, inner)));
  }

  function OwnFields(fields: Fields): Fields {
    Pop(Pop(fields, CONTENT_HASH), LOCK_HASH)
  }

  lemma OwnFieldsMeaning(fields: Fields)
    requires WellFormedFields(fields)
    ensures WellFormedFields(OwnFields(fields))
    ensures FieldMeanings(OwnFields(fields)) == FieldMeanings(fields) - {CONTENT_HASH, LOCK_HASH}
  {
    PopMeaning(fields, CONTENT_HASH);
    PopMeaning(Pop(fields, CONTENT_HASH), LOCK_HASH);
    assert FieldMeanings(fields) - {CONTENT_HASH} - {LOCK_HASH} == FieldMeanings(fields) - {CONTENT_HASH, LOCK_HASH};
  }

  // Whether the artifact holds its hash in a confirmation, told of its fields
  // and of what they mean.
  predicate Confirms(own: Fields) {
    HasKey(own, SUCCESS_ID) && HasKey(own, CONFIRMATION) && Get(own, CONFIRMATION).Obj?
  }

  lemma ConfirmsMeaning(own: Fields)
    ensures var m := FieldMeanings(own);
      Confirms(own) <==> SUCCESS_ID in m && CONFIRMATION in m && m[CONFIRMATION].VObj?
  {
    FieldMeaningsAt(own);
  }

  lemma ScrubMeaning(v: Json)
    requires WellFormed(v)
    ensures WellFormed(Scrub(v)) && Meaning(Scrub(v)) == OwnContent(Meaning(v))
  {
    if v.Obj? {
      var own := OwnFields(v.fields);
      OwnFieldsMeaning(v.fields);
      ConfirmsMeaning(own);
      if Confirms(own) {
        NestedPopMeaning(own, CONFIRMATION, CONTENT_HASH);
      }
    }
  }

  // ----- Canonical text and hashes -----

  // Sorted copy, own hash fields dropped, printed with sorted keys.
  function CanonicalText(v: Json): string {
    Print(Canon(Scrub(Canon(v))))
  }

  // Two artifacts have the same canonical text exactly when they agree on
  // everything but key order and their own hash fields.
  lemma CanonicalTextBinds(v: Json, w: Json)
    requires WellFormed(v) && WellFormed(w)
    ensures CanonicalText(v) == CanonicalText(w) <==> OwnContent(Meaning(v)) == OwnContent(Meaning(w))
  {
    ScrubbedCopy(v);
    ScrubbedCopy(w);
    var a, b := Scrub(Canon(v)), Scrub(Canon(w));
    CanonWellFormed(a);
    CanonWellFormed(b);
    PrintInjective(Canon(a), Canon(b));
    if Meaning(a) == Meaning(b) {
      CanonUnique(a, b);
    }
    if Canon(a) == Canon(b) {
      CanonKeepsMeaning(a);
      CanonKeepsMeaning(b);
    }
  }

  lemma ScrubbedCopy(v: Json)
    requires WellFormed(v)
    ensures WellFormed(Scrub(Canon(v))) && Meaning(Scrub(Canon(v))) == OwnContent(Meaning(v))
  {
    CanonWellFormed(v);
    CanonKeepsMeaning(v);
    ScrubMeaning(Canon(v));
  }

  type Hash = string -> string

  ghost predicate Injective(h: Hash) {
    forall a, b :: h(a) == h(b) ==> a == b
  }

  function CanonicalHash(h: Hash, v: Json): string {
    "sha256:" + h(CanonicalText(v))
  }

  lemma CanonicalHashBinds(h: Hash, v: Json, w: Json)
    requires Injective(h) && WellFormed(v) && WellFormed(w)
    ensures CanonicalHash(h, v) == CanonicalHash(h, w) <==> OwnContent(Meaning(v)) == OwnContent(Meaning(w))
  {
    CanonicalTextBinds(v, w);
    var a, b := h(CanonicalText(v)), h(CanonicalText(w));
    assert a == ("sha256:" + a)[7..] && b == ("sha256:" + b)[7..];
  }

  function Seal(h: Hash, fields: Fields, field: string): Fields {
    Set(fields, field, Str(CanonicalHash(h, Obj(fields))))
  }

  predicate VerifyHash(h: Hash, fields: Fields, field: string) {
    HasKey(fields, field) && Get(fields, field) == Str(CanonicalHash(h, Obj(fields)))
  }

  // Sealing under either of the artifact's hash fields always verifies, and
  // changes nothing but that field.
  lemma SealVerifies(h: Hash, fields: Fields, field: string)
    requires WellFormedFields(fields) && (field == CONTENT_HASH || field == LOCK_HASH)
    ensures VerifyHash(h, Seal(h, fields, field), field)
    ensures WellFormedFields(Seal(h, fields, field))
    ensures FieldMeanings(Seal(h, fields, field)) - {field} == FieldMeanings(fields) - {field}
  {
    var seal := Str(CanonicalHash(h, Obj(fields)));
    var sealed := Set(fields, field, seal);
    SetMeaning(fields, field, seal);
    assert FieldMeanings(sealed) - {field} == FieldMeanings(fields) - {field};
    OwnContentIgnoresHashField(FieldMeanings(fields), field, Meaning(seal));
    CanonicalTextBinds(Obj(sealed), Obj(fields));
  }

  lemma OwnContentIgnoresHashField(m: map<string, Value>, field: string, value: Value)
    requires field == CONTENT_HASH || field == LOCK_HASH
    ensures OwnContent(VObj(m[field := value])) == OwnContent(VObj(m))
  {
    assert m[field := value] - {CONTENT_HASH, LOCK_HASH} == m - {CONTENT_HASH, LOCK_HASH};
  }

  // A verified artifact cannot be altered outside its hash fields under the
  // same hash, whatever order its keys come in.
  lemma VerifiedHashBinds(h: Hash, a: Fields, b: Fields, field: string)
    requires Injective(h) && WellFormedFields(a) && WellFormedFields(b)
    requires VerifyHash(h, a, field) && VerifyHash(h, b, field)
    ensures Get(a, field) == Get(b, field) <==> OwnContent(Meaning(Obj(a))) == OwnContent(Meaning(Obj(b)))
  {
    CanonicalHashBinds(h, Obj(a), Obj(b));
  }

  // ----- Artifact references -----

  predicate Truthy(v: Json) {
    match v
    case Null => false
    case Bool(b) => b
    case Num(token) => token != "0" && token != "0.0" && token != "-0" && token != "-0.0"
    case Str(text) => text != ""
    case Arr(items) => items.Item?
    case Obj(fields) => fields.Field?
  }

  // What Python takes for false: nothing, a zero, and everything empty.
  lemma FalsyExactly(v: Json)
    ensures !Truthy(v) <==>
      v in {Null, Bool(false), Num("0"), Num("0.0"), Num("-0"), Num("-0.0"), Str(""), Arr(NoItem), Obj(NoField)}
  {
  }

  datatype Reference = Reference(artifactId: Json, schemaId: string, version: Json, contentHash: Json)

  // `artifact.get("content_hash") or artifact.get("lock_hash") or canonical_hash(artifact)`
  function BoundHash(h: Hash, artifact: Fields): Json {
    if HasKey(artifact, CONTENT_HASH) && Truthy(Get(artifact, CONTENT_HASH)) then Get(artifact, CONTENT_HASH)
    else if HasKey(artifact, LOCK_HASH) && Truthy(Get(artifact, LOCK_HASH)) then Get(artifact, LOCK_HASH)
    else Str(CanonicalHash(h, Obj(artifact)))
  }

  function VersionOf(artifact: Fields): Json {
    if HasKey(artifact, "version") then Get(artifact, "version")
    else if HasKey(artifact, "schema_version") then Get(artifact, "schema_version")
    else Str("1.0.0")
  }

  // None when the artifact has no id field (a missing key).
  function ArtifactRef(h: Hash, artifact: Fields, schema: string, idField: string): Option<Reference> {
    if HasKey(artifact, idField) then
      Some(Reference(Get(artifact, idField), "https://theoneshot.dev/schemas/aflow/v1/" + schema,
                     VersionOf(artifact), BoundHash(h, artifact)))
    else None
  }

  function ReferenceJson(r: Reference): Json {
    Obj(Field("artifact_id", r.artifactId, Field("schema_id", Str(r.schemaId),
        Field("version", r.version, Field(CONTENT_HASH, r.contentHash, NoField)))))
  }

  // `document[key] == artifact_ref(...)`, dictionaries compared without order.
  predicate Binds(h: Hash, document: Fields, key: string, artifact: Fields, schema: string, idField: string) {
    && HasKey(document, key)
    && ArtifactRef(h, artifact, schema, idField).Some?
    && Meaning(Get(document, key)) == Meaning(ReferenceJson(ArtifactRef(h, artifact, schema, idField).value))
  }

  // ----- Locking and evaluating -----

  const PLAN_SCHEMA := "plan.schema.json"
  const SUCCESS_SCHEMA := "success-definition.schema.json"
  const BASELINE_SCHEMA := "baseline.schema.json"
  const PLAN_ID := "plan_id"
  const BASELINE_ID := "baseline_id"
  const PLAN_REFERENCE := "plan_reference"
  const SUCCESS_REFERENCE := "success_definition_reference"
  const BASELINE_REFERENCE := "baseline_reference"

  // The hash fields each artifact schema allows and the hash it must carry.
  predicate PlanShape(plan: Fields) {
    && WellFormedFields(plan) && !HasKey(plan, CONTENT_HASH) && !HasKey(plan, LOCK_HASH) && !HasKey(plan, SUCCESS_ID)
    && HasKey(plan, PLAN_ID) && Get(plan, PLAN_ID).Str? && Identifier(Get(plan, PLAN_ID).text)
    && HasKey(plan, "version") && Get(plan, "version").Str? && VersionText(Get(plan, "version").text)
  }

  predicate BaselineValid(h: Hash, baseline: Fields) {
    WellFormedFields(baseline) && VerifyHash(h, baseline, CONTENT_HASH) && !HasKey(baseline, LOCK_HASH)
    && HasKey(baseline, BASELINE_ID) && !HasKey(baseline, SUCCESS_ID)
  }

  predicate SuccessValid(h: Hash, success: Fields) {
    && WellFormedFields(success) && !HasKey(success, CONTENT_HASH) && !HasKey(success, LOCK_HASH)
    && HasKey(success, SUCCESS_ID)
    && HasKey(success, CONFIRMATION) && Get(success, CONFIRMATION).Obj?
    && HasKey(Get(success, CONFIRMATION).fields, CONTENT_HASH)
    && Get(Get(success, CONFIRMATION).fields, CONTENT_HASH) == Str(CanonicalHash(h, Obj(success)))
  }

  predicate LockValid(h: Hash, locked: Fields) {
    WellFormedFields(locked) && VerifyHash(h, locked, LOCK_HASH) && !HasKey(locked, CONTENT_HASH)
    && !HasKey(locked, SUCCESS_ID)
  }

  datatype LockRequest = LockRequest(success: Fields, plan: Fields, authority: Fields, baseline: Fields,
                                     decision: Fields, clean: bool, lockedAt: string)

  datatype LockReferences = LockReferences(decision: Reference, plan: Reference, success: Reference,
                                           authority: Reference, baseline: Reference)

  function LockTail(refs: LockReferences, lockedAt: string): Fields {
    Field("authority_bundle_reference", ReferenceJson(refs.authority),
    Field("baseline_reference", ReferenceJson(refs.baseline),
    Field("locked_by", Str("aflow"),
    Field("locked_at", Str(lockedAt), NoField))))
  }

  function LockBody(refs: LockReferences, lockId: string, lockedAt: string): Fields {
    Field("schema_version", Str("1.0.0"),
    Field("lock_id", Str(lockId),
    Field("analysis_decision_reference", ReferenceJson(refs.decision),
    Field("plan_reference", ReferenceJson(refs.plan),
    Field("success_definition_reference", ReferenceJson(refs.success), LockTail(refs, lockedAt))))))
  }

  function References(h: Hash, r: LockRequest): Option<LockReferences> {
    var decision := ArtifactRef(h, r.decision, "analysis-decision.schema.json", "analysis_id");
    var plan := ArtifactRef(h, r.plan, PLAN_SCHEMA, PLAN_ID);
    var success := ArtifactRef(h, r.success, SUCCESS_SCHEMA, SUCCESS_ID);
    var authority := ArtifactRef(h, r.authority, "authority-evidence.schema.json", "authority_bundle_id");
    var baseline := ArtifactRef(h, r.baseline, BASELINE_SCHEMA, BASELINE_ID);
    if decision.None? || plan.None? || success.None? || authority.None? || baseline.None? then None
    else Some(LockReferences(decision.value, plan.value, success.value, authority.value, baseline.value))
  }

  function LockId(plan: Fields): string
    requires PlanShape(plan)
  {
    "lock." + (Get(plan, PLAN_ID).text + ("." + Get(plan, "version").text))
  }

  // `clean` is decision == "no_material_gap" together with execution_ready.
  // None stands for every raised error.
  function LockPlan(h: Hash, r: LockRequest): Option<Fields> {
    if !SuccessValid(h, r.success) || !PlanShape(r.plan) || !r.clean
       || !Binds(h, r.decision, PLAN_REFERENCE, r.plan, PLAN_SCHEMA, PLAN_ID)
       || !Binds(h, r.decision, SUCCESS_REFERENCE, r.success, SUCCESS_SCHEMA, SUCCESS_ID)
       || References(h, r).None? || !Identifier(LockId(r.plan))
    then None
    else Some(Seal(h, LockBody(References(h, r).value, LockId(r.plan), r.lockedAt), LOCK_HASH))
  }

  // The binding checks evaluation makes before it looks at any evidence.
  predicate EvaluationAccepts(h: Hash, locked: Fields, success: Fields, plan: Fields, baseline: Fields) {
    && LockValid(h, locked) && SuccessValid(h, success) && PlanShape(plan) && BaselineValid(h, baseline)
    && Binds(h, locked, PLAN_REFERENCE, plan, PLAN_SCHEMA, PLAN_ID)
    && Binds(h, locked, SUCCESS_REFERENCE, success, SUCCESS_SCHEMA, SUCCESS_ID)
    && Binds(h, locked, BASELINE_REFERENCE, baseline, BASELINE_SCHEMA, BASELINE_ID)
  }

  // ----- What an accepted lock binds -----

  lemma {:induction false} KeyAfter(key: string, value: Json, rest: Fields, k: string)
    requires key != k
    ensures HasKey(Field(key, value, rest), k) == HasKey(rest, k)
    ensures HasKey(rest, k) ==> Get(Field(key, value, rest), k) == Get(rest, k)
  {
  }

  lemma ReferenceMeaning(r: Reference)
    ensures Meaning(ReferenceJson(r)).fields.Keys == {"artifact_id", "schema_id", "version", CONTENT_HASH}
    ensures Meaning(ReferenceJson(r)).fields[CONTENT_HASH] == Meaning(r.contentHash)
  {
    var f3 := Field(CONTENT_HASH, r.contentHash, NoField);
    var f2 := Field("version", r.version, f3);
    var f1 := Field("schema_id", Str(r.schemaId), f2);
    var f0 := Field("artifact_id", r.artifactId, f1);
    assert FieldMeanings(f3) == map[CONTENT_HASH := Meaning(r.contentHash)];
    assert FieldMeanings(f2) == FieldMeanings(f3)["version" := Meaning(r.version)];
    assert FieldMeanings(f1) == FieldMeanings(f2)["schema_id" := VStr(r.schemaId)];
    assert FieldMeanings(f0) == FieldMeanings(f1)["artifact_id" := Meaning(r.artifactId)];
    assert ReferenceJson(r) == Obj(f0);
  }

  function ReferenceUnder(refs: LockReferences, k: string): Reference {
    if k == PLAN_REFERENCE then refs.plan else if k == SUCCESS_REFERENCE then refs.success else refs.baseline
  }

  function ArtifactUnder(r: LockRequest, k: string): Fields {
    if k == PLAN_REFERENCE then r.plan else if k == SUCCESS_REFERENCE then r.success else r.baseline
  }

  lemma LockBodyKeys(refs: LockReferences, lockId: string, lockedAt: string, k: string)
    requires k == PLAN_REFERENCE || k == SUCCESS_REFERENCE || k == BASELINE_REFERENCE
    ensures HasKey(LockBody(refs, lockId, lockedAt), k)
    ensures Get(LockBody(refs, lockId, lockedAt), k) == ReferenceJson(ReferenceUnder(refs, k))
  {
    var tail := LockTail(refs, lockedAt);
    var f4 := Field("success_definition_reference", ReferenceJson(refs.success), tail);
    var f3 := Field("plan_reference", ReferenceJson(refs.plan), f4);
    var f2 := Field("analysis_decision_reference", ReferenceJson(refs.decision), f3);
    var f1 := Field("lock_id", Str(lockId), f2);
    var f0 := Field("schema_version", Str("1.0.0"), f1);
    assert "schema_version"[0] != "plan_reference"[0];
    if k == BASELINE_REFERENCE {
      assert HasKey(tail, k) && Get(tail, k) == ReferenceJson(refs.baseline);
      KeyAfter("success_definition_reference", ReferenceJson(refs.success), tail, k);
      KeyAfter("plan_reference", ReferenceJson(refs.plan), f4, k);
    } else if k == SUCCESS_REFERENCE {
      KeyAfter("plan_reference", ReferenceJson(refs.plan), f4, k);
    }
    KeyAfter("analysis_decision_reference", ReferenceJson(refs.decision), f3, k);
    KeyAfter("lock_id", Str(lockId), f2, k);
    KeyAfter("schema_version", Str("1.0.0"), f1, k);
  }

  // The meaning a lock holds under a reference key survives in any verified
  // lock that carries the same lock hash.
  lemma SameLockSameReference(h: Hash, sealed: Fields, locked: Fields, k: string)
    requires Injective(h) && WellFormedFields(sealed) && LockValid(h, locked)
    requires VerifyHash(h, sealed, LOCK_HASH) && Get(sealed, LOCK_HASH) == Get(locked, LOCK_HASH)
    requires !HasKey(sealed, SUCCESS_ID)
    requires k != CONTENT_HASH && k != LOCK_HASH && HasKey(sealed, k)
    ensures HasKey(locked, k) && Meaning(Get(locked, k)) == Meaning(Get(sealed, k))
  {
    VerifiedHashBinds(h, sealed, locked, LOCK_HASH);
    var m, n := FieldMeanings(sealed), FieldMeanings(locked);
    FieldMeaningsAt(sealed);
    FieldMeaningsAt(locked);
    assert m - {CONTENT_HASH, LOCK_HASH} == n - {CONTENT_HASH, LOCK_HASH};
    assert k in m - {CONTENT_HASH, LOCK_HASH};
    assert (m - {CONTENT_HASH, LOCK_HASH})[k] == (n - {CONTENT_HASH, LOCK_HASH})[k];
  }

  // Two references with the same meaning carry the same content hash.
  lemma SameReferenceSameHash(a: Reference, b: Reference)
    requires Meaning(ReferenceJson(a)) == Meaning(ReferenceJson(b))
    ensures Meaning(a.contentHash) == Meaning(b.contentHash)
  {
    ReferenceMeaning(a);
    ReferenceMeaning(b);
  }

  // An artifact is bound by its own content hash if it carries one, else by its
  // lock hash, else by the hash of its content.
  lemma BoundByExactly(h: Hash, a: Fields)
    ensures HasKey(a, CONTENT_HASH) && Get(a, CONTENT_HASH).Str? && Get(a, CONTENT_HASH).text != "" ==>
      BoundHash(h, a) == Get(a, CONTENT_HASH)
    ensures (HasKey(a, CONTENT_HASH) ==> Get(a, CONTENT_HASH) in {Null, Str("")})
            && HasKey(a, LOCK_HASH) && Get(a, LOCK_HASH).Str? && Get(a, LOCK_HASH).text != "" ==>
      BoundHash(h, a) == Get(a, LOCK_HASH)
    ensures (HasKey(a, CONTENT_HASH) ==> Get(a, CONTENT_HASH) in {Null, Str("")})
            && (HasKey(a, LOCK_HASH) ==> Get(a, LOCK_HASH) in {Null, Str("")}) ==>
      BoundHash(h, a) == Str(CanonicalHash(h, Obj(a)))
  {
  }

  lemma BoundHashIsCanonical(h: Hash, a: Fields)
    requires WellFormedFields(a)
    requires !HasKey(a, LOCK_HASH)
    requires HasKey(a, CONTENT_HASH) ==> VerifyHash(h, a, CONTENT_HASH)
    ensures BoundHash(h, a) == Str(CanonicalHash(h, Obj(a)))
  {
    assert CanonicalHash(h, Obj(a))[0] == 's';
  }

  lemma SameBoundHash(h: Hash, a: Fields, b: Fields)
    requires Injective(h) && WellFormedFields(a) && WellFormedFields(b)
    requires !HasKey(a, LOCK_HASH) && (HasKey(a, CONTENT_HASH) ==> VerifyHash(h, a, CONTENT_HASH))
    requires !HasKey(b, LOCK_HASH) && (HasKey(b, CONTENT_HASH) ==> VerifyHash(h, b, CONTENT_HASH))
    requires Meaning(BoundHash(h, a)) == Meaning(BoundHash(h, b))
    ensures OwnContent(Meaning(Obj(a))) == OwnContent(Meaning(Obj(b)))
    ensures CanonicalHash(h, Obj(a)) == CanonicalHash(h, Obj(b))
  {
    BoundHashIsCanonical(h, a);
    BoundHashIsCanonical(h, b);
    CanonicalHashBinds(h, Obj(a), Obj(b));
  }

  lemma OwnContentPlain(m: map<string, Value>)
    requires SUCCESS_ID !in m
    ensures OwnContent(VObj(m)) == VObj(m - {CONTENT_HASH, LOCK_HASH})
  {
  }

  lemma OwnContentSuccess(m: map<string, Value>)
    requires SUCCESS_ID in m && CONFIRMATION in m && m[CONFIRMATION].VObj?
    requires CONTENT_HASH !in m && LOCK_HASH !in m
    ensures OwnContent(VObj(m)) == VObj(m[CONFIRMATION := VObj(m[CONFIRMATION].fields - {CONTENT_HASH})])
  {
    assert m - {CONTENT_HASH, LOCK_HASH} == m;
  }

  lemma PlanMeans(a: Fields)
    requires PlanShape(a)
    ensures var m := FieldMeanings(a);
      SUCCESS_ID !in m && LOCK_HASH !in m && CONTENT_HASH !in m && m - {CONTENT_HASH, LOCK_HASH} == m
  {
    FieldMeaningsAt(a);
  }

  // Plans have no hash field of their own: equal hashes mean equal plans.
  lemma PlanBound(h: Hash, a: Fields, b: Fields)
    requires Injective(h) && PlanShape(a) && PlanShape(b)
    requires Meaning(BoundHash(h, a)) == Meaning(BoundHash(h, b))
    ensures Meaning(Obj(a)) == Meaning(Obj(b))
  {
    SameBoundHash(h, a, b);
    PlanMeans(a);
    PlanMeans(b);
    OwnContentPlain(FieldMeanings(a));
    OwnContentPlain(FieldMeanings(b));
  }

  lemma SameEverywhere<K, V>(m: map<K, V>, n: map<K, V>, a: K, b: K)
    requires a in m && a in n && m[a] == n[a] && b !in m && b !in n
    requires m - {a, b} == n - {a, b}
    ensures m == n
  {
    assert m == (m - {a, b})[a := m[a]];
    assert n == (n - {a, b})[a := n[a]];
  }

  lemma BaselineMeans(h: Hash, a: Fields)
    requires BaselineValid(h, a)
    ensures var m := FieldMeanings(a);
      && SUCCESS_ID !in m && LOCK_HASH !in m && CONTENT_HASH in m
      && m[CONTENT_HASH] == VStr(CanonicalHash(h, Obj(a)))
  {
    FieldMeaningsAt(a);
  }

  // A baseline's own hash is verified, so it is bound together with the rest.
  lemma BaselineBound(h: Hash, a: Fields, b: Fields)
    requires Injective(h) && BaselineValid(h, a) && BaselineValid(h, b)
    requires Meaning(BoundHash(h, a)) == Meaning(BoundHash(h, b))
    ensures Meaning(Obj(a)) == Meaning(Obj(b))
  {
    SameBoundHash(h, a, b);
    var m, n := FieldMeanings(a), FieldMeanings(b);
    BaselineMeans(h, a);
    BaselineMeans(h, b);
    OwnContentPlain(m);
    OwnContentPlain(n);
    SameEverywhere(m, n, CONTENT_HASH, LOCK_HASH);
  }

  // A success definition holds its own hash in its confirmation, verified too.
  lemma SuccessBound(h: Hash, a: Fields, b: Fields)
    requires Injective(h) && SuccessValid(h, a) && SuccessValid(h, b)
    requires Meaning(BoundHash(h, a)) == Meaning(BoundHash(h, b))
    ensures Meaning(Obj(a)) == Meaning(Obj(b))
  {
    SameBoundHash(h, a, b);
    var m, n := FieldMeanings(a), FieldMeanings(b);
    FieldMeaningsAt(a);
    FieldMeaningsAt(b);
    FieldMeaningsAt(Get(a, CONFIRMATION).fields);
    FieldMeaningsAt(Get(b, CONFIRMATION).fields);
    OwnContentSuccess(m);
    OwnContentSuccess(n);
    ConfirmationAgrees(m, n);
  }

  lemma ConfirmationAgrees(m: map<string, Value>, n: map<string, Value>)
    requires CONFIRMATION in m && m[CONFIRMATION].VObj? && CONTENT_HASH in m[CONFIRMATION].fields
    requires CONFIRMATION in n && n[CONFIRMATION].VObj? && CONTENT_HASH in n[CONFIRMATION].fields
    requires m[CONFIRMATION].fields[CONTENT_HASH] == n[CONFIRMATION].fields[CONTENT_HASH]
    requires m[CONFIRMATION := VObj(m[CONFIRMATION].fields - {CONTENT_HASH})]
          == n[CONFIRMATION := VObj(n[CONFIRMATION].fields - {CONTENT_HASH})]
    ensures m == n
  {
    var c, d := m[CONFIRMATION].fields, n[CONFIRMATION].fields;
    var m1, n1 := m[CONFIRMATION := VObj(c - {CONTENT_HASH})], n[CONFIRMATION := VObj(d - {CONTENT_HASH})];
    assert m1[CONFIRMATION] == n1[CONFIRMATION];
    assert c == (c - {CONTENT_HASH})[CONTENT_HASH := c[CONTENT_HASH]];
    assert d == (d - {CONTENT_HASH})[CONTENT_HASH := d[CONTENT_HASH]];
    assert m == m1[CONFIRMATION := VObj(c)];
    assert n == n1[CONFIRMATION := VObj(d)];
  }

  predicate WellFormedRequest(r: LockRequest) {
    WellFormedFields(r.decision) && WellFormedFields(r.authority) && WellFormedFields(r.baseline)
  }

  lemma RefWellFormed(h: Hash, artifact: Fields, schema: string, idField: string)
    requires WellFormedFields(artifact) && ArtifactRef(h, artifact, schema, idField).Some?
    ensures WellFormed(ReferenceJson(ArtifactRef(h, artifact, schema, idField).value))
  {
    GetWellFormed(artifact, idField);
    if HasKey(artifact, "version") { GetWellFormed(artifact, "version"); }
    if HasKey(artifact, "schema_version") { GetWellFormed(artifact, "schema_version"); }
    if HasKey(artifact, CONTENT_HASH) { GetWellFormed(artifact, CONTENT_HASH); }
    if HasKey(artifact, LOCK_HASH) { GetWellFormed(artifact, LOCK_HASH); }
    var r := ArtifactRef(h, artifact, schema, idField).value;
    assert WellFormed(r.artifactId) && WellFormed(r.version) && WellFormed(r.contentHash);
    ReferenceShape(r);
  }

  lemma ReferenceShape(r: Reference)
    requires WellFormed(r.artifactId) && WellFormed(r.version) && WellFormed(r.contentHash)
    ensures WellFormed(ReferenceJson(r))
  {
    var f3 := Field(CONTENT_HASH, r.contentHash, NoField);
    var f2 := Field("version", r.version, f3);
    var f1 := Field("schema_id", Str(r.schemaId), f2);
    assert KeySet(f3) == {CONTENT_HASH} && WellFormedFields(f3);
    assert KeySet(f2) == {"version", CONTENT_HASH} && WellFormedFields(f2);
    assert KeySet(f1) == {"schema_id", "version", CONTENT_HASH} && WellFormedFields(f1);
  }

  lemma ReferencesWellFormed(h: Hash, r: LockRequest)
    requires WellFormedRequest(r) && LockPlan(h, r).Some?
    ensures WellFormedReferences(References(h, r).value)
  {
    RefWellFormed(h, r.decision, "analysis-decision.schema.json", "analysis_id");
    RefWellFormed(h, r.plan, PLAN_SCHEMA, PLAN_ID);
    RefWellFormed(h, r.success, SUCCESS_SCHEMA, SUCCESS_ID);
    RefWellFormed(h, r.authority, "authority-evidence.schema.json", "authority_bundle_id");
    RefWellFormed(h, r.baseline, BASELINE_SCHEMA, BASELINE_ID);
  }

  // A lock that was issued is sealed and holds the reference of each artifact.
  lemma LockIsSealed(h: Hash, r: LockRequest, k: string)
    requires WellFormedRequest(r) && LockPlan(h, r).Some?
    requires k == PLAN_REFERENCE || k == SUCCESS_REFERENCE || k == BASELINE_REFERENCE
    ensures WellFormedFields(LockPlan(h, r).value) && VerifyHash(h, LockPlan(h, r).value, LOCK_HASH)
    ensures !HasKey(LockPlan(h, r).value, SUCCESS_ID) && HasKey(LockPlan(h, r).value, k)
    ensures Get(LockPlan(h, r).value, k) == ReferenceJson(ReferenceUnder(References(h, r).value, k))
  {
    var refs := References(h, r).value;
    ReferencesWellFormed(h, r);
    LockBodyShape(refs, LockId(r.plan), r.lockedAt);
    LockBodyKeys(refs, LockId(r.plan), r.lockedAt, k);
    SealVerifies(h, LockBody(refs, LockId(r.plan), r.lockedAt), LOCK_HASH);
    assert k != LOCK_HASH && SUCCESS_ID != LOCK_HASH;
  }

  // A plan that passed everything else is refused a lock exactly when its id
  // and version are too long together, the version carries build metadata, or
  // the id ends in a newline.
  lemma LockedExactly(h: Hash, r: LockRequest)
    requires SuccessValid(h, r.success) && PlanShape(r.plan) && r.clean && References(h, r).Some?
    requires Binds(h, r.decision, PLAN_REFERENCE, r.plan, PLAN_SCHEMA, PLAN_ID)
    requires Binds(h, r.decision, SUCCESS_REFERENCE, r.success, SUCCESS_SCHEMA, SUCCESS_ID)
    ensures LockPlan(h, r).None? <==>
      var (id, version) := (Get(r.plan, PLAN_ID).text, Get(r.plan, "version").text);
      |id| + |version| > 122 || '+' in version || EndsInNewline(id)
  {
    LockIdExactly(r.plan);
  }

  // A lock is issued exactly for a confirmed success definition and a plan of
  // the right shape, under a clean decision that refers to this plan and this
  // success definition, when every artifact has an id and the id of the lock is
  // an identifier.
  lemma LockIssuedExactly(h: Hash, r: LockRequest)
    ensures LockPlan(h, r).Some? <==>
      && SuccessValid(h, r.success) && PlanShape(r.plan) && r.clean
      && RefersTo(h, r.decision, "plan_reference", r.plan, "plan.schema.json", "plan_id")
      && RefersTo(h, r.decision, "success_definition_reference", r.success, "success-definition.schema.json", SUCCESS_ID)
      && HasKey(r.decision, "analysis_id") && HasKey(r.authority, "authority_bundle_id") && HasKey(r.baseline, "baseline_id")
      && |Get(r.plan, "plan_id").text| + |Get(r.plan, "version").text| <= 122
      && '+' !in Get(r.plan, "version").text && !EndsInNewline(Get(r.plan, "plan_id").text)
  {
    RefersExactly(h, r.decision, PLAN_REFERENCE, r.plan, PLAN_SCHEMA, PLAN_ID);
    RefersExactly(h, r.decision, SUCCESS_REFERENCE, r.success, SUCCESS_SCHEMA, SUCCESS_ID);
    ReferencesExactly(h, r);
    IssuedIf(h, r);
    if PlanShape(r.plan) {
      LockIdExactly(r.plan);
    }
  }

  lemma ReferencesExactly(h: Hash, r: LockRequest)
    ensures References(h, r).Some? <==>
      && HasKey(r.decision, "analysis_id") && HasKey(r.plan, "plan_id") && HasKey(r.success, SUCCESS_ID)
      && HasKey(r.authority, "authority_bundle_id") && HasKey(r.baseline, "baseline_id")
  {
  }

  lemma IssuedIf(h: Hash, r: LockRequest)
    ensures LockPlan(h, r).Some? <==>
      && SuccessValid(h, r.success) && PlanShape(r.plan) && r.clean
      && Binds(h, r.decision, PLAN_REFERENCE, r.plan, PLAN_SCHEMA, PLAN_ID)
      && Binds(h, r.decision, SUCCESS_REFERENCE, r.success, SUCCESS_SCHEMA, SUCCESS_ID)
      && References(h, r).Some? && Identifier(LockId(r.plan))
  {
  }

  // Under the key the document holds the artifact's id, its schema, its version
  // and what it is bound by, and nothing else, in any order.
  ghost predicate RefersTo(h: Hash, document: Fields, key: string, artifact: Fields, schema: string, idField: string) {
    && HasKey(document, key) && HasKey(artifact, idField)
    && Meaning(Get(document, key)).VObj?
    && var m := Meaning(Get(document, key)).fields;
      && m.Keys == {"artifact_id", "schema_id", "version", "content_hash"}
      && m["artifact_id"] == Meaning(Get(artifact, idField))
      && m["schema_id"] == VStr("https://theoneshot.dev/schemas/aflow/v1/" + schema)
      && m["version"] == (if HasKey(artifact, "version") then Meaning(Get(artifact, "version"))
                          else if HasKey(artifact, "schema_version") then Meaning(Get(artifact, "schema_version"))
                          else VStr("1.0.0"))
      && m["content_hash"] == Meaning(BoundHash(h, artifact))
  }

  lemma RefersExactly(h: Hash, document: Fields, key: string, artifact: Fields, schema: string, idField: string)
    ensures Binds(h, document, key, artifact, schema, idField) <==> RefersTo(h, document, key, artifact, schema, idField)
  {
    if HasKey(artifact, idField) {
      var r := ArtifactRef(h, artifact, schema, idField).value;
      ReferenceFields(r);
      if HasKey(document, key) && RefersTo(h, document, key, artifact, schema, idField) {
        assert Meaning(Get(document, key)).fields == Meaning(ReferenceJson(r)).fields;
      }
    }
  }

  lemma ReferenceFields(r: Reference)
    ensures Meaning(ReferenceJson(r)) == VObj(map["artifact_id" := Meaning(r.artifactId), "schema_id" := VStr(r.schemaId),
                                                  "version" := Meaning(r.version), "content_hash" := Meaning(r.contentHash)])
  {
    var f3 := Field(CONTENT_HASH, r.contentHash, NoField);
    var f2 := Field("version", r.version, f3);
    var f1 := Field("schema_id", Str(r.schemaId), f2);
    var f0 := Field("artifact_id", r.artifactId, f1);
    assert FieldMeanings(f3) == map[CONTENT_HASH := Meaning(r.contentHash)];
    assert FieldMeanings(f2) == FieldMeanings(f3)["version" := Meaning(r.version)];
    assert FieldMeanings(f1) == FieldMeanings(f2)["schema_id" := VStr(r.schemaId)];
    assert FieldMeanings(f0) == FieldMeanings(f1)["artifact_id" := Meaning(r.artifactId)];
    assert ReferenceJson(r) == Obj(f0);
  }

  // What the body of a lock holds, key by key.
  function BodyMeaning(refs: LockReferences, lockId: string, lockedAt: string): map<string, Value> {
    map["locked_at" := VStr(lockedAt), "locked_by" := VStr("aflow"),
        "baseline_reference" := Meaning(ReferenceJson(refs.baseline)),
        "authority_bundle_reference" := Meaning(ReferenceJson(refs.authority)),
        "success_definition_reference" := Meaning(ReferenceJson(refs.success)),
        "plan_reference" := Meaning(ReferenceJson(refs.plan)),
        "analysis_decision_reference" := Meaning(ReferenceJson(refs.decision)),
        "lock_id" := VStr(lockId), "schema_version" := VStr("1.0.0")]
  }

  lemma TailMeans(refs: LockReferences, lockedAt: string)
    ensures FieldMeanings(LockTail(refs, lockedAt)) ==
      map["locked_at" := VStr(lockedAt), "locked_by" := VStr("aflow"),
          "baseline_reference" := Meaning(ReferenceJson(refs.baseline)),
          "authority_bundle_reference" := Meaning(ReferenceJson(refs.authority))]
  {
    var f3 := Field("locked_at", Str(lockedAt), NoField);
    var f2 := Field("locked_by", Str("aflow"), f3);
    var f1 := Field("baseline_reference", ReferenceJson(refs.baseline), f2);
    assert FieldMeanings(f3) == map["locked_at" := VStr(lockedAt)];
    assert FieldMeanings(f2) == FieldMeanings(f3)["locked_by" := VStr("aflow")];
    assert FieldMeanings(f1) == FieldMeanings(f2)["baseline_reference" := Meaning(ReferenceJson(refs.baseline))];
  }

  lemma BodyMeans(refs: LockReferences, lockId: string, lockedAt: string)
    ensures FieldMeanings(LockBody(refs, lockId, lockedAt)) == BodyMeaning(refs, lockId, lockedAt)
  {
    TailMeans(refs, lockedAt);
    var f5 := LockTail(refs, lockedAt);
    var f4 := Field("success_definition_reference", ReferenceJson(refs.success), f5);
    var f3 := Field("plan_reference", ReferenceJson(refs.plan), f4);
    var f2 := Field("analysis_decision_reference", ReferenceJson(refs.decision), f3);
    var f1 := Field("lock_id", Str(lockId), f2);
    assert FieldMeanings(f4) == FieldMeanings(f5)["success_definition_reference" := Meaning(ReferenceJson(refs.success))];
    assert FieldMeanings(f3) == FieldMeanings(f4)["plan_reference" := Meaning(ReferenceJson(refs.plan))];
    assert FieldMeanings(f2) == FieldMeanings(f3)["analysis_decision_reference" := Meaning(ReferenceJson(refs.decision))];
    assert FieldMeanings(f1) == FieldMeanings(f2)["lock_id" := VStr(lockId)];
  }

  lemma LockIdText(plan: Fields)
    requires PlanShape(plan)
    ensures LockId(plan) == "lock." + Get(plan, "plan_id").text + "." + Get(plan, "version").text
  {
  }

  lemma IssuedLock(h: Hash, r: LockRequest)
    requires LockPlan(h, r).Some?
    ensures LockPlan(h, r).value == Seal(h, LockBody(References(h, r).value, LockId(r.plan), r.lockedAt), LOCK_HASH)
  {
  }

  // The whole of an issued lock but its hash: who locked what, and when.
  lemma LockSays(h: Hash, r: LockRequest)
    requires WellFormedRequest(r) && LockPlan(h, r).Some?
    ensures var lockId := "lock." + Get(r.plan, "plan_id").text + "." + Get(r.plan, "version").text;
      FieldMeanings(LockPlan(h, r).value) - {"lock_hash"}
      == BodyMeaning(References(h, r).value, lockId, r.lockedAt) - {"lock_hash"}
  {
    var refs := References(h, r).value;
    var body := LockBody(refs, LockId(r.plan), r.lockedAt);
    IssuedLock(h, r);
    LockIdText(r.plan);
    ReferencesWellFormed(h, r);
    SealedMeans(h, refs, LockId(r.plan), r.lockedAt);
  }

  // The five artifacts an issued lock refers to.
  lemma LockRefers(h: Hash, r: LockRequest)
    requires WellFormedRequest(r) && LockPlan(h, r).Some?
    ensures var locked := LockPlan(h, r).value;
      && RefersTo(h, locked, "analysis_decision_reference", r.decision, "analysis-decision.schema.json", "analysis_id")
      && RefersTo(h, locked, "plan_reference", r.plan, "plan.schema.json", "plan_id")
      && RefersTo(h, locked, "success_definition_reference", r.success, "success-definition.schema.json", SUCCESS_ID)
      && RefersTo(h, locked, "authority_bundle_reference", r.authority, "authority-evidence.schema.json", "authority_bundle_id")
      && RefersTo(h, locked, "baseline_reference", r.baseline, "baseline.schema.json", "baseline_id")
  {
    var refs := References(h, r).value;
    LockSays(h, r);
    BodyRefers(refs, "lock." + Get(r.plan, "plan_id").text + "." + Get(r.plan, "version").text, r.lockedAt);
    LockRefersAt(h, r, "analysis_decision_reference", refs.decision, r.decision, "analysis-decision.schema.json", "analysis_id");
    LockRefersAt(h, r, "plan_reference", refs.plan, r.plan, "plan.schema.json", "plan_id");
    LockRefersAt(h, r, "success_definition_reference", refs.success, r.success, "success-definition.schema.json", SUCCESS_ID);
    LockRefersAt(h, r, "authority_bundle_reference", refs.authority, r.authority, "authority-evidence.schema.json", "authority_bundle_id");
    LockRefersAt(h, r, "baseline_reference", refs.baseline, r.baseline, "baseline.schema.json", "baseline_id");
  }

  lemma BodyRefers(refs: LockReferences, lockId: string, lockedAt: string)
    ensures var m := BodyMeaning(refs, lockId, lockedAt) - {"lock_hash"};
      && HoldsReference(m, "analysis_decision_reference", refs.decision) && HoldsReference(m, "plan_reference", refs.plan)
      && HoldsReference(m, "success_definition_reference", refs.success)
      && HoldsReference(m, "authority_bundle_reference", refs.authority) && HoldsReference(m, "baseline_reference", refs.baseline)
  {
    assert "schema_version"[0] != "plan_reference"[0];
    assert |"lock_id"| == 7 && |"schema_version"| == |"plan_reference"| == 14 && |"lock_hash"| == 9;
    assert |"baseline_reference"| == 18 && |"authority_bundle_reference"| == 26;
    assert |"analysis_decision_reference"| == 27 && |"success_definition_reference"| == 28;
  }

  ghost predicate HoldsReference(m: map<string, Value>, key: string, r: Reference) {
    key in m && m[key] == Meaning(ReferenceJson(r))
  }

  lemma LockRefersAt(h: Hash, r: LockRequest, key: string, reference: Reference, artifact: Fields, schema: string, idField: string)
    requires LockPlan(h, r).Some? && ArtifactRef(h, artifact, schema, idField) == Some(reference)
    requires HoldsReference(FieldMeanings(LockPlan(h, r).value) - {"lock_hash"}, key, reference)
    ensures RefersTo(h, LockPlan(h, r).value, key, artifact, schema, idField)
  {
    FieldMeaningsAt(LockPlan(h, r).value);
    RefersExactly(h, LockPlan(h, r).value, key, artifact, schema, idField);
  }

  lemma SealedMeans(h: Hash, refs: LockReferences, lockId: string, lockedAt: string)
    requires WellFormedReferences(refs)
    ensures FieldMeanings(Seal(h, LockBody(refs, lockId, lockedAt), LOCK_HASH)) - {"lock_hash"}
      == BodyMeaning(refs, lockId, lockedAt) - {"lock_hash"}
  {
    LockBodyShape(refs, lockId, lockedAt);
    SealVerifies(h, LockBody(refs, lockId, lockedAt), LOCK_HASH);
    BodyMeans(refs, lockId, lockedAt);
  }

  // The lock that was issued is accepted at evaluation, together with the very
  // artifacts it was issued for.
  lemma IssuedIsAccepted(h: Hash, r: LockRequest)
    requires WellFormedRequest(r) && BaselineValid(h, r.baseline) && LockPlan(h, r).Some?
    ensures EvaluationAccepts(h, LockPlan(h, r).value, r.success, r.plan, r.baseline)
  {
    LockIsSealed(h, r, PLAN_REFERENCE);
    LockIsSealed(h, r, SUCCESS_REFERENCE);
    LockIsSealed(h, r, BASELINE_REFERENCE);
    var refs, sealed := References(h, r).value, LockPlan(h, r).value;
    ReferencesWellFormed(h, r);
    LockBodyShape(refs, LockId(r.plan), r.lockedAt);
    SealVerifies(h, LockBody(refs, LockId(r.plan), r.lockedAt), LOCK_HASH);
    assert CONTENT_HASH !in FieldMeanings(sealed) - {LOCK_HASH};
  }

  // The hash an artifact carries is its own.
  ghost predicate OwnHash(h: Hash, fields: Fields, key: string) {
    HasKey(fields, key) && Get(fields, key) == Str(CanonicalHash(h, Obj(fields)))
  }

  // What evaluation accepts: a lock, a plan and a baseline with just the hashes
  // their schemas allow, each its own, a success definition confirmed under its
  // own hash, and a lock that refers to the three field by field.
  lemma AcceptsExactly(h: Hash, locked: Fields, success: Fields, plan: Fields, baseline: Fields)
    ensures EvaluationAccepts(h, locked, success, plan, baseline) <==>
      && WellFormedFields(locked) && WellFormedFields(success) && WellFormedFields(plan) && WellFormedFields(baseline)
      && OwnHash(h, locked, "lock_hash") && !HasKey(locked, "content_hash") && !HasKey(locked, SUCCESS_ID)
      && OwnHash(h, baseline, "content_hash") && !HasKey(baseline, "lock_hash") && !HasKey(baseline, SUCCESS_ID)
      && HasKey(baseline, "baseline_id") && PlanShape(plan) && Confirmed(h, success)
      && RefersTo(h, locked, "plan_reference", plan, "plan.schema.json", "plan_id")
      && RefersTo(h, locked, "success_definition_reference", success, "success-definition.schema.json", SUCCESS_ID)
      && RefersTo(h, locked, "baseline_reference", baseline, "baseline.schema.json", "baseline_id")
  {
    RefersExactly(h, locked, PLAN_REFERENCE, plan, PLAN_SCHEMA, PLAN_ID);
    RefersExactly(h, locked, SUCCESS_REFERENCE, success, SUCCESS_SCHEMA, SUCCESS_ID);
    RefersExactly(h, locked, BASELINE_REFERENCE, baseline, BASELINE_SCHEMA, BASELINE_ID);
  }

  ghost predicate Confirmed(h: Hash, success: Fields) {
    && HasKey(success, SUCCESS_ID) && !HasKey(success, "content_hash") && !HasKey(success, "lock_hash")
    && HasKey(success, CONFIRMATION) && Get(success, CONFIRMATION).Obj?
    && var confirmation := Get(success, CONFIRMATION).fields;
      HasKey(confirmation, "content_hash") && Get(confirmation, "content_hash") == Str(CanonicalHash(h, Obj(success)))
  }

  lemma LockIdExactly(plan: Fields)
    requires PlanShape(plan)
    ensures Identifier(LockId(plan)) <==>
      var (id, version) := (Get(plan, PLAN_ID).text, Get(plan, "version").text);
      |id| + |version| <= 122 && '+' !in version && !EndsInNewline(id)
  {
    VersionedExactly("lock.", Get(plan, PLAN_ID).text, Get(plan, "version").text);
  }

  // With an injective hash, a lock accepted at evaluation under the hash of
  // the lock that was issued binds the very plan, success definition and
  // baseline that were locked, up to key order.
  lemma LockBindsArtifacts(h: Hash, r: LockRequest, locked: Fields, success: Fields, plan: Fields, baseline: Fields)
    requires Injective(h) && WellFormedRequest(r) && BaselineValid(h, r.baseline)
    requires LockPlan(h, r).Some? && EvaluationAccepts(h, locked, success, plan, baseline)
    requires Get(locked, LOCK_HASH) == Get(LockPlan(h, r).value, LOCK_HASH)
    ensures Meaning(Obj(plan)) == Meaning(Obj(r.plan))
    ensures Meaning(Obj(success)) == Meaning(Obj(r.success))
    ensures Meaning(Obj(baseline)) == Meaning(Obj(r.baseline))
  {
    BoundUnder(h, r, locked, PLAN_REFERENCE, plan, PLAN_SCHEMA, PLAN_ID);
    PlanBound(h, plan, r.plan);
    BoundUnder(h, r, locked, SUCCESS_REFERENCE, success, SUCCESS_SCHEMA, SUCCESS_ID);
    SuccessBound(h, success, r.success);
    BoundUnder(h, r, locked, BASELINE_REFERENCE, baseline, BASELINE_SCHEMA, BASELINE_ID);
    BaselineBound(h, baseline, r.baseline);
  }

  lemma BoundUnder(h: Hash, r: LockRequest, locked: Fields, k: string, artifact: Fields, schema: string, idField: string)
    requires Injective(h) && WellFormedRequest(r) && LockPlan(h, r).Some?
    requires LockValid(h, locked) && Get(locked, LOCK_HASH) == Get(LockPlan(h, r).value, LOCK_HASH)
    requires Binds(h, locked, k, artifact, schema, idField)
    requires k == PLAN_REFERENCE || k == SUCCESS_REFERENCE || k == BASELINE_REFERENCE
    ensures Meaning(BoundHash(h, artifact)) == Meaning(BoundHash(h, ArtifactUnder(r, k)))
  {
    LockIsSealed(h, r, k);
    assert k != CONTENT_HASH && k != LOCK_HASH;
    SameLockSameReference(h, LockPlan(h, r).value, locked, k);
    SameReferenceSameHash(ArtifactRef(h, artifact, schema, idField).value, ReferenceUnder(References(h, r).value, k));
    assert ReferenceUnder(References(h, r).value, k).contentHash == BoundHash(h, ArtifactUnder(r, k));
  }

  function KeySet(fields: Fields): (keys: set<string>)
    ensures forall k :: k in keys <==> HasKey(fields, k)
  {
    if fields.NoField? then {} else {fields.key} + KeySet(fields.rest)
  }

  // Adding a key the list does not hold yet keeps it well-formed.
  lemma AddKey(key: string, value: Json, rest: Fields, keys: set<string>)
    requires WellFormed(value) && WellFormedFields(rest) && KeySet(rest) == keys && key !in keys
    ensures WellFormedFields(Field(key, value, rest)) && KeySet(Field(key, value, rest)) == keys + {key}
  {
  }

  lemma LockTailShape(refs: LockReferences, lockedAt: string)
    requires WellFormedReferences(refs)
    ensures WellFormedFields(LockTail(refs, lockedAt))
    ensures KeySet(LockTail(refs, lockedAt)) ==
      {"locked_at", "locked_by", BASELINE_REFERENCE, "authority_bundle_reference"}
  {
    assert "locked_by"[7] != "locked_at"[7];
    var f8 := Field("locked_at", Str(lockedAt), NoField);
    var f7 := Field("locked_by", Str("aflow"), f8);
    AddKey("locked_at", Str(lockedAt), NoField, {});
    AddKey("locked_by", Str("aflow"), f8, {"locked_at"});
    AddKey(BASELINE_REFERENCE, ReferenceJson(refs.baseline), f7, {"locked_at", "locked_by"});
    AddKey("authority_bundle_reference", ReferenceJson(refs.authority),
           Field(BASELINE_REFERENCE, ReferenceJson(refs.baseline), f7), {"locked_at", "locked_by", BASELINE_REFERENCE});
  }

  // The nine keys of a lock are distinct; none of them is the id of a
  // success definition.
  lemma LockBodyShape(refs: LockReferences, lockId: string, lockedAt: string)
    requires WellFormedReferences(refs)
    ensures WellFormedFields(LockBody(refs, lockId, lockedAt))
    ensures !HasKey(LockBody(refs, lockId, lockedAt), SUCCESS_ID) && !HasKey(LockBody(refs, lockId, lockedAt), CONTENT_HASH)
  {
    LockTailShape(refs, lockedAt);
    assert "schema_version"[0] != "plan_reference"[0];
    var f5 := LockTail(refs, lockedAt);
    var f4 := Field(SUCCESS_REFERENCE, ReferenceJson(refs.success), f5);
    var f3 := Field(PLAN_REFERENCE, ReferenceJson(refs.plan), f4);
    var f2 := Field("analysis_decision_reference", ReferenceJson(refs.decision), f3);
    var f1 := Field("lock_id", Str(lockId), f2);
    AddKey(SUCCESS_REFERENCE, ReferenceJson(refs.success), f5, KeySet(f5));
    AddKey(PLAN_REFERENCE, ReferenceJson(refs.plan), f4, KeySet(f4));
    AddKey("analysis_decision_reference", ReferenceJson(refs.decision), f3, KeySet(f3));
    AddKey("lock_id", Str(lockId), f2, KeySet(f2));
    AddKey("schema_version", Str("1.0.0"), f1, KeySet(f1));
  }

  predicate WellFormedReferences(refs: LockReferences) {
    && WellFormedReference(refs.decision) && WellFormedReference(refs.plan) && WellFormedReference(refs.success)
    && WellFormedReference(refs.authority) && WellFormedReference(refs.baseline)
  }

  predicate WellFormedReference(r: Reference) {
    WellFormed(ReferenceJson(r))
  }
}
