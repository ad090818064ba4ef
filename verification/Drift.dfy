/**
  Baseline comparison and drift classification: which entries and authorities
  of a repository changed since a plan was locked, and whether that blocks.
*/
module Drift {
  import opened Dictionary
  import opened Ordering
  import opened Text

  datatype Class = Relevant | Protected | Unrelated | Unknown

  datatype Entry = Entry(path: string, hash: string, category: Class)

  datatype Authority = Authority(authorityId: string, hash: string)

  datatype Baseline = Baseline(baselineId: string, root: string, scope: string, entries: seq<Entry>, authorities: seq<Authority>)

  datatype Kind = Added | Modified | Deleted | AuthorityChanged | Unverifiable

  datatype Change = Change(path: string, kind: Kind, category: Class, before: Option<string>, after: Option<string>)

  function PathOf(e: Entry): string { e.path }
  function AuthorityOf(a: Authority): string { a.authorityId }

  // The domain invariants of a baseline that comparison re-checks.
  predicate BaselineValid(b: Baseline) {
    Distinct(Ids(b.entries, PathOf)) && Distinct(Ids(b.authorities, AuthorityOf))
  }

  // Two entries for one path, or two authorities under one id.
  ghost predicate Repeats(b: Baseline) {
    || (exists i, j :: 0 <= i < j < |b.entries| && b.entries[i].path == b.entries[j].path)
    || (exists i, j :: 0 <= i < j < |b.authorities| && b.authorities[i].authorityId == b.authorities[j].authorityId)
  }

  lemma RepeatsExactly(b: Baseline)
    ensures BaselineValid(b) <==> !Repeats(b)
  {
    var paths, ids := Ids(b.entries, PathOf), Ids(b.authorities, AuthorityOf);
    assert forall i :: 0 <= i < |paths| ==> paths[i] == b.entries[i].path;
    assert forall i :: 0 <= i < |ids| ==> ids[i] == b.authorities[i].authorityId;
  }

  function Conservative(before: Option<Entry>, after: Option<Entry>): Class {
    var values := (if before.Some? then {before.value.category} else {}) + (if after.Some? then {after.value.category} else {});
    if Protected in values then Protected
    else if Unknown in values then Unknown
    else if Relevant in values then Relevant
    else Unrelated
  }

  function HashOf(e: Option<Entry>): Option<string> {
    if e.Some? then Some(e.value.hash) else None
  }

  // The row for one path, if its entry changed.
  function PathRow(path: string, before: Option<Entry>, after: Option<Entry>): Option<Change> {
    if before.Some? && after.Some? && before.value.hash == after.value.hash then
      if before.value.category == after.value.category then None
      else Some(Change(path, Unverifiable, Unknown, HashOf(before), HashOf(after)))
    else
      Some(Change(path, if before.None? then Added else if after.None? then Deleted else Modified,
                  Conservative(before, after), HashOf(before), HashOf(after)))
  }

  function PathRows(before: map<string, Entry>, after: map<string, Entry>, paths: seq<string>): seq<Change> {
    if paths == [] then []
    else
      var n := |paths| - 1;
      var row := PathRow(paths[n], Lookup(before, paths[n]), Lookup(after, paths[n]));
      PathRows(before, after, paths[..n]) + (if row.Some? then [row.value] else [])
  }

  function AuthorityHash(a: Option<Authority>): Option<string> {
    if a.Some? then Some(a.value.hash) else None
  }

  function AuthorityRow(id: string, before: Option<Authority>, after: Option<Authority>): Change {
    Change("authority/" + id, AuthorityChanged, Protected, AuthorityHash(before), AuthorityHash(after))
  }

  function AuthorityRows(before: map<string, Authority>, after: map<string, Authority>, ids: seq<string>): seq<Change> {
    if ids == [] then []
    else
      var n := |ids| - 1;
      var was, now := Lookup(before, ids[n]), Lookup(after, ids[n]);
      AuthorityRows(before, after, ids[..n]) +
      (if AuthorityHash(was) != AuthorityHash(now) then [AuthorityRow(ids[n], was, now)] else [])
  }

  function BaselineRows(locked: Baseline, current: Baseline): seq<Change> {
    (if locked.root != current.root then [Change("repository-root", Unverifiable, Unknown, None, None)] else []) +
    (if locked.scope != current.scope then [Change("baseline-scope", Unverifiable, Unknown, None, None)] else [])
  }

  function EntryMap(b: Baseline): map<string, Entry> {
    ById(b.entries, PathOf)
  }

  function AuthorityMap(b: Baseline): map<string, Authority> {
    ById(b.authorities, AuthorityOf)
  }

  // The paths of either baseline, and the authorities of either, in order.
  function AllPaths(locked: Baseline, current: Baseline): seq<string> {
    SortDistinct(StringLess, Ids(locked.entries, PathOf) + Ids(current.entries, PathOf))
  }

  function AllAuthorities(locked: Baseline, current: Baseline): seq<string> {
    SortDistinct(StringLess, Ids(locked.authorities, AuthorityOf) + Ids(current.authorities, AuthorityOf))
  }

  function Changes(locked: Baseline, current: Baseline): seq<Change> {
    BaselineRows(locked, current)
    + PathRows(EntryMap(locked), EntryMap(current), AllPaths(locked, current))
    + AuthorityRows(AuthorityMap(locked), AuthorityMap(current), AllAuthorities(locked, current))
  }

  method ComparePaths(before: map<string, Entry>, after: map<string, Entry>, paths: seq<string>) returns (changes: seq<Change>)
    ensures changes == PathRows(before, after, paths)
  {
    changes := [];
    for i := 0 to |paths|
      invariant changes == PathRows(before, after, paths[..i])
    {
      assert paths[..i + 1][..i] == paths[..i];
      var path := paths[i];
      var was, now := Lookup(before, path), Lookup(after, path);
      if was.Some? && now.Some? && was.value.hash == now.value.hash && was.value.category == now.value.category {
        continue;
      }
      if was.Some? && now.Some? && was.value.hash == now.value.hash {
        changes := changes + [Change(path, Unverifiable, Unknown, Some(was.value.hash), Some(now.value.hash))];
        continue;
      }
      var kind := if was.None? then Added else if now.None? then Deleted else Modified;
      changes := changes + [Change(path, kind, Conservative(was, now), HashOf(was), HashOf(now))];
    }
    assert paths[..|paths|] == paths;
  }

  method CompareAuthorities(before: map<string, Authority>, after: map<string, Authority>, ids: seq<string>) returns (changes: seq<Change>)
    ensures changes == AuthorityRows(before, after, ids)
  {
    changes := [];
    for i := 0 to |ids|
      invariant changes == AuthorityRows(before, after, ids[..i])
    {
      assert ids[..i + 1][..i] == ids[..i];
      var was, now := Lookup(before, ids[i]), Lookup(after, ids[i]);
      if AuthorityHash(was) != AuthorityHash(now) {
        changes := changes + [AuthorityRow(ids[i], was, now)];
      }
    }
    assert ids[..|ids|] == ids;
  }

  // Comparison refuses a baseline that breaks its own invariants.
  method CompareBaselines(locked: Baseline, current: Baseline) returns (changes: Option<seq<Change>>)
    ensures changes == if BaselineValid(locked) && BaselineValid(current) then Some(Changes(locked, current)) else None
    ensures changes.None? <==> Repeats(locked) || Repeats(current)
  {
    RepeatsExactly(locked);
    RepeatsExactly(current);
    if !BaselineValid(locked) || !BaselineValid(current) {
      return None;
    }
    var rows: seq<Change> := [];
    if locked.root != current.root {
      rows := rows + [Change("repository-root", Unverifiable, Unknown, None, None)];
    }
    if locked.scope != current.scope {
      rows := rows + [Change("baseline-scope", Unverifiable, Unknown, None, None)];
    }
    assert rows == BaselineRows(locked, current);
    var paths := ComparePaths(EntryMap(locked), EntryMap(current), AllPaths(locked, current));
    var authorities := CompareAuthorities(AuthorityMap(locked), AuthorityMap(current), AllAuthorities(locked, current));
    changes := Some(rows + paths + authorities);
  }

  datatype Verdict = NoDrift | BaselineUnverifiable | FullReanalysis | ScopedRevalidation | NonblockingDrift

  datatype Decision = Decision(verdict: Verdict, blocking: bool)

  function Classes(changes: seq<Change>): set<Class> {
    set c | c in changes :: c.category
  }

  function Kinds(changes: seq<Change>): set<Kind> {
    set c | c in changes :: c.kind
  }

  function Classify(changes: seq<Change>): Decision {
    var classes, kinds := Classes(changes), Kinds(changes);
    if changes == [] then Decision(NoDrift, false)
    else if Unknown in classes || Unverifiable in kinds then Decision(BaselineUnverifiable, true)
    else if Protected in classes then Decision(FullReanalysis, true)
    else if Relevant in classes then Decision(ScopedRevalidation, true)
    else Decision(NonblockingDrift, false)
  }

  // ----- What the rows say -----

  lemma {:induction false} PathRowsAre(before: map<string, Entry>, after: map<string, Entry>, paths: seq<string>)
    ensures forall c :: c in PathRows(before, after, paths) <==>
      c.path in paths && PathRow(c.path, Lookup(before, c.path), Lookup(after, c.path)) == Some(c)
    ensures Distinct(paths) ==> OneRowPerPath(PathRows(before, after, paths))
  {
    if paths != [] {
      var n := |paths| - 1;
      PathRowsAre(before, after, paths[..n]);
      assert paths == paths[..n] + [paths[n]];
      assert Distinct(paths) ==> Distinct(paths[..n]) && paths[n] !in paths[..n];
    }
  }

  // No path has two rows.
  ghost predicate OneRowPerPath(rows: seq<Change>) {
    forall i, j :: 0 <= i < j < |rows| ==> rows[i].path != rows[j].path
  }

  lemma {:induction false} AuthorityRowsAre(before: map<string, Authority>, after: map<string, Authority>, ids: seq<string>)
    ensures forall c :: c in AuthorityRows(before, after, ids) <==>
      exists id :: id in ids && AuthorityHash(Lookup(before, id)) != AuthorityHash(Lookup(after, id))
        && c == AuthorityRow(id, Lookup(before, id), Lookup(after, id))
  {
    if ids != [] {
      var n := |ids| - 1;
      AuthorityRowsAre(before, after, ids[..n]);
      assert ids == ids[..n] + [ids[n]];
    }
  }

  lemma PathsListed(locked: Baseline, current: Baseline)
    ensures forall p :: p in AllPaths(locked, current) <==> p in EntryMap(locked) || p in EntryMap(current)
    ensures Distinct(AllPaths(locked, current))
  {
    KeysListed(locked.entries, PathOf);
    KeysListed(current.entries, PathOf);
    SortedIsDistinct(Ids(locked.entries, PathOf) + Ids(current.entries, PathOf));
  }

  lemma AuthoritiesListed(locked: Baseline, current: Baseline)
    ensures forall a :: a in AllAuthorities(locked, current) <==> a in AuthorityMap(locked) || a in AuthorityMap(current)
  {
    KeysListed(locked.authorities, AuthorityOf);
    KeysListed(current.authorities, AuthorityOf);
  }

  lemma KeysListed<T>(items: seq<T>, id: T -> string)
    ensures forall x :: x in Ids(items, id) <==> x in ById(items, id)
  {
    ByIdLooksUp(items, id);
    forall x ensures x in Ids(items, id) <==> x in ById(items, id) {
      if x in ById(items, id) {
        var i :| 0 <= i < |items| && id(items[i]) == x;
        assert Ids(items, id)[i] == x;
      }
      if x in Ids(items, id) {
        var i :| 0 <= i < |items| && Ids(items, id)[i] == x;
        assert id(items[i]) == x;
      }
    }
  }

  lemma SortedIsDistinct(xs: seq<string>)
    ensures Distinct(SortDistinct(StringLess, xs))
  {
    StringLessIsStrictTotalOrder();
    SortDistinctIncreasing(StringLess, xs);
    IncreasingDistinct(StringLess, SortDistinct(StringLess, xs));
  }

  // ----- Agreement -----

  // The hash and class recorded for a path.
  function Facet(e: Option<Entry>): Option<(string, Class)> {
    if e.Some? then Some((e.value.hash, e.value.category)) else None
  }

  ghost predicate SameAt(locked: Baseline, current: Baseline, path: string) {
    Facet(Lookup(EntryMap(locked), path)) == Facet(Lookup(EntryMap(current), path))
  }

  ghost predicate SameAuthorities(locked: Baseline, current: Baseline) {
    forall id :: AuthorityHash(Lookup(AuthorityMap(locked), id)) == AuthorityHash(Lookup(AuthorityMap(current), id))
  }

  ghost predicate Agree(locked: Baseline, current: Baseline) {
    && locked.root == current.root && locked.scope == current.scope
    && (forall path :: SameAt(locked, current, path))
    && SameAuthorities(locked, current)
  }

  // No change is reported exactly when root, scope, entries and authorities agree.
  lemma NoChangeExactly(locked: Baseline, current: Baseline)
    ensures Changes(locked, current) == [] <==> Agree(locked, current)
  {
    AuthoritiesExactly(locked, current);
    PathsExactly(locked, current);
  }

  lemma PathsExactly(locked: Baseline, current: Baseline)
    ensures PathRows(EntryMap(locked), EntryMap(current), AllPaths(locked, current)) == []
      <==> forall path :: SameAt(locked, current, path)
  {
    PathsListed(locked, current);
    NoRowsExactly(EntryMap(locked), EntryMap(current), AllPaths(locked, current));
    if PathRows(EntryMap(locked), EntryMap(current), AllPaths(locked, current)) == [] {
      forall path ensures SameAt(locked, current, path) {
        assert SameFacet(EntryMap(locked), EntryMap(current), path);
      }
    } else {
      var path :| !SameFacet(EntryMap(locked), EntryMap(current), path);
      assert !SameAt(locked, current, path);
    }
  }

  ghost predicate SameFacet(before: map<string, Entry>, after: map<string, Entry>, path: string) {
    Facet(Lookup(before, path)) == Facet(Lookup(after, path))
  }

  lemma NoRowsExactly(before: map<string, Entry>, after: map<string, Entry>, paths: seq<string>)
    requires forall p :: p in paths <==> p in before || p in after
    ensures PathRows(before, after, paths) == [] <==> forall path :: SameFacet(before, after, path)
  {
    PathRowsAre(before, after, paths);
    var rows := PathRows(before, after, paths);
    forall path | !SameFacet(before, after, path) ensures rows != [] {
      assert PathRow(path, Lookup(before, path), Lookup(after, path)).value in rows;
    }
    if rows != [] {
      assert rows[0] in rows;
      assert !SameFacet(before, after, rows[0].path);
    }
  }

  lemma AuthoritiesExactly(locked: Baseline, current: Baseline)
    ensures AuthorityRows(AuthorityMap(locked), AuthorityMap(current), AllAuthorities(locked, current)) == []
      <==> SameAuthorities(locked, current)
  {
    var before, after, ids := AuthorityMap(locked), AuthorityMap(current), AllAuthorities(locked, current);
    AuthoritiesListed(locked, current);
    AuthorityRowsAre(before, after, ids);
    var rows := AuthorityRows(before, after, ids);
    forall id | AuthorityHash(Lookup(before, id)) != AuthorityHash(Lookup(after, id)) ensures rows != [] {
      assert AuthorityRow(id, Lookup(before, id), Lookup(after, id)) in rows;
    }
    if rows != [] {
      assert rows[0] in rows;
    }
  }

  // ----- The rows patch one baseline into the other -----

  function HashMap(b: Baseline): map<string, string> {
    map p | p in EntryMap(b) :: EntryMap(b)[p].hash
  }

  function Apply(hashes: map<string, string>, row: Change): map<string, string> {
    match row.kind
    case Deleted => hashes - {row.path}
    case Added => if row.after.Some? then hashes[row.path := row.after.value] else hashes
    case Modified => if row.after.Some? then hashes[row.path := row.after.value] else hashes
    case _ => hashes
  }

  function Patch(hashes: map<string, string>, rows: seq<Change>): map<string, string> {
    if rows == [] then hashes
    else
      var n := |rows| - 1;
      Apply(Patch(hashes, rows[..n]), rows[n])
  }

  // Applying the row of a path sets that path to its current hash.
  lemma ApplySets(hashes: map<string, string>, path: string, was: Option<Entry>, now: Option<Entry>)
    requires Lookup(hashes, path) == HashOf(was) || Lookup(hashes, path) == HashOf(now)
    ensures var row := PathRow(path, was, now);
      var applied := if row.Some? then Apply(hashes, row.value) else hashes;
      forall p :: Lookup(applied, p) == if p == path then HashOf(now) else Lookup(hashes, p)
  {
  }

  // Patching changes exactly the paths with an added, modified or deleted row.
  ghost predicate PatchedTo(hashes: map<string, string>, after: map<string, Entry>, paths: seq<string>, patched: map<string, string>) {
    forall p ::
      Lookup(patched, p) == if p in paths then HashOf(Lookup(after, p)) else Lookup(hashes, p)
  }

  lemma PatchLast(hashes: map<string, string>, rows: seq<Change>, row: Change)
    ensures Patch(hashes, rows + [row]) == Apply(Patch(hashes, rows), row)
  {
    assert (rows + [row])[..|rows|] == rows;
  }

  lemma PatchNext(hashes: map<string, string>, before: map<string, Entry>, after: map<string, Entry>, paths: seq<string>)
    requires paths != []
    ensures var n := |paths| - 1;
      var row := PathRow(paths[n], Lookup(before, paths[n]), Lookup(after, paths[n]));
      var hashed := Patch(hashes, PathRows(before, after, paths[..n]));
      Patch(hashes, PathRows(before, after, paths)) == if row.Some? then Apply(hashed, row.value) else hashed
  {
    var n := |paths| - 1;
    var rows := PathRows(before, after, paths[..n]);
    var row := PathRow(paths[n], Lookup(before, paths[n]), Lookup(after, paths[n]));
    if row.Some? {
      PatchLast(hashes, rows, row.value);
    } else {
      assert rows + [] == rows;
    }
  }

  lemma {:induction false} PatchesPaths(hashes: map<string, string>, before: map<string, Entry>, after: map<string, Entry>, paths: seq<string>)
    requires forall p :: Lookup(hashes, p) == HashOf(Lookup(before, p))
    ensures PatchedTo(hashes, after, paths, Patch(hashes, PathRows(before, after, paths)))
  {
    if paths != [] {
      var n := |paths| - 1;
      PatchesPaths(hashes, before, after, paths[..n]);
      PatchNext(hashes, before, after, paths);
      assert paths == paths[..n] + [paths[n]];
      ApplySets(Patch(hashes, PathRows(before, after, paths[..n])), paths[n], Lookup(before, paths[n]), Lookup(after, paths[n]));
    }
  }

  lemma {:induction false} PatchAppend(hashes: map<string, string>, a: seq<Change>, b: seq<Change>)
    ensures Patch(hashes, a + b) == Patch(Patch(hashes, a), b)
  {
    if b == [] {
      assert a + b == a;
    } else {
      var n := |b| - 1;
      assert (a + b)[..|a| + n] == a + b[..n];
      PatchAppend(hashes, a, b[..n]);
    }
  }

  lemma {:induction false} PatchIgnores(hashes: map<string, string>, rows: seq<Change>)
    requires forall c :: c in rows ==> c.kind == AuthorityChanged || c.kind == Unverifiable
    ensures Patch(hashes, rows) == hashes
  {
    if rows != [] {
      var n := |rows| - 1;
      assert rows[n] in rows;
      PatchIgnores(hashes, rows[..n]);
    }
  }

  lemma PathsPatch(locked: Baseline, current: Baseline)
    ensures Patch(HashMap(locked), PathRows(EntryMap(locked), EntryMap(current), AllPaths(locked, current))) == HashMap(current)
  {
    var before, after, paths := EntryMap(locked), EntryMap(current), AllPaths(locked, current);
    PatchesPaths(HashMap(locked), before, after, paths);
    PathsListed(locked, current);
    var patched := Patch(HashMap(locked), PathRows(before, after, paths));
    forall p ensures Lookup(patched, p) == Lookup(HashMap(current), p) {
    }
    SameLookups(patched, HashMap(current));
  }

  // Applying the reported rows to the locked hashes gives the current ones.
  lemma ChangesPatchExactly(locked: Baseline, current: Baseline)
    ensures Patch(HashMap(locked), Changes(locked, current)) == HashMap(current)
  {
    var head, rows := BaselineRows(locked, current), PathRows(EntryMap(locked), EntryMap(current), AllPaths(locked, current));
    var tail := AuthorityRows(AuthorityMap(locked), AuthorityMap(current), AllAuthorities(locked, current));
    AuthorityRowsAre(AuthorityMap(locked), AuthorityMap(current), AllAuthorities(locked, current));
    PatchMiddle(HashMap(locked), head, rows, tail);
    PathsPatch(locked, current);
  }

  lemma PatchMiddle(hashes: map<string, string>, head: seq<Change>, rows: seq<Change>, tail: seq<Change>)
    requires forall c :: c in head || c in tail ==> c.kind == AuthorityChanged || c.kind == Unverifiable
    ensures Patch(hashes, head + rows + tail) == Patch(hashes, rows)
  {
    PatchAppend(hashes, head + rows, tail);
    PatchAppend(hashes, head, rows);
    PatchIgnores(hashes, head);
    PatchIgnores(Patch(hashes, rows), tail);
  }

  lemma SameLookups<K, V>(a: map<K, V>, b: map<K, V>)
    requires forall k :: Lookup(a, k) == Lookup(b, k)
    ensures a == b
  {
    forall k ensures k in a <==> k in b {
      assert Lookup(a, k) == Lookup(b, k);
    }
    forall k | k in a ensures a[k] == b[k] {
      assert Lookup(a, k) == Lookup(b, k);
    }
  }

  // ----- What does not block -----

  ghost predicate UnrelatedSide(e: Option<Entry>) {
    e.Some? ==> e.value.category == Unrelated
  }

  // A path that agrees, or changed in content and is unrelated on each side where it exists.
  ghost predicate HarmlessAt(before: map<string, Entry>, after: map<string, Entry>, path: string) {
    var was, now := Lookup(before, path), Lookup(after, path);
    Facet(was) == Facet(now) || (HashOf(was) != HashOf(now) && UnrelatedSide(was) && UnrelatedSide(now))
  }

  lemma ConservativeUnrelated(before: Option<Entry>, after: Option<Entry>)
    ensures Conservative(before, after) == Unrelated <==> UnrelatedSide(before) && UnrelatedSide(after)
  {
  }

  lemma ClassesAre(changes: seq<Change>)
    ensures forall x :: x in Classes(changes) <==> exists c :: c in changes && c.category == x
    ensures Unverifiable in Kinds(changes) <==> exists c :: c in changes && c.kind == Unverifiable
  {
  }

  lemma ClassifyExactly(changes: seq<Change>)
    ensures !Classify(changes).blocking <==> forall c :: c in changes ==> HarmlessRow(c)
  {
    ClassesAre(changes);
    var blocking := Classify(changes).blocking;
    forall c | c in changes && (c.category != Unrelated || c.kind == Unverifiable) ensures blocking {
      assert c.category in Classes(changes);
    }
  }

  ghost predicate HarmlessRow(c: Change) {
    c.category == Unrelated && c.kind != Unverifiable
  }

  lemma RowHarmless(path: string, before: map<string, Entry>, after: map<string, Entry>)
    ensures var row := PathRow(path, Lookup(before, path), Lookup(after, path));
      HarmlessAt(before, after, path) <==> row.None? || HarmlessRow(row.value)
  {
    ConservativeUnrelated(Lookup(before, path), Lookup(after, path));
  }

  lemma HarmlessPathsExactly(before: map<string, Entry>, after: map<string, Entry>, paths: seq<string>)
    requires forall p :: p in paths <==> p in before || p in after
    ensures (forall c :: c in PathRows(before, after, paths) ==> HarmlessRow(c)) <==>
      forall path :: HarmlessAt(before, after, path)
  {
    PathRowsAre(before, after, paths);
    forall path ensures HarmlessAt(before, after, path) <==>
        (var row := PathRow(path, Lookup(before, path), Lookup(after, path)); row.None? || HarmlessRow(row.value)) {
      RowHarmless(path, before, after);
    }
    forall path | !HarmlessAt(before, after, path) ensures exists c :: c in PathRows(before, after, paths) && !HarmlessRow(c) {
      assert PathRow(path, Lookup(before, path), Lookup(after, path)).value in PathRows(before, after, paths);
    }
  }

  lemma HarmlessAuthoritiesExactly(locked: Baseline, current: Baseline)
    ensures (forall c :: c in AuthorityRows(AuthorityMap(locked), AuthorityMap(current), AllAuthorities(locked, current)) ==> HarmlessRow(c))
      <==> SameAuthorities(locked, current)
  {
    AuthoritiesExactly(locked, current);
    AuthorityRowsAre(AuthorityMap(locked), AuthorityMap(current), AllAuthorities(locked, current));
    var tail := AuthorityRows(AuthorityMap(locked), AuthorityMap(current), AllAuthorities(locked, current));
    assert tail != [] ==> tail[0] in tail;
  }

  lemma HarmlessBaselineExactly(locked: Baseline, current: Baseline)
    ensures (forall c :: c in BaselineRows(locked, current) ==> HarmlessRow(c))
      <==> locked.root == current.root && locked.scope == current.scope
  {
    var head := BaselineRows(locked, current);
    assert head != [] ==> head[0] in head;
  }

  // Drift does not block exactly when root, scope and authorities agree and
  // every path either agrees or changed while unrelated on both sides.
  lemma NonblockingExactly(locked: Baseline, current: Baseline)
    ensures !Classify(Changes(locked, current)).blocking <==>
      && locked.root == current.root && locked.scope == current.scope && SameAuthorities(locked, current)
      && forall path :: HarmlessAt(EntryMap(locked), EntryMap(current), path)
  {
    PathsListed(locked, current);
    HarmlessPathsExactly(EntryMap(locked), EntryMap(current), AllPaths(locked, current));
    HarmlessAuthoritiesExactly(locked, current);
    HarmlessBaselineExactly(locked, current);
    SplitHarmless(BaselineRows(locked, current), PathRows(EntryMap(locked), EntryMap(current), AllPaths(locked, current)),
                  AuthorityRows(AuthorityMap(locked), AuthorityMap(current), AllAuthorities(locked, current)));
    ClassifyExactly(Changes(locked, current));
  }

  lemma SplitHarmless(head: seq<Change>, rows: seq<Change>, tail: seq<Change>)
    ensures (forall c :: c in head + rows + tail ==> HarmlessRow(c)) <==>
      (forall c :: c in head ==> HarmlessRow(c)) && (forall c :: c in rows ==> HarmlessRow(c)) && (forall c :: c in tail ==> HarmlessRow(c))
  {
  }

  // ----- Every change, and what it amounts to -----

  // The class of a change with these two sides: the most cautious of theirs.
  ghost predicate ClassOfSides(a: Class, b: Class, c: Class) {
    && (c == Protected <==> a == Protected || b == Protected)
    && (c == Unknown <==> (a == Unknown || b == Unknown) && a != Protected && b != Protected)
    && (c == Unrelated <==> a == Unrelated && b == Unrelated)
  }

  // What is reported: a path that is new, gone, of another content, or of the
  // same content in another class; an authority that differs; another root or
  // scope.
  ghost predicate Reported(locked: Baseline, current: Baseline, c: Change) {
    var before, after := EntryMap(locked), EntryMap(current);
    match c.kind
    case Added => c.path !in before && c.path in after
                  && c == Change(c.path, Added, after[c.path].category, None, Some(after[c.path].hash))
    case Deleted => c.path in before && c.path !in after
                    && c == Change(c.path, Deleted, before[c.path].category, Some(before[c.path].hash), None)
    case Modified =>
      && c.path in before && c.path in after && before[c.path].hash != after[c.path].hash
      && ClassOfSides(before[c.path].category, after[c.path].category, c.category)
      && c.before == Some(before[c.path].hash) && c.after == Some(after[c.path].hash)
    case AuthorityChanged => exists id :: AuthorityReported(locked, current, id, c)
    case Unverifiable =>
      && c.category == Unknown
      && (|| (c.path in before && c.path in after && before[c.path].hash == after[c.path].hash
              && before[c.path].category != after[c.path].category
              && c.before == Some(before[c.path].hash) == c.after)
          || (c.path == "repository-root" && locked.root != current.root && c.before.None? && c.after.None?)
          || (c.path == "baseline-scope" && locked.scope != current.scope && c.before.None? && c.after.None?))
  }

  ghost predicate AuthorityReported(locked: Baseline, current: Baseline, id: string, c: Change) {
    && AuthorityHash(Lookup(AuthorityMap(locked), id)) != AuthorityHash(Lookup(AuthorityMap(current), id))
    && c == Change("authority/" + id, AuthorityChanged, Protected, AuthorityHash(Lookup(AuthorityMap(locked), id)),
                   AuthorityHash(Lookup(AuthorityMap(current), id)))
  }

  lemma ConservativeExactly(before: Option<Entry>, after: Option<Entry>)
    ensures before.Some? && after.Some? ==>
      ClassOfSides(before.value.category, after.value.category, Conservative(before, after))
    ensures before.Some? && after.None? ==> Conservative(before, after) == before.value.category
    ensures before.None? && after.Some? ==> Conservative(before, after) == after.value.category
  {
    var values := (if before.Some? then {before.value.category} else {}) + (if after.Some? then {after.value.category} else {});
    assert forall c :: c in values <==> (before.Some? && c == before.value.category) || (after.Some? && c == after.value.category);
  }

  lemma ClassDetermined(a: Class, b: Class, c: Class, d: Class)
    requires ClassOfSides(a, b, c) && ClassOfSides(a, b, d)
    ensures c == d
  {
  }

  lemma PathReported(locked: Baseline, current: Baseline, c: Change)
    requires c.path in EntryMap(locked) || c.path in EntryMap(current)
    ensures PathRow(c.path, Lookup(EntryMap(locked), c.path), Lookup(EntryMap(current), c.path)) == Some(c)
      <==> Reported(locked, current, c) && !c.kind.AuthorityChanged? && (c.kind == Unverifiable ==> c.before.Some?)
  {
    var was, now := Lookup(EntryMap(locked), c.path), Lookup(EntryMap(current), c.path);
    ConservativeExactly(was, now);
    if was.Some? && now.Some? && ClassOfSides(was.value.category, now.value.category, c.category) {
      ClassDetermined(was.value.category, now.value.category, c.category, Conservative(was, now));
    }
  }

  lemma AuthoritiesReported(locked: Baseline, current: Baseline, c: Change)
    ensures c in AuthorityRows(AuthorityMap(locked), AuthorityMap(current), AllAuthorities(locked, current))
      <==> c.kind == AuthorityChanged && Reported(locked, current, c)
  {
    var before, after, ids := AuthorityMap(locked), AuthorityMap(current), AllAuthorities(locked, current);
    AuthoritiesListed(locked, current);
    AuthorityRowsAre(before, after, ids);
    if c.kind == AuthorityChanged && Reported(locked, current, c) {
      var id :| AuthorityReported(locked, current, id, c);
      assert id in ids && c == AuthorityRow(id, Lookup(before, id), Lookup(after, id));
    }
    if c in AuthorityRows(before, after, ids) {
      var id :| id in ids && AuthorityHash(Lookup(before, id)) != AuthorityHash(Lookup(after, id))
                && c == AuthorityRow(id, Lookup(before, id), Lookup(after, id));
      assert AuthorityReported(locked, current, id, c);
    }
  }

  lemma PathsReported(locked: Baseline, current: Baseline, c: Change)
    ensures c in PathRows(EntryMap(locked), EntryMap(current), AllPaths(locked, current))
      <==> Reported(locked, current, c) && !c.kind.AuthorityChanged? && (c.kind == Unverifiable ==> c.before.Some?)
  {
    PathsListed(locked, current);
    PathRowsAre(EntryMap(locked), EntryMap(current), AllPaths(locked, current));
    if c.path in AllPaths(locked, current) {
      PathReported(locked, current, c);
    }
  }

  lemma InThree(a: seq<Change>, b: seq<Change>, d: seq<Change>, c: Change)
    ensures c in a + b + d <==> c in a || c in b || c in d
  {
  }

  // The rows of a comparison are exactly the changes to report.
  lemma ChangesExactly(locked: Baseline, current: Baseline, c: Change)
    ensures c in Changes(locked, current) <==> Reported(locked, current, c)
  {
    InThree(BaselineRows(locked, current), PathRows(EntryMap(locked), EntryMap(current), AllPaths(locked, current)),
            AuthorityRows(AuthorityMap(locked), AuthorityMap(current), AllAuthorities(locked, current)), c);
    BaselineReported(locked, current, c);
    PathsReported(locked, current, c);
    AuthoritiesReported(locked, current, c);
  }

  lemma BaselineReported(locked: Baseline, current: Baseline, c: Change)
    ensures c in BaselineRows(locked, current) <==> c.kind == Unverifiable && c.before.None? && Reported(locked, current, c)
  {
  }

  ghost predicate Uncertain(c: Change) {
    c.category == Unknown || c.kind == Unverifiable
  }

  lemma UncertainExactly(changes: seq<Change>)
    ensures Unknown in Classes(changes) || Unverifiable in Kinds(changes) <==> exists c :: c in changes && Uncertain(c)
    ensures Protected in Classes(changes) <==> exists c :: c in changes && c.category == Protected
    ensures Relevant in Classes(changes) <==> exists c :: c in changes && c.category == Relevant
    ensures Classes(changes) <= {Unrelated} <==> forall c :: c in changes ==> c.category == Unrelated
  {
    ClassesAre(changes);
  }

  // The verdict on any list of changes, and when it blocks: the gravest of what
  // the changes call for.
  lemma VerdictExactly(changes: seq<Change>)
    ensures var verdict := Classify(changes).verdict;
      && (verdict == NoDrift <==> changes == [])
      && (verdict == BaselineUnverifiable <==> exists c :: c in changes && Uncertain(c))
      && (verdict == FullReanalysis <==>
            (exists c :: c in changes && c.category == Protected) && !exists c :: c in changes && Uncertain(c))
      && (verdict == ScopedRevalidation <==>
            && (exists c :: c in changes && c.category == Relevant)
            && (!exists c :: c in changes && c.category == Protected) && !exists c :: c in changes && Uncertain(c))
      && (Classify(changes).blocking <==> verdict !in {NoDrift, NonblockingDrift})
  {
    UncertainExactly(changes);
    if changes != [] {
      assert changes[0].category in Classes(changes);
    }
  }
}
