/**
  The tree difference of the execution launcher: which entries of a workspace
  inventory changed, with greedy rename matching, and whether every change is
  covered by the contract's authority.
*/
module TreeDiff {
  import opened Dictionary
  import opened Ordering
  import opened Text

  datatype Kind = File | Directory | Symlink

  datatype Entry = Entry(path: string, kind: Kind, mode: int, sha256: Option<string>,
                         target: Option<string>, size: nat, binary: bool)

  datatype Row =
    | Created(path: string, kind: Kind, sha256: Option<string>, binary: bool)
    | Deleted(path: string, kind: Kind, sha256: Option<string>)
    | Renamed(path: string, fromPath: string, sha256: Option<string>, modeChanged: bool)
    | Modified(path: string, before: Entry, after: Entry, binary: bool)
    | SymlinkChanged(path: string, before: Entry, after: Entry, binary: bool)
    | ModeChanged(path: string, before: Entry, after: Entry, binary: bool)
    | CaseOnlyRename(path: string, fromPath: string)
  {
    // `[change["path"]] + [change["from_path"]] if present`
    function Paths(): seq<string> {
      if Renamed? || CaseOnlyRename? then [path, fromPath] else [path]
    }

    // The path under which the row is listed.
    function SortKey(): string {
      if Renamed? then fromPath else path
    }

    // The mutation type the authority check looks up.
    function Mutation(): string {
      match this
      case Created(_, _, _, _) => "created"
      case Deleted(_, _, _) => "deleted"
      case Renamed(_, _, _, _) => "renamed"
      case Modified(_, _, _, _) => "modified"
      case SymlinkChanged(_, _, _, _) => "symlink"
      case ModeChanged(_, _, _, _) => "mode"
      case CaseOnlyRename(_, _) => "rename"
    }
  }

  type Tree = map<string, Entry>

  // ----- Entry tables -----

  // Keyed by path; a later entry with the same path replaces an earlier one.
  function EntryTable(entries: seq<Entry>): (tree: Tree)
    ensures forall p :: p in tree <==> exists i :: 0 <= i < |entries| && entries[i].path == p
    ensures forall p :: p in tree ==> tree[p] in entries && tree[p].path == p
  {
    if entries == [] then map[]
    else
      var n := |entries| - 1;
      assert entries == entries[..n] + [entries[n]];
      EntryTable(entries[..n])[entries[n].path := entries[n]]
  }

  // The keys of the table in insertion order.
  function EntryOrder(entries: seq<Entry>): (order: seq<string>)
    ensures forall p :: p in order <==> p in EntryTable(entries)
    ensures Distinct(order)
  {
    if entries == [] then []
    else
      var n := |entries| - 1;
      var earlier := EntryOrder(entries[..n]);
      if entries[n].path in earlier then earlier else earlier + [entries[n].path]
  }

  // The specification's notion of change: the entry at a path is not the same
  // before and after.
  ghost predicate Differs(was: Tree, now: Tree, p: string) {
    Lookup(was, p) != Lookup(now, p)
  }

  // Files of `tree` that `other` lacks, in the order of `order`.
  function OnlyIn(order: seq<string>, tree: Tree, other: Tree): (files: seq<string>)
    requires forall p :: p in order ==> p in tree
    ensures forall p :: p in files <==> p in order && p !in other && tree[p].kind == File
    ensures Distinct(order) ==> Distinct(files)
  {
    if order == [] then []
    else
      var n := |order| - 1;
      assert order == order[..n] + [order[n]];
      var earlier := OnlyIn(order[..n], tree, other);
      if order[n] !in other && tree[order[n]].kind == File then earlier + [order[n]] else earlier
  }

  // ----- Greedy rename matching -----

  function FirstMatch(created: seq<string>, now: Tree, sha256: Option<string>): (m: Option<string>)
    requires forall t :: t in created ==> t in now
    ensures m.Some? ==> m.value in created && now[m.value].sha256 == sha256
    ensures m.None? ==> forall t :: t in created ==> now[t].sha256 != sha256
  {
    if created == [] then None
    else if now[created[0]].sha256 == sha256 then Some(created[0])
    else
      assert created == [created[0]] + created[1..];
      FirstMatch(created[1..], now, sha256)
  }

  // `list.remove(x)`: drops the first occurrence.
  function Remove(s: seq<string>, x: string): (r: seq<string>)
    requires x in s
    ensures Distinct(s) ==> Distinct(r) && forall y :: y in r <==> y in s && y != x
    ensures forall y :: y in r ==> y in s
  {
    assert s == [s[0]] + s[1..];
    if s[0] == x then s[1..]
    else
      var rest := Remove(s[1..], x);
      assert Distinct(s) ==> s[0] !in rest;
      [s[0]] + rest
  }

  // Each removed file in turn takes the first created file still free that has
  // the same content hash. (An empty path never counts as a match.)
  function Renames(removed: seq<string>, created: seq<string>, was: Tree, now: Tree): (renames: map<string, string>)
    requires forall s :: s in removed ==> s in was
    requires forall t :: t in created ==> t in now
  {
    if removed == [] then map[]
    else
      var m := FirstMatch(created, now, was[removed[0]].sha256);
      if m.Some? && m.value != "" then
        map[removed[0] := m.value] + Renames(removed[1..], Remove(created, m.value), was, now)
      else
        Renames(removed[1..], created, was, now)
  }

  ghost predicate Injective(renames: map<string, string>) {
    forall s, t :: s in renames && t in renames && renames[s] == renames[t] ==> s == t
  }

  // Each rename takes a removed file to a created one with the same hash, and
  // no two take the same.
  ghost predicate Matching(r: map<string, string>, removed: seq<string>, created: seq<string>, was: Tree, now: Tree) {
    && (forall s :: s in r ==> s in removed && s in was && r[s] in created && r[s] in now && was[s].sha256 == now[r[s]].sha256)
    && Injective(r)
  }

  // No pair with equal hashes is left over.
  ghost predicate NoneLeft(r: map<string, string>, removed: seq<string>, created: seq<string>, was: Tree, now: Tree) {
    forall s, t :: s in removed && s in was && s !in r && t in created && t in now && t !in r.Values ==>
      was[s].sha256 != now[t].sha256
  }

  lemma AddMatch(s0: string, t0: string, r: map<string, string>, rest: seq<string>, free: seq<string>, created: seq<string>,
                 was: Tree, now: Tree)
    requires s0 in was && t0 in now && t0 in created && was[s0].sha256 == now[t0].sha256 && s0 !in rest
    requires forall t :: t in free <==> t in created && t != t0
    requires Matching(r, rest, free, was, now)
    ensures Matching(map[s0 := t0] + r, [s0] + rest, created, was, now)
    ensures NoneLeft(r, rest, free, was, now) ==> NoneLeft(map[s0 := t0] + r, [s0] + rest, created, was, now)
  {
    var longer := map[s0 := t0] + r;
    assert s0 !in r && longer[s0] == t0;
    forall t | t in r.Values ensures t in longer.Values {
      var s :| s in r && r[s] == t;
      assert longer[s] == t;
    }
    assert t0 in longer.Values;
  }

  // The renames are such a matching, and it leaves nothing over.
  lemma {:induction false} RenamesMatch(removed: seq<string>, created: seq<string>, was: Tree, now: Tree)
    requires forall s :: s in removed ==> s in was
    requires forall t :: t in created ==> t in now
    requires Distinct(removed) && Distinct(created)
    ensures Matching(Renames(removed, created, was, now), removed, created, was, now)
    ensures "" !in created ==> NoneLeft(Renames(removed, created, was, now), removed, created, was, now)
  {
    if removed != [] {
      var s0, rest := removed[0], removed[1..];
      assert removed == [s0] + rest;
      assert s0 !in rest;
      var m := FirstMatch(created, now, was[s0].sha256);
      if m.Some? && m.value != "" {
        var free := Remove(created, m.value);
        RenamesMatch(rest, free, was, now);
        AddMatch(s0, m.value, Renames(rest, free, was, now), rest, free, created, was, now);
      } else {
        RenamesMatch(rest, created, was, now);
      }
    }
  }

  // ----- Rows -----

  function RowOf(was: Tree, now: Tree, renames: map<string, string>, p: string): Option<Row>
    requires forall s :: s in renames ==> s in was && renames[s] in now
  {
    if p in renames then
      var target := renames[p];
      Some(Renamed(target, p, was[p].sha256, was[p].mode != now[target].mode))
    else if p in renames.Values || Lookup(was, p) == Lookup(now, p) then None
    else if p !in was then
      if p in now then Some(Created(p, now[p].kind, now[p].sha256, now[p].binary)) else None
    else if p !in now then Some(Deleted(p, was[p].kind, was[p].sha256))
    else
      var binary := was[p].binary || now[p].binary;
      if was[p].kind == Symlink || now[p].kind == Symlink then Some(SymlinkChanged(p, was[p], now[p], binary))
      else if was[p].mode != now[p].mode then Some(ModeChanged(p, was[p], now[p], binary))
      else Some(Modified(p, was[p], now[p], binary))
  }

  function DiffRows(was: Tree, now: Tree, renames: map<string, string>, paths: seq<string>): seq<Row>
    requires forall s :: s in renames ==> s in was && renames[s] in now
  {
    if paths == [] then []
    else
      var n := |paths| - 1;
      var earlier := DiffRows(was, now, renames, paths[..n]);
      var row := RowOf(was, now, renames, paths[n]);
      if row.Some? then earlier + [row.value] else earlier
  }

  predicate IsCaseRename(was: Tree, now: Tree, fold: string -> string, first: string, second: string) {
    first != second && fold(first) == fold(second) && first !in now && second !in was
  }

  function CaseRowsFor(was: Tree, now: Tree, fold: string -> string, first: string, targets: seq<string>): (rows: seq<Row>)
    ensures forall row :: row in rows <==>
      row.CaseOnlyRename? && row.fromPath == first && row.path in targets && IsCaseRename(was, now, fold, first, row.path)
  {
    if targets == [] then []
    else
      var n := |targets| - 1;
      assert targets == targets[..n] + [targets[n]];
      CaseRowsFor(was, now, fold, first, targets[..n]) +
      (if IsCaseRename(was, now, fold, first, targets[n]) then [CaseOnlyRename(targets[n], first)] else [])
  }

  function CaseRows(was: Tree, now: Tree, fold: string -> string, sources: seq<string>, targets: seq<string>): (rows: seq<Row>)
    ensures forall row :: row in rows <==>
      row.CaseOnlyRename? && row.fromPath in sources && row.path in targets
      && IsCaseRename(was, now, fold, row.fromPath, row.path)
  {
    if sources == [] then []
    else
      var n := |sources| - 1;
      assert sources == sources[..n] + [sources[n]];
      CaseRows(was, now, fold, sources[..n], targets) + CaseRowsFor(was, now, fold, sources[n], targets)
  }

  // Listing order: case-folded path first, the path itself to break ties.
  predicate Before(fold: string -> string, a: string, b: string) {
    StringLess(fold(a), fold(b)) || (fold(a) == fold(b) && StringLess(a, b))
  }

  function ListingOrder(fold: string -> string): (string, string) -> bool {
    (a, b) => Before(fold, a, b)
  }

  function AllPaths(before: seq<Entry>, after: seq<Entry>, fold: string -> string): seq<string> {
    SortDistinct(ListingOrder(fold), EntryOrder(before) + EntryOrder(after))
  }

  function RenameTable(before: seq<Entry>, after: seq<Entry>): map<string, string> {
    var was, now := EntryTable(before), EntryTable(after);
    Renames(OnlyIn(EntryOrder(before), was, now), OnlyIn(EntryOrder(after), now, was), was, now)
  }

  lemma RenameTableTyped(before: seq<Entry>, after: seq<Entry>)
    ensures var was, now, r := EntryTable(before), EntryTable(after), RenameTable(before, after);
      && (forall s :: s in r ==>
            && s in was && s !in now && was[s].kind == File
            && r[s] in now && r[s] !in was && now[r[s]].kind == File
            && was[s].sha256 == now[r[s]].sha256)
      && Injective(r)
  {
    var was, now := EntryTable(before), EntryTable(after);
    RenamesMatch(OnlyIn(EntryOrder(before), was, now), OnlyIn(EntryOrder(after), now, was), was, now);
  }

  function PathRows(before: seq<Entry>, after: seq<Entry>, fold: string -> string): seq<Row> {
    RenameTableTyped(before, after);
    DiffRows(EntryTable(before), EntryTable(after), RenameTable(before, after), AllPaths(before, after, fold))
  }

  // What the change list is: one row per changed path in listing order, then
  // the case-only renames.
  function Changes(before: seq<Entry>, after: seq<Entry>, fold: string -> string): seq<Row> {
    PathRows(before, after, fold) +
    CaseRows(EntryTable(before), EntryTable(after), fold, EntryOrder(before), EntryOrder(after))
  }

  method MatchRenames(removed: seq<string>, candidates: seq<string>, was: Tree, now: Tree)
    returns (renamed: map<string, string>)
    requires forall s :: s in removed ==> s in was
    requires forall t :: t in candidates ==> t in now
    ensures renamed == Renames(removed, candidates, was, now)
  {
    renamed := map[];
    var created := candidates;
    for i := 0 to |removed|
      invariant forall t :: t in created ==> t in now
      invariant renamed + Renames(removed[i..], created, was, now) == Renames(removed, candidates, was, now)
    {
      var source := removed[i];
      var m := FirstMatch(created, now, was[source].sha256);
      assert removed[i..][1..] == removed[i + 1..];
      if m.Some? && m.value != "" {
        var free := Remove(created, m.value);
        ghost var rest := Renames(removed[i + 1..], free, was, now);
        assert renamed + (map[source := m.value] + rest) == renamed[source := m.value] + rest;
        renamed := renamed[source := m.value];
        created := free;
      }
    }
  }

  method ListDiffRows(was: Tree, now: Tree, renames: map<string, string>, paths: seq<string>) returns (rows: seq<Row>)
    requires forall s :: s in renames ==> s in was && renames[s] in now
    ensures rows == DiffRows(was, now, renames, paths)
  {
    rows := [];
    for i := 0 to |paths|
      invariant rows == DiffRows(was, now, renames, paths[..i])
    {
      assert paths[..i + 1][..i] == paths[..i];
      var row := RowOf(was, now, renames, paths[i]);
      if row.Some? {
        rows := rows + [row.value];
      }
    }
    assert paths[..|paths|] == paths;
  }

  method ListCaseRows(was: Tree, now: Tree, fold: string -> string, sources: seq<string>, targets: seq<string>)
    returns (rows: seq<Row>)
    ensures rows == CaseRows(was, now, fold, sources, targets)
  {
    rows := [];
    for i := 0 to |sources|
      invariant rows == CaseRows(was, now, fold, sources[..i], targets)
    {
      CaseRowsNext(was, now, fold, sources, i, targets);
      var found := ListCaseRowsFor(was, now, fold, sources[i], targets);
      rows := rows + found;
    }
    assert sources[..|sources|] == sources;
  }

  method ListCaseRowsFor(was: Tree, now: Tree, fold: string -> string, first: string, targets: seq<string>)
    returns (rows: seq<Row>)
    ensures rows == CaseRowsFor(was, now, fold, first, targets)
  {
    rows := [];
    for j := 0 to |targets|
      invariant rows == CaseRowsFor(was, now, fold, first, targets[..j])
    {
      CaseRowsForNext(was, now, fold, first, targets, j);
      if IsCaseRename(was, now, fold, first, targets[j]) {
        rows := rows + [CaseOnlyRename(targets[j], first)];
      }
    }
    assert targets[..|targets|] == targets;
  }

  lemma CaseRowsNext(was: Tree, now: Tree, fold: string -> string, sources: seq<string>, i: nat, targets: seq<string>)
    requires i < |sources|
    ensures CaseRows(was, now, fold, sources[..i + 1], targets)
      == CaseRows(was, now, fold, sources[..i], targets) + CaseRowsFor(was, now, fold, sources[i], targets)
  {
    assert sources[..i + 1][..i] == sources[..i];
  }

  lemma CaseRowsForNext(was: Tree, now: Tree, fold: string -> string, first: string, targets: seq<string>, j: nat)
    requires j < |targets|
    ensures CaseRowsFor(was, now, fold, first, targets[..j + 1]) == CaseRowsFor(was, now, fold, first, targets[..j])
      + (if IsCaseRename(was, now, fold, first, targets[j]) then [CaseOnlyRename(targets[j], first)] else [])
  {
    assert targets[..j + 1][..j] == targets[..j];
  }

  method ComputeChanges(before: seq<Entry>, after: seq<Entry>, fold: string -> string) returns (rows: seq<Row>)
    ensures rows == Changes(before, after, fold)
  {
    var was, now := EntryTable(before), EntryTable(after);
    var wasOrder, nowOrder := EntryOrder(before), EntryOrder(after);
    var renamed := MatchRenames(OnlyIn(wasOrder, was, now), OnlyIn(nowOrder, now, was), was, now);
    RenameTableTyped(before, after);
    rows := ListDiffRows(was, now, renamed, SortDistinct(ListingOrder(fold), wasOrder + nowOrder));
    var caseRows := ListCaseRows(was, now, fold, wasOrder, nowOrder);
    rows := rows + caseRows;
  }

  // ----- Exactness -----

  // The row tells the truth about the two trees.
  ghost predicate Truthful(was: Tree, now: Tree, row: Row) {
    match row
    case Created(p, kind, sha, binary) =>
      p !in was && p in now && now[p].kind == kind && now[p].sha256 == sha && now[p].binary == binary
    case Deleted(p, kind, sha) =>
      p in was && p !in now && was[p].kind == kind && was[p].sha256 == sha
    case Renamed(p, q, sha, modeChanged) =>
      && q in was && q !in now && p in now && p !in was
      && was[q].kind == now[p].kind == File && was[q].sha256 == now[p].sha256 == sha
      && (modeChanged <==> was[q].mode != now[p].mode)
    case Modified(p, b, a, binary) =>
      && Lookup(was, p) == Some(b) && Lookup(now, p) == Some(a) && a != b
      && a.mode == b.mode && a.kind != Symlink && b.kind != Symlink && (binary <==> a.binary || b.binary)
    case SymlinkChanged(p, b, a, binary) =>
      && Lookup(was, p) == Some(b) && Lookup(now, p) == Some(a) && a != b && (a.kind == Symlink || b.kind == Symlink)
      && (binary <==> a.binary || b.binary)
    case ModeChanged(p, b, a, binary) =>
      && Lookup(was, p) == Some(b) && Lookup(now, p) == Some(a) && a.mode != b.mode
      && a.kind != Symlink && b.kind != Symlink && (binary <==> a.binary || b.binary)
    case CaseOnlyRename(p, q) => p in now && q in was && p !in was && q !in now
  }

  ghost predicate CoveredOnce(rows: seq<Row>, p: string) {
    exists i :: 0 <= i < |rows| && p in rows[i].Paths()
      && forall j :: 0 <= j < |rows| && p in rows[j].Paths() ==> j == i
  }

  ghost predicate Uncovered(rows: seq<Row>, p: string) {
    forall i :: 0 <= i < |rows| ==> p !in rows[i].Paths()
  }

  // Covered by exactly one row when the entry differs, by none otherwise.
  ghost predicate ExactAt(was: Tree, now: Tree, rows: seq<Row>, p: string) {
    if Differs(was, now, p) then CoveredOnce(rows, p) else Uncovered(rows, p)
  }

  ghost predicate InListingOrder(fold: string -> string, rows: seq<Row>) {
    forall i, j :: 0 <= i < j < |rows| ==> Before(fold, rows[i].SortKey(), rows[j].SortKey())
  }

  ghost predicate TypedRenames(was: Tree, now: Tree, renames: map<string, string>) {
    && (forall s :: s in renames ==>
          && s in was && s !in now && renames[s] in now && renames[s] !in was
          && was[s].kind == now[renames[s]].kind == File && was[s].sha256 == now[renames[s]].sha256)
    && Injective(renames)
  }

  ghost predicate ComesFrom(was: Tree, now: Tree, renames: map<string, string>, paths: seq<string>, row: Row)
    requires TypedRenames(was, now, renames)
  {
    row.SortKey() in paths && RowOf(was, now, renames, row.SortKey()) == Some(row)
  }

  // Every row comes from a listed path, no two from the same one, and every
  // listed path that has a row gets it.
  ghost predicate RowPerPath(was: Tree, now: Tree, renames: map<string, string>, paths: seq<string>, rows: seq<Row>)
    requires TypedRenames(was, now, renames)
  {
    && (forall i :: 0 <= i < |rows| ==> ComesFrom(was, now, renames, paths, rows[i]))
    && (forall i, j :: 0 <= i < j < |rows| ==> rows[i].SortKey() != rows[j].SortKey())
    && (forall p :: p in paths && RowOf(was, now, renames, p).Some? ==> RowOf(was, now, renames, p).value in rows)
  }

  lemma {:induction false} RowOrigin(was: Tree, now: Tree, renames: map<string, string>, paths: seq<string>)
    requires TypedRenames(was, now, renames) && Distinct(paths)
    ensures RowPerPath(was, now, renames, paths, DiffRows(was, now, renames, paths))
  {
    if paths != [] {
      var n := |paths| - 1;
      assert paths == paths[..n] + [paths[n]];
      RowOrigin(was, now, renames, paths[..n]);
      RowCoverage(was, now, renames, paths[n]);
      assert paths[n] !in paths[..n];
      var rows, earlier := DiffRows(was, now, renames, paths), DiffRows(was, now, renames, paths[..n]);
      forall i | 0 <= i < |earlier| ensures ComesFrom(was, now, renames, paths, rows[i]) && rows[i].SortKey() != paths[n] {
        assert ComesFrom(was, now, renames, paths[..n], earlier[i]);
      }
    }
  }

  // A row of a listed path covers exactly its own path and, for a rename, the
  // path the file moved to.
  lemma RowCoverage(was: Tree, now: Tree, renames: map<string, string>, p: string)
    requires TypedRenames(was, now, renames)
    ensures var row := RowOf(was, now, renames, p);
      && (row.Some? ==>
            && Truthful(was, now, row.value) && !row.value.CaseOnlyRename?
            && row.value.SortKey() == p
            && Differs(was, now, p)
            && (forall q :: q in row.value.Paths() <==> q == p || (p in renames && q == renames[p])))
      && (row.None? ==> !Differs(was, now, p) || p in renames.Values)
  {
  }

  // The listed path whose row covers p: the source of the rename that
  // created p, or p itself.
  ghost function Origin(renames: map<string, string>, p: string): string {
    if p in renames.Values then (var s :| s in renames && renames[s] == p; s) else p
  }

  lemma CoveredByOrigin(was: Tree, now: Tree, renames: map<string, string>, paths: seq<string>, row: Row, p: string)
    requires TypedRenames(was, now, renames) && ComesFrom(was, now, renames, paths, row)
    ensures p in row.Paths() ==> row.SortKey() == Origin(renames, p) && Differs(was, now, p)
  {
    RowCoverage(was, now, renames, row.SortKey());
    RowCoverage(was, now, renames, p);
  }

  lemma OriginCovers(was: Tree, now: Tree, renames: map<string, string>, paths: seq<string>, rows: seq<Row>, p: string)
    requires TypedRenames(was, now, renames) && RowPerPath(was, now, renames, paths, rows)
    requires forall q :: q in was || q in now ==> q in paths
    requires Differs(was, now, p)
    ensures exists i :: 0 <= i < |rows| && p in rows[i].Paths()
  {
    var origin := Origin(renames, p);
    RowCoverage(was, now, renames, origin);
    var row := RowOf(was, now, renames, origin).value;
    assert origin in paths;
    assert row in rows && p in row.Paths();
  }

  lemma DiffRowsCover(was: Tree, now: Tree, renames: map<string, string>, paths: seq<string>, p: string)
    requires TypedRenames(was, now, renames) && Distinct(paths)
    requires forall q :: q in was || q in now ==> q in paths
    ensures ExactAt(was, now, DiffRows(was, now, renames, paths), p)
  {
    var rows := DiffRows(was, now, renames, paths);
    RowOrigin(was, now, renames, paths);
    forall i | 0 <= i < |rows|
      ensures p in rows[i].Paths() ==> rows[i].SortKey() == Origin(renames, p) && Differs(was, now, p)
    {
      CoveredByOrigin(was, now, renames, paths, rows[i], p);
    }
    if Differs(was, now, p) {
      OriginCovers(was, now, renames, paths, rows, p);
      UniqueCover(rows, p, Origin(renames, p));
    } else {
      assert Uncovered(rows, p);
    }
  }

  lemma UniqueCover(rows: seq<Row>, p: string, origin: string)
    requires exists i :: 0 <= i < |rows| && p in rows[i].Paths()
    requires forall i :: 0 <= i < |rows| && p in rows[i].Paths() ==> rows[i].SortKey() == origin
    requires forall i, j :: 0 <= i < j < |rows| ==> rows[i].SortKey() != rows[j].SortKey()
    ensures CoveredOnce(rows, p)
  {
    var i :| 0 <= i < |rows| && p in rows[i].Paths();
    forall j | 0 <= j < |rows| && p in rows[j].Paths() ensures j == i {
      assert rows[j].SortKey() == rows[i].SortKey();
    }
  }

  lemma ListingOrderIsTotal(fold: string -> string)
    ensures StrictTotalOrder(ListingOrder(fold))
  {
    StringLessIsStrictTotalOrder();
    var lt := ListingOrder(fold);
    forall a, b, c | lt(a, b) && lt(b, c) ensures lt(a, c) {
      assert StringLess(fold(a), fold(b)) || fold(a) == fold(b);
      assert StringLess(fold(b), fold(c)) || fold(b) == fold(c);
    }
  }

  lemma AllPathsListed(before: seq<Entry>, after: seq<Entry>, fold: string -> string)
    ensures Distinct(AllPaths(before, after, fold))
    ensures Increasing(ListingOrder(fold), AllPaths(before, after, fold))
    ensures forall p :: p in AllPaths(before, after, fold) <==> p in EntryTable(before) || p in EntryTable(after)
  {
    ListingOrderIsTotal(fold);
    SortDistinctIncreasing(ListingOrder(fold), EntryOrder(before) + EntryOrder(after));
  }

  // The row of an earlier path sorts before a later path.
  lemma EarlierRow(was: Tree, now: Tree, renames: map<string, string>, fold: string -> string, paths: seq<string>, row: Row)
    requires TypedRenames(was, now, renames) && paths != [] && Increasing(ListingOrder(fold), paths)
    requires ComesFrom(was, now, renames, paths[..|paths| - 1], row)
    ensures Before(fold, row.SortKey(), paths[|paths| - 1])
  {
    var n := |paths| - 1;
    var k :| 0 <= k < n && paths[..n][k] == row.SortKey();
    assert ListingOrder(fold)(paths[k], paths[n]);
  }

  lemma {:induction false} RowsInListingOrder(was: Tree, now: Tree, renames: map<string, string>, fold: string -> string, paths: seq<string>)
    requires TypedRenames(was, now, renames) && Distinct(paths)
    requires Increasing(ListingOrder(fold), paths)
    ensures InListingOrder(fold, DiffRows(was, now, renames, paths))
  {
    if paths != [] {
      var n := |paths| - 1;
      RowsInListingOrder(was, now, renames, fold, paths[..n]);
      RowOrigin(was, now, renames, paths[..n]);
      RowCoverage(was, now, renames, paths[n]);
      var earlier := DiffRows(was, now, renames, paths[..n]);
      forall i | 0 <= i < |earlier| ensures Before(fold, earlier[i].SortKey(), paths[n]) {
        EarlierRow(was, now, renames, fold, paths, earlier[i]);
      }
    }
  }

  // The change list is exact: a path is covered by exactly one row before the
  // case-only ones when its entry differs and by none otherwise, and those
  // rows are truthful and follow the listing order.
  lemma ChangesExact(before: seq<Entry>, after: seq<Entry>, fold: string -> string)
    ensures forall p :: ExactAt(EntryTable(before), EntryTable(after), PathRows(before, after, fold), p)
    ensures forall i :: 0 <= i < |PathRows(before, after, fold)| ==>
      Truthful(EntryTable(before), EntryTable(after), PathRows(before, after, fold)[i])
      && !PathRows(before, after, fold)[i].CaseOnlyRename?
    ensures InListingOrder(fold, PathRows(before, after, fold))
  {
    var was, now, r := EntryTable(before), EntryTable(after), RenameTable(before, after);
    var paths, rows := AllPaths(before, after, fold), PathRows(before, after, fold);
    RenameTableTyped(before, after);
    AllPathsListed(before, after, fold);
    RowsInListingOrder(was, now, r, fold, paths);
    forall p ensures ExactAt(was, now, rows, p) {
      DiffRowsCover(was, now, r, paths, p);
    }
    RowOrigin(was, now, r, paths);
    forall i | 0 <= i < |rows| ensures Truthful(was, now, rows[i]) && !rows[i].CaseOnlyRename? {
      assert ComesFrom(was, now, r, paths, rows[i]);
      RowCoverage(was, now, r, rows[i].SortKey());
    }
  }

  // After those come only case-only renames, each naming a path that
  // disappeared and one that appeared whose case-folded forms agree.
  lemma CaseRowsExact(before: seq<Entry>, after: seq<Entry>, fold: string -> string, row: Row)
    ensures PathRows(before, after, fold) <= Changes(before, after, fold)
    ensures row in Changes(before, after, fold)[|PathRows(before, after, fold)|..] <==>
      row.CaseOnlyRename?
      && row.fromPath in EntryTable(before) && row.fromPath !in EntryTable(after)
      && row.path in EntryTable(after) && row.path !in EntryTable(before)
      && fold(row.fromPath) == fold(row.path)
  {
    var tail := CaseRows(EntryTable(before), EntryTable(after), fold, EntryOrder(before), EntryOrder(after));
    assert Changes(before, after, fold)[|PathRows(before, after, fold)|..] == tail;
  }

  // No rename opportunity is missed: a removed and a created file that are
  // both reported as such have different hashes.
  lemma NoMissedRename(before: seq<Entry>, after: seq<Entry>, s: string, t: string)
    requires var was, now, r := EntryTable(before), EntryTable(after), RenameTable(before, after);
      && s in was && s !in now && was[s].kind == File && s !in r
      && t in now && t !in was && now[t].kind == File && t !in r.Values
      && "" !in now
    ensures EntryTable(before)[s].sha256 != EntryTable(after)[t].sha256
  {
    var was, now := EntryTable(before), EntryTable(after);
    RenamesMatch(OnlyIn(EntryOrder(before), was, now), OnlyIn(EntryOrder(after), now, was), was, now);
  }

  // ----- Authority -----

  datatype PlanAction = PlanAction(targetPaths: seq<string>, mutations: set<string>)

  datatype Authority = Authority(allowed: seq<string>, prohibited: seq<string>, actions: seq<PlanAction>)

  predicate UnderAny(path: string, roots: seq<string>) {
    exists i :: 0 <= i < |roots| && Inside(path, roots[i])
  }

  predicate Matches(action: PlanAction, path: string) {
    UnderAny(path, action.targetPaths)
  }

  // Some action that covers the path permits the mutation.
  predicate PermittedBy(actions: seq<PlanAction>, path: string, mutation: string) {
    exists i :: 0 <= i < |actions| && Matches(actions[i], path) && mutation in actions[i].mutations
  }

  // The contract permits this mutation at this path.
  predicate Permitted(path: string, mutation: string, authority: Authority) {
    && UnderAny(path, authority.allowed)
    && !UnderAny(path, authority.prohibited)
    && PermittedBy(authority.actions, path, mutation)
  }

  lemma PermittedNext(actions: seq<PlanAction>, path: string, k: nat)
    requires k < |actions|
    ensures forall m :: PermittedBy(actions[..k + 1], path, m) <==>
      PermittedBy(actions[..k], path, m) || (Matches(actions[k], path) && m in actions[k].mutations)
  {
    forall m ensures PermittedBy(actions[..k + 1], path, m) <==>
      PermittedBy(actions[..k], path, m) || (Matches(actions[k], path) && m in actions[k].mutations)
    {
      if i :| 0 <= i < k && Matches(actions[..k][i], path) && m in actions[..k][i].mutations {
        assert actions[..k + 1][i] == actions[..k][i];
      }
      assert actions[..k + 1][k] == actions[k];
    }
  }

  method PathViolates(path: string, mutation: string, authority: Authority) returns (violates: bool)
    ensures violates <==> !Permitted(path, mutation, authority)
  {
    if !UnderAny(path, authority.allowed) || UnderAny(path, authority.prohibited) {
      return true;
    }
    var permitted: set<string> := {};
    var matching := false;
    for k := 0 to |authority.actions|
      invariant permitted != {} ==> matching
      invariant forall m :: m in permitted <==> PermittedBy(authority.actions[..k], path, m)
    {
      PermittedNext(authority.actions, path, k);
      if Matches(authority.actions[k], path) {
        matching := true;
        permitted := permitted + authority.actions[k].mutations;
      }
    }
    assert authority.actions[..|authority.actions|] == authority.actions;
    assert mutation in permitted <==> PermittedBy(authority.actions, path, mutation);
    violates := !matching || mutation !in permitted;
  }

  ghost predicate Offends(row: Row, path: string, authority: Authority) {
    path in row.Paths() && !Permitted(path, row.Mutation(), authority)
  }

  method CheckAuthority(changes: seq<Row>, authority: Authority) returns (violations: seq<string>)
    ensures Increasing(StringLess, violations)
    ensures forall p :: p in violations <==> exists i :: 0 <= i < |changes| && Offends(changes[i], p, authority)
  {
    var found: seq<string> := [];
    for i := 0 to |changes|
      invariant forall p :: p in found <==> exists k :: 0 <= k < i && Offends(changes[k], p, authority)
    {
      ghost var earlier := found;
      var paths := changes[i].Paths();
      for j := 0 to |paths|
        invariant forall p :: p in found <==>
          p in earlier || (p in paths[..j] && !Permitted(p, changes[i].Mutation(), authority))
      {
        assert paths[..j + 1] == paths[..j] + [paths[j]];
        var violates := PathViolates(paths[j], changes[i].Mutation(), authority);
        if violates {
          found := found + [paths[j]];
        }
      }
      assert paths[..|paths|] == paths;
    }
    StringLessIsStrictTotalOrder();
    SortDistinctIncreasing(StringLess, found);
    violations := SortDistinct(StringLess, found);
  }

  ghost predicate Clean(changes: seq<Row>, authority: Authority) {
    forall i, p :: 0 <= i < |changes| ==> !Offends(changes[i], p, authority)
  }

  // ----- What is a violation -----

  // The contract lets this kind of change happen at this path: the path lies in
  // an allowed root, in no prohibited one, and some action that covers it names
  // the kind.
  ghost predicate Authorizes(authority: Authority, p: string, kind: string) {
    && (exists root :: root in authority.allowed && Contains(ParsePath(root), ParsePath(p)))
    && (forall root :: root in authority.prohibited ==> !Contains(ParsePath(root), ParsePath(p)))
    && (exists a, target :: a in authority.actions && target in a.targetPaths
          && Contains(ParsePath(target), ParsePath(p)) && kind in a.mutations)
  }

  // The kind of change a path went through.
  ghost function KindOfChange(was: Tree, now: Tree, renames: map<string, string>, p: string): string
    requires Differs(was, now, p)
  {
    if p in renames || p in renames.Values then "renamed"
    else if p !in was then "created"
    else if p !in now then "deleted"
    else if was[p].kind == Symlink || now[p].kind == Symlink then "symlink"
    else if was[p].mode != now[p].mode then "mode"
    else "modified"
  }

  // One end of a pair of paths of which one disappeared and the other appeared
  // and which differ in case only.
  ghost predicate CaseEnd(was: Tree, now: Tree, fold: string -> string, p: string) {
    || (p in was && p !in now && exists q :: q in now && q !in was && fold(q) == fold(p))
    || (p in now && p !in was && exists q :: q in was && q !in now && fold(q) == fold(p))
  }

  // A path violates the contract if what happened to it is not authorized, or
  // if it was renamed in case only and renaming is not.
  ghost predicate Violates(before: seq<Entry>, after: seq<Entry>, fold: string -> string, authority: Authority, p: string) {
    var was, now, renames := EntryTable(before), EntryTable(after), RenameTable(before, after);
    || (Differs(was, now, p) && !Authorizes(authority, p, KindOfChange(was, now, renames, p)))
    || (CaseEnd(was, now, fold, p) && !Authorizes(authority, p, "rename"))
  }

  lemma UnderAnyExactly(path: string, roots: seq<string>)
    ensures UnderAny(path, roots) <==> exists root :: root in roots && Contains(ParsePath(root), ParsePath(path))
  {
    forall root ensures Inside(path, root) <==> Contains(ParsePath(root), ParsePath(path)) {
      InsideIsContainment(path, root);
    }
    if root :| root in roots && Contains(ParsePath(root), ParsePath(path)) {
      var i :| 0 <= i < |roots| && roots[i] == root;
      assert Inside(path, roots[i]);
    }
  }

  lemma PermittedByExactly(actions: seq<PlanAction>, path: string, mutation: string)
    ensures PermittedBy(actions, path, mutation) <==> exists a, target ::
      a in actions && target in a.targetPaths && Contains(ParsePath(target), ParsePath(path)) && mutation in a.mutations
  {
    forall a: PlanAction ensures UnderAny(path, a.targetPaths) <==>
      exists target :: target in a.targetPaths && Contains(ParsePath(target), ParsePath(path))
    {
      UnderAnyExactly(path, a.targetPaths);
    }
    if a, target :| a in actions && target in a.targetPaths && Contains(ParsePath(target), ParsePath(path)) && mutation in a.mutations {
      var i :| 0 <= i < |actions| && actions[i] == a;
      assert Matches(actions[i], path);
    }
  }

  lemma PermittedExactly(path: string, mutation: string, authority: Authority)
    ensures Permitted(path, mutation, authority) <==> Authorizes(authority, path, mutation)
  {
    UnderAnyExactly(path, authority.allowed);
    UnderAnyExactly(path, authority.prohibited);
    PermittedByExactly(authority.actions, path, mutation);
  }

  // The row that covers a path is looked up under the kind of its change.
  lemma RowNamed(was: Tree, now: Tree, renames: map<string, string>, paths: seq<string>, row: Row, p: string)
    requires TypedRenames(was, now, renames) && ComesFrom(was, now, renames, paths, row) && p in row.Paths()
    ensures Differs(was, now, p) && row.Mutation() == KindOfChange(was, now, renames, p)
  {
    RowCoverage(was, now, renames, row.SortKey());
    CoveredByOrigin(was, now, renames, paths, row, p);
  }

  // Some row concerns the path and is looked up under this name.
  ghost predicate Listed(rows: seq<Row>, p: string, name: string) {
    exists i :: 0 <= i < |rows| && p in rows[i].Paths() && rows[i].Mutation() == name
  }

  lemma PathListed(before: seq<Entry>, after: seq<Entry>, fold: string -> string, p: string, name: string)
    ensures var was, now, renames := EntryTable(before), EntryTable(after), RenameTable(before, after);
      Listed(PathRows(before, after, fold), p, name) <==>
        Differs(was, now, p) && name == KindOfChange(was, now, renames, p)
  {
    var was, now, renames := EntryTable(before), EntryTable(after), RenameTable(before, after);
    var rows, paths := PathRows(before, after, fold), AllPaths(before, after, fold);
    RenameTableTyped(before, after);
    AllPathsListed(before, after, fold);
    RowOrigin(was, now, renames, paths);
    forall i | 0 <= i < |rows| && p in rows[i].Paths()
      ensures Differs(was, now, p) && rows[i].Mutation() == KindOfChange(was, now, renames, p)
    {
      assert ComesFrom(was, now, renames, paths, rows[i]);
      RowNamed(was, now, renames, paths, rows[i], p);
    }
    if Differs(was, now, p) {
      OriginCovers(was, now, renames, paths, rows, p);
    }
  }

  // The rows of every pair of paths of which the first disappeared, the second
  // appeared, and which differ in case only.
  ghost predicate ArePairs(rows: seq<Row>, was: Tree, now: Tree, fold: string -> string) {
    forall row :: row in rows <==>
      && row.CaseOnlyRename? && row.fromPath in was && row.fromPath !in now && row.path in now && row.path !in was
      && fold(row.fromPath) == fold(row.path)
  }

  lemma PairListed(rows: seq<Row>, was: Tree, now: Tree, fold: string -> string, p: string, name: string)
    requires ArePairs(rows, was, now, fold) && Listed(rows, p, name)
    ensures CaseEnd(was, now, fold, p) && name == "rename"
  {
    var i :| 0 <= i < |rows| && p in rows[i].Paths() && rows[i].Mutation() == name;
    assert rows[i] in rows && (p == rows[i].path || p == rows[i].fromPath);
  }

  lemma EndListed(rows: seq<Row>, was: Tree, now: Tree, fold: string -> string, p: string)
    requires ArePairs(rows, was, now, fold) && CaseEnd(was, now, fold, p)
    ensures Listed(rows, p, "rename")
  {
    var row: Row;
    if p in was {
      var q :| q in now && q !in was && fold(q) == fold(p);
      row := CaseOnlyRename(q, p);
    } else {
      var q :| q in was && q !in now && fold(q) == fold(p);
      row := CaseOnlyRename(p, q);
    }
    var i :| 0 <= i < |rows| && rows[i] == row;
  }

  lemma CaseRowsPair(was: Tree, now: Tree, fold: string -> string, sources: seq<string>, targets: seq<string>)
    requires forall q :: q in sources <==> q in was
    requires forall q :: q in targets <==> q in now
    ensures ArePairs(CaseRows(was, now, fold, sources, targets), was, now, fold)
  {
  }

  lemma CaseListed(was: Tree, now: Tree, fold: string -> string, sources: seq<string>, targets: seq<string>, p: string,
                   name: string)
    requires forall q :: q in sources <==> q in was
    requires forall q :: q in targets <==> q in now
    ensures Listed(CaseRows(was, now, fold, sources, targets), p, name) <==> CaseEnd(was, now, fold, p) && name == "rename"
  {
    CaseRowsPair(was, now, fold, sources, targets);
    var rows := CaseRows(was, now, fold, sources, targets);
    if Listed(rows, p, name) {
      PairListed(rows, was, now, fold, p, name);
    } else if CaseEnd(was, now, fold, p) {
      EndListed(rows, was, now, fold, p);
    }
  }

  lemma ListedAppend(head: seq<Row>, tail: seq<Row>, p: string, name: string)
    ensures Listed(head + tail, p, name) <==> Listed(head, p, name) || Listed(tail, p, name)
  {
    var all := head + tail;
    if i :| 0 <= i < |head| && p in head[i].Paths() && head[i].Mutation() == name {
      assert all[i] == head[i];
    }
    if i :| 0 <= i < |tail| && p in tail[i].Paths() && tail[i].Mutation() == name {
      assert all[|head| + i] == tail[i];
    }
  }

  lemma ChangesListed(before: seq<Entry>, after: seq<Entry>, fold: string -> string, p: string, name: string)
    ensures var was, now, renames := EntryTable(before), EntryTable(after), RenameTable(before, after);
      Listed(Changes(before, after, fold), p, name) <==>
        || (Differs(was, now, p) && name == KindOfChange(was, now, renames, p))
        || (CaseEnd(was, now, fold, p) && name == "rename")
  {
    var was, now := EntryTable(before), EntryTable(after);
    PathListed(before, after, fold, p, name);
    CaseListed(was, now, fold, EntryOrder(before), EntryOrder(after), p, name);
    ListedAppend(PathRows(before, after, fold), CaseRows(was, now, fold, EntryOrder(before), EntryOrder(after)), p, name);
  }

  lemma OffendsExactly(rows: seq<Row>, p: string, authority: Authority)
    ensures (exists i :: 0 <= i < |rows| && Offends(rows[i], p, authority)) <==>
      exists name :: Listed(rows, p, name) && !Authorizes(authority, p, name)
  {
    forall name ensures Permitted(p, name, authority) <==> Authorizes(authority, p, name) {
      PermittedExactly(p, name, authority);
    }
    if i :| 0 <= i < |rows| && Offends(rows[i], p, authority) {
      assert Listed(rows, p, rows[i].Mutation());
    }
  }

  lemma OffendsByNames(rows: seq<Row>, p: string, authority: Authority, differs: bool, kind: string, caseEnd: bool)
    requires forall name :: Listed(rows, p, name) <==> (differs && name == kind) || (caseEnd && name == "rename")
    ensures (exists i :: 0 <= i < |rows| && Offends(rows[i], p, authority)) <==>
      (differs && !Authorizes(authority, p, kind)) || (caseEnd && !Authorizes(authority, p, "rename"))
  {
    OffendsExactly(rows, p, authority);
    NamesOffend(rows, p, authority, differs, kind, caseEnd, "rename");
  }

  lemma NamesOffend(rows: seq<Row>, p: string, authority: Authority, differs: bool, kind: string, other: bool, otherKind: string)
    requires forall name :: Listed(rows, p, name) <==> (differs && name == kind) || (other && name == otherKind)
    ensures (exists name :: Listed(rows, p, name) && !Authorizes(authority, p, name)) <==>
      (differs && !Authorizes(authority, p, kind)) || (other && !Authorizes(authority, p, otherKind))
  {
    assert differs ==> Listed(rows, p, kind);
    assert other ==> Listed(rows, p, otherKind);
  }

  // Exactly the paths that violate the contract offend in some row.
  lemma ViolatesExactly(before: seq<Entry>, after: seq<Entry>, fold: string -> string, authority: Authority, p: string)
    ensures (exists i :: 0 <= i < |Changes(before, after, fold)| && Offends(Changes(before, after, fold)[i], p, authority))
      <==> Violates(before, after, fold, authority, p)
  {
    var was, now, renames := EntryTable(before), EntryTable(after), RenameTable(before, after);
    var differs := Differs(was, now, p);
    forall name { ChangesListed(before, after, fold, p, name); }
    OffendsByNames(Changes(before, after, fold), p, authority, differs, if differs then KindOfChange(was, now, renames, p) else "",
                   CaseEnd(was, now, fold, p));
  }

  // The frame theorem: if no violation is reported, every path that changed
  // lies in an allowed root and in no prohibited one, under an action that
  // names the very kind of change it went through.
  lemma FrameTheorem(before: seq<Entry>, after: seq<Entry>, fold: string -> string, authority: Authority, p: string)
    requires Clean(Changes(before, after, fold), authority)
    ensures !Violates(before, after, fold, authority, p)
    ensures var (was, now, renames) := (EntryTable(before), EntryTable(after), RenameTable(before, after));
      Differs(was, now, p) ==> Authorizes(authority, p, KindOfChange(was, now, renames, p))
  {
    ViolatesExactly(before, after, fold, authority, p);
  }

  // The launcher's two steps together: an empty violation list means the
  // worker changed nothing it was not permitted to change.
  method Launch(before: seq<Entry>, after: seq<Entry>, fold: string -> string, authority: Authority)
    returns (changes: seq<Row>, violations: seq<string>)
    ensures changes == Changes(before, after, fold)
    ensures violations == [] <==> Clean(changes, authority)
    ensures violations == [] ==> forall p :: Differs(EntryTable(before), EntryTable(after), p) ==>
      UnderAny(p, authority.allowed) && !UnderAny(p, authority.prohibited)
    ensures forall p :: p in violations <==> Violates(before, after, fold, authority, p)
  {
    changes := ComputeChanges(before, after, fold);
    violations := CheckAuthority(changes, authority);
    forall p ensures p in violations <==> Violates(before, after, fold, authority, p) {
      ViolatesExactly(before, after, fold, authority, p);
    }
    if violations != [] {
      assert violations[0] in violations;
    } else {
      forall i, p | 0 <= i < |changes| ensures !Offends(changes[i], p, authority) {
        assert p !in violations;
      }
      forall p | Differs(EntryTable(before), EntryTable(after), p)
        ensures UnderAny(p, authority.allowed) && !UnderAny(p, authority.prohibited)
      {
        FrameTheorem(before, after, fold, authority, p);
        UnderAnyExactly(p, authority.allowed);
        UnderAnyExactly(p, authority.prohibited);
      }
    }
  }
}
