/**
  The dependency checker of A-Flow plan analysis: findings for unknown
  dependencies, for dependency cycles (a depth-first search) and for
  dependencies that are still unresolved.
*/
module DependencyChecks {
  import opened Ordering

  datatype Action = Action(actionId: string, dependsOn: seq<string>)

  datatype Dependency = Dependency(dependencyId: string, unresolved: bool)

  datatype Finding =
    | MissingDependency(actionIndex: nat, position: nat)
    | DependencyCycle(number: nat, reported: seq<string>)
    | UnresolvedDependency(dependencyIndex: nat)

  // ----- The dependency graph -----

  // The table keyed by action id. As in a dictionary comprehension, the last
  // action with a given id is the one that counts.
  function Table(actions: seq<Action>): (table: map<string, seq<string>>)
    ensures forall id :: id in table <==> exists i :: 0 <= i < |actions| && actions[i].actionId == id
  {
    if actions == [] then map[]
    else
      var last := actions[|actions| - 1];
      assert actions == actions[..|actions| - 1] + [last];
      Table(actions[..|actions| - 1])[last.actionId := last.dependsOn]
  }

  // The order in which a dictionary yields its keys: first insertion.
  function Keys(actions: seq<Action>): (keys: seq<string>)
    ensures forall id :: id in keys <==> id in Table(actions)
  {
    if actions == [] then []
    else
      var earlier := Keys(actions[..|actions| - 1]);
      var id := actions[|actions| - 1].actionId;
      if id in earlier then earlier else earlier + [id]
  }

  // An edge runs from a known action to a known action it depends on.
  ghost predicate Edge(table: map<string, seq<string>>, a: string, b: string) {
    a in table && b in table && b in table[a]
  }

  ghost predicate IsWalk(table: map<string, seq<string>>, walk: seq<string>) {
    forall i :: 0 <= i < |walk| - 1 ==> Edge(table, walk[i], walk[i + 1])
  }

  // A walk of at least one edge that ends where it starts.
  ghost predicate IsClosedWalk(table: map<string, seq<string>>, walk: seq<string>) {
    |walk| >= 2 && walk[0] == walk[|walk| - 1] && IsWalk(table, walk)
  }

  ghost predicate HasCycle(table: map<string, seq<string>>) {
    exists walk :: IsClosedWalk(table, walk)
  }

  // What a cycle finding prints: a closed walk with its closing action once
  // more at the end.
  ghost predicate IsReportedCycle(table: map<string, seq<string>>, reported: seq<string>) {
    && |reported| >= 3
    && reported[|reported| - 1] == reported[|reported| - 2]
    && IsClosedWalk(table, reported[..|reported| - 1])
  }

  // Every known dependency of a listed action is listed before it.
  ghost predicate Topological(table: map<string, seq<string>>, order: seq<string>) {
    forall k, d :: 0 <= k < |order| && Edge(table, order[k], d) ==> d in order[..k]
  }

  // A topological order of all the actions rules out every closed walk.
  lemma TopologicalOrderMeansAcyclic(table: map<string, seq<string>>, order: seq<string>)
    requires Topological(table, order) && Distinct(order)
    requires forall id :: id in table ==> id in order
    ensures !HasCycle(table)
  {
    if HasCycle(table) {
      var walk :| IsClosedWalk(table, walk);
      assert Edge(table, walk[0], walk[1]);
      var k :| 0 <= k < |order| && order[k] == walk[0];
      WalkDescends(table, order, walk, k);
    }
  }

  lemma {:induction false} WalkDescends(table: map<string, seq<string>>, order: seq<string>, walk: seq<string>, k: nat)
    requires Topological(table, order) && Distinct(order)
    requires |walk| >= 2 && IsWalk(table, walk)
    requires k < |order| && order[k] == walk[0]
    ensures walk[|walk| - 1] in order[..k]
    ensures walk[|walk| - 1] != walk[0]
    decreases |walk|
  {
    assert Edge(table, walk[0], walk[1]);
    assert walk[1] in order[..k];
    if |walk| > 2 {
      var j :| 0 <= j < k && order[j] == walk[1];
      var rest := walk[1..];
      forall i | 0 <= i < |rest| - 1 ensures Edge(table, rest[i], rest[i + 1]) {
        assert Edge(table, walk[i + 1], walk[i + 1 + 1]);
      }
      WalkDescends(table, order, rest, j);
      assert order[..j] <= order[..k];
    }
  }

  // ----- The depth-first search -----

  // What every finding past position `from` says is true of the graph, and
  // its number is its one-based position in the whole list.
  ghost predicate SoundCycles(table: map<string, seq<string>>, findings: seq<Finding>, from: nat) {
    forall i :: from <= i < |findings| ==>
      findings[i].DependencyCycle?
      && findings[i].number == i + 1
      && IsReportedCycle(table, findings[i].reported)
  }

  function IndexOf(s: seq<string>, x: string): (i: nat)
    requires x in s
    ensures i < |s| && s[i] == x && x !in s[..i]
  {
    if s[0] == x then 0 else 1 + IndexOf(s[1..], x)
  }

  class CycleSearch {
    const table: map<string, seq<string>>
    var visiting: set<string>
    var visited: seq<string>
    var findings: seq<Finding>

    constructor (table: map<string, seq<string>>, findings: seq<Finding>)
      ensures this.table == table && visiting == {} && visited == [] && this.findings == findings
    {
      this.table := table;
      visiting, visited := {}, [];
      this.findings := findings;
    }

    // Completed actions are listed once, are known, and are not being visited;
    // as long as no cycle has been reported they are in topological order.
    ghost predicate Valid(from: nat)
      reads this
    {
      && from <= |findings|
      && Distinct(visited)
      && (forall a :: a in visited ==> a in table && a !in visiting)
      && visiting <= table.Keys
      && SoundCycles(table, findings, from)
      && (|findings| == from ==> Topological(table, visited))
    }

    // `chain` is the walk from the root of the search to `id`; the actions
    // being visited are exactly those on the chain before `id`.
    ghost predicate OnChain(id: string, chain: seq<string>)
      reads this
    {
      && |chain| > 0 && chain[|chain| - 1] == id
      && (id in table ==> IsWalk(table, chain))
      && (forall a :: a in visiting <==> a in chain[..|chain| - 1])
    }

    method Visit(id: string, chain: seq<string>, ghost from: nat)
      requires Valid(from) && OnChain(id, chain)
      modifies this`visiting, this`visited, this`findings
      ensures Valid(from)
      ensures visiting == old(visiting)
      ensures old(visited) <= visited && old(findings) <= findings
      ensures old(id in visiting) ==> |findings| == |old(findings)| + 1
      ensures |findings| == from && id in table ==> id in visited
      ensures id in visited || id in visiting || id !in table
      decreases table.Keys - visiting
    {
      if id in visiting {
        var start := IndexOf(chain, id);
        SuffixIsClosedWalk(id, chain, start);
        findings := findings + [DependencyCycle(|findings| + 1, chain[start..] + [id])];
        return;
      }
      if id in visited || id !in table {
        return;
      }
      visiting := visiting + {id};
      var dependencies := table[id];
      label entered:
      ghost var before := table.Keys - old(visiting);
      for i := 0 to |dependencies|
        invariant Valid(from)
        invariant visiting == old(visiting) + {id} && id !in old(visiting)
        invariant old(visited) <= visited && old(findings) <= findings
        invariant id !in visited
        invariant |findings| == from ==>
          forall d :: d in dependencies[..i] && d in table ==> d in visited
      {
        var dependency := dependencies[i];
        ChainExtends(id, chain, dependency);
        Visit(dependency, chain + [dependency], from);
        assert dependencies[..i + 1] == dependencies[..i] + [dependency];
      }
      assert dependencies[..|dependencies|] == dependencies;
      visiting := visiting - {id};
      assert visiting == old(visiting);
      ghost var order := visited;
      visited := visited + [id];
      if |findings| == from {
        ExtendTopological(table, order, id);
      }
    }

    // The suffix of the chain from the first occurrence of a revisited action
    // is a real closed walk.
    lemma SuffixIsClosedWalk(id: string, chain: seq<string>, start: nat)
      requires OnChain(id, chain) && id in visiting && visiting <= table.Keys
      requires start < |chain| && chain[start] == id && id !in chain[..start]
      ensures IsClosedWalk(table, chain[start..])
      ensures IsReportedCycle(table, chain[start..] + [id])
    {
      assert id in chain[..|chain| - 1];
      var k :| 0 <= k < |chain| - 1 && chain[k] == id;
      assert forall j :: 0 <= j < start ==> chain[..start][j] == chain[j] && chain[..start][j] != id;
      var walk := chain[start..];
      forall i | 0 <= i < |walk| - 1 ensures Edge(table, walk[i], walk[i + 1]) {
        assert Edge(table, chain[start + i], chain[start + i + 1]);
      }
      assert (walk + [id])[..|walk|] == walk;
    }

    lemma ChainExtends(id: string, chain: seq<string>, dependency: string)
      requires |chain| > 0 && chain[|chain| - 1] == id
      requires id in table && dependency in table[id] && IsWalk(table, chain)
      requires forall a :: a in visiting <==> a in chain[..|chain| - 1] || a == id
      ensures OnChain(dependency, chain + [dependency])
    {
      var longer := chain + [dependency];
      assert longer[..|longer| - 1] == chain;
      assert chain == chain[..|chain| - 1] + [id];
      if dependency in table {
        forall i | 0 <= i < |longer| - 1 ensures Edge(table, longer[i], longer[i + 1]) {
          if i < |chain| - 1 {
            assert Edge(table, chain[i], chain[i + 1]);
          }
        }
      }
    }
  }

  lemma ExtendTopological(table: map<string, seq<string>>, order: seq<string>, id: string)
    requires Topological(table, order) && id in table
    requires forall d :: d in table[id] && d in table ==> d in order
    ensures Topological(table, order + [id])
  {
    var longer := order + [id];
    forall k, d | 0 <= k < |longer| && Edge(table, longer[k], d)
      ensures d in longer[..k]
    {
      if k < |order| {
        assert longer[..k] == order[..k];
      } else {
        assert longer[..k] == order;
      }
    }
  }

  // ----- The whole check -----

  // The findings for one action's dependencies that name no action, in order.
  function MissingOf(known: set<string>, index: nat, dependsOn: seq<string>): (findings: seq<Finding>)
    ensures forall f :: f in findings <==>
      f.MissingDependency? && f.actionIndex == index && f.position < |dependsOn| && dependsOn[f.position] !in known
    ensures Distinct(findings)
  {
    if dependsOn == [] then []
    else
      var n := |dependsOn| - 1;
      assert dependsOn == dependsOn[..n] + [dependsOn[n]];
      MissingOf(known, index, dependsOn[..n]) +
      (if dependsOn[n] in known then [] else [MissingDependency(index, n)])
  }

  function Unresolved(dependencies: seq<Dependency>): (findings: seq<Finding>)
    ensures forall f :: f in findings <==>
      f.UnresolvedDependency? && f.dependencyIndex < |dependencies| && dependencies[f.dependencyIndex].unresolved
    ensures Distinct(findings)
  {
    if dependencies == [] then []
    else
      var n := |dependencies| - 1;
      Unresolved(dependencies[..n]) +
      (if dependencies[n].unresolved then [UnresolvedDependency(n)] else [])
  }

  method Check(actions: seq<Action>, dependencies: seq<Dependency>) returns (findings: seq<Finding>)
    // a missing-dependency finding for exactly the unknown dependencies
    ensures forall i: nat, k: nat :: MissingDependency(i, k) in findings <==>
      (i < |actions| && k < |actions[i].dependsOn| && actions[i].dependsOn[k] !in Table(actions))
    // a cycle finding exactly when the graph has a cycle, each naming a real one
    ensures (exists f :: f in findings && f.DependencyCycle?) <==> HasCycle(Table(actions))
    ensures forall i :: 0 <= i < |findings| && findings[i].DependencyCycle? ==>
      findings[i].number == i + 1 && IsReportedCycle(Table(actions), findings[i].reported)
    // an unresolved-dependency finding for exactly the unresolved rows
    ensures forall k: nat :: UnresolvedDependency(k) in findings <==>
      (k < |dependencies| && dependencies[k].unresolved)
    ensures Distinct(findings)
  {
    var table := Table(actions);
    findings := AllMissing(table, actions);
    ghost var missing := findings;

    ghost var visited;
    findings, visited := SearchCycles(table, Keys(actions), findings);
    ghost var searched := findings;
    CycleVerdict(table, visited, missing, searched);

    var unresolved := UnresolvedDependencies(dependencies);
    findings := findings + unresolved;
    SearchedPart(table, missing, searched, findings, unresolved);
  }

  // The search from every key, after the findings already made.
  method SearchCycles(table: map<string, seq<string>>, keys: seq<string>, missing: seq<Finding>)
    returns (findings: seq<Finding>, ghost visited: seq<string>)
    requires forall id :: id in keys <==> id in table
    ensures missing <= findings && SoundCycles(table, findings, |missing|) && Distinct(visited)
    ensures |findings| == |missing| ==> Topological(table, visited) && forall id :: id in table ==> id in visited
  {
    var search := new CycleSearch(table, missing);
    for k := 0 to |keys|
      invariant fresh(search) && search.table == table
      invariant search.Valid(|missing|) && search.visiting == {}
      invariant missing <= search.findings
      invariant |search.findings| == |missing| ==> forall id :: id in keys[..k] ==> id in search.visited
    {
      search.Visit(keys[k], [keys[k]], |missing|);
      assert keys[..k + 1] == keys[..k] + [keys[k]];
    }
    assert keys[..|keys|] == keys;
    findings, visited := search.findings, search.visited;
  }

  method AllMissing(table: map<string, seq<string>>, actions: seq<Action>) returns (findings: seq<Finding>)
    ensures forall f :: f in findings <==>
      f.MissingDependency? && f.actionIndex < |actions|
      && f.position < |actions[f.actionIndex].dependsOn| && actions[f.actionIndex].dependsOn[f.position] !in table
    ensures Distinct(findings)
  {
    findings := [];
    for index := 0 to |actions|
      invariant forall f :: f in findings <==>
        f.MissingDependency? && f.actionIndex < index
        && f.position < |actions[f.actionIndex].dependsOn| && actions[f.actionIndex].dependsOn[f.position] !in table
      invariant Distinct(findings)
    {
      var missing := MissingDependencies(table, index, actions[index].dependsOn);
      DistinctAppend(findings, missing);
      findings := findings + missing;
    }
  }

  method UnresolvedDependencies(dependencies: seq<Dependency>) returns (findings: seq<Finding>)
    ensures findings == Unresolved(dependencies)
  {
    findings := [];
    for index := 0 to |dependencies|
      invariant findings == Unresolved(dependencies[..index])
    {
      assert dependencies[..index + 1][..index] == dependencies[..index];
      if dependencies[index].unresolved {
        findings := findings + [UnresolvedDependency(index)];
      }
    }
    assert dependencies[..|dependencies|] == dependencies;
  }

  method MissingDependencies(table: map<string, seq<string>>, index: nat, dependsOn: seq<string>)
    returns (findings: seq<Finding>)
    ensures findings == MissingOf(table.Keys, index, dependsOn)
  {
    findings := [];
    for i := 0 to |dependsOn|
      invariant findings == MissingOf(table.Keys, index, dependsOn[..i])
    {
      assert dependsOn[..i + 1][..i] == dependsOn[..i];
      if dependsOn[i] !in table {
        findings := findings + [MissingDependency(index, i)];
      }
    }
    assert dependsOn[..|dependsOn|] == dependsOn;
  }

  // After every root has been visited, the search reported something exactly
  // when the graph has a cycle.
  lemma CycleVerdict(table: map<string, seq<string>>, visited: seq<string>, missing: seq<Finding>, searched: seq<Finding>)
    requires missing <= searched && SoundCycles(table, searched, |missing|)
    requires Distinct(visited)
    requires |searched| == |missing| ==>
      Topological(table, visited) && forall id :: id in table ==> id in visited
    ensures |searched| > |missing| <==> HasCycle(table)
  {
    if |searched| > |missing| {
      assert IsReportedCycle(table, searched[|missing|].reported);
    } else {
      TopologicalOrderMeansAcyclic(table, visited);
    }
  }

  lemma SearchedPart(table: map<string, seq<string>>, missing: seq<Finding>, searched: seq<Finding>,
                     findings: seq<Finding>, unresolved: seq<Finding>)
    requires missing <= searched && SoundCycles(table, searched, |missing|)
    requires forall f :: f in missing ==> f.MissingDependency?
    requires forall f :: f in unresolved ==> f.UnresolvedDependency?
    requires findings == searched + unresolved
    requires Distinct(missing) && Distinct(unresolved)
    ensures Distinct(findings)
    ensures (exists f :: f in findings && f.DependencyCycle?) <==> |searched| > |missing|
    ensures forall i :: 0 <= i < |findings| && findings[i].DependencyCycle? ==>
      findings[i].number == i + 1 && IsReportedCycle(table, findings[i].reported)
    ensures forall f: Finding :: f.MissingDependency? ==> (f in findings <==> f in missing)
    ensures forall f: Finding :: f.UnresolvedDependency? ==> (f in findings <==> f in unresolved)
  {
    forall i | 0 <= i < |searched|
      ensures i < |missing| ==> searched[i].MissingDependency?
      ensures i >= |missing| ==> searched[i].DependencyCycle?
    {
      if i < |missing| {
        assert missing[i] in missing;
      }
    }
    forall i | |searched| <= i < |findings| ensures findings[i].UnresolvedDependency? {
      assert findings[i] == unresolved[i - |searched|];
    }
    forall i | 0 <= i < |findings| && findings[i].DependencyCycle?
      ensures findings[i].number == i + 1 && IsReportedCycle(table, findings[i].reported)
    {
      assert findings[i] == searched[i];
    }
    forall i, j | 0 <= i < j < |searched| ensures searched[i] != searched[j] {
      if j < |missing| {
        assert missing[i] != missing[j];
      }
    }
    DistinctAppend(searched, unresolved);
    if |searched| > |missing| {
      assert findings[|missing|] in findings;
    }
  }
}
