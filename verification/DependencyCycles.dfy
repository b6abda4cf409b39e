/** The dependency-cycle check of scripts/check_repository.py.

    `check_workspace_boundaries` and `check_python_workspace_boundaries` build a graph from the
    manifests found in the repository and run the same depth-first search over it.  Both visit
    packages in sorted order; everything here is proved for every order, so a graph maps a package
    to the sequence of its dependencies in the order in which the loop takes them. */
module DependencyCycles {

  type Graph = map<string, seq<string>>

  ghost predicate Closed(g: Graph) {
    forall p, d :: p in g && d in g[p] ==> d in g
  }

  /** The entries of `declared` that name a package of the workspace. */
  function InWorkspace(declared: seq<string>, packages: set<string>): (r: seq<string>)
    ensures forall d :: d in r <==> d in declared && d in packages
  {
    if declared == [] then []
    else
      var rest := InWorkspace(declared[1..], packages);
      if declared[0] in packages then [declared[0]] + rest else rest
  }

  /** Only dependencies on other packages of the workspace become edges. */
  function WorkspaceGraph(manifests: map<string, seq<string>>): (g: Graph)
    ensures g.Keys == manifests.Keys && Closed(g)
    ensures forall p, d :: p in g ==> (d in g[p] <==> d in manifests[p] && d in manifests)
  {
    map p | p in manifests :: InWorkspace(manifests[p], manifests.Keys)
  }

  predicate DependsOn(g: Graph, from: string, to: string) {
    from in g && to in g[from]
  }

  /** Every element but the last depends directly on its successor. */
  ghost predicate IsPath(g: Graph, p: seq<string>) {
    forall i, j :: 0 <= i < j < |p| && j == i + 1 ==> DependsOn(g, p[i], p[j])
  }

  ghost predicate IsCycle(g: Graph, c: seq<string>) {
    |c| >= 2 && c[0] == c[|c| - 1] && IsPath(g, c)
  }

  ghost predicate HasCycle(g: Graph) {
    exists c :: IsCycle(g, c)
  }

  ghost predicate NoRepeats(s: seq<string>) {
    forall i, j :: 0 <= i < j < |s| ==> s[i] != s[j]
  }

  /** Only the last package was visited before. */
  ghost predicate IsSimple(c: seq<string>) {
    c != [] && NoRepeats(c[..|c| - 1])
  }

  ghost function Elements(s: seq<string>): set<string> {
    set x | x in s
  }

  /** The last step of a reported cycle goes from one package to the other. */
  ghost predicate Closes(errors: seq<seq<string>>, from: string, to: string) {
    exists k :: 0 <= k < |errors| && |errors[k]| >= 2 && errors[k][|errors[k]| - 2] == from && errors[k][|errors[k]| - 1] == to
  }

  /** `order` lists packages so that each one comes after everything it depends on, up to reported dependencies. */
  ghost predicate DependenciesFirst(g: Graph, order: seq<string>, errors: seq<seq<string>>) {
    forall i, d :: 0 <= i < |order| && order[i] in g && d in g[order[i]] ==> d in order[..i] || Closes(errors, order[i], d)
  }

  /** Some step of the path is the last of a reported cycle. */
  ghost predicate Covered(errors: seq<seq<string>>, p: seq<string>) {
    exists i, j :: 0 <= i < j < |p| && j == i + 1 && Closes(errors, p[i], p[j])
  }

  lemma CoveredOn(errors: seq<seq<string>>, p: seq<string>)
    requires p != [] && Covered(errors, p[1..])
    ensures Covered(errors, p)
  {
    var i, j :| 0 <= i < j < |p[1..]| && j == i + 1 && Closes(errors, p[1..][i], p[1..][j]);
    assert Closes(errors, p[i + 1], p[j + 1]);
  }

  /** Walking along edges that are not reported moves strictly towards the front of the list. */
  lemma {:induction false} PathDescends(g: Graph, order: seq<string>, errors: seq<seq<string>>, p: seq<string>, at: nat) returns (last: nat)
    requires DependenciesFirst(g, order, errors)
    requires IsPath(g, p) && p != [] && !Covered(errors, p)
    requires at < |order| && order[at] == p[0]
    ensures last < |order| && order[last] == p[|p| - 1]
    ensures |p| > 1 ==> last < at
    ensures last <= at
  {
    if |p| == 1 {
      last := at;
    } else {
      assert DependsOn(g, p[0], p[1]);
      assert !Closes(errors, p[0], p[1]);
      assert p[1] in order[..at];
      var next :| 0 <= next < at && order[next] == p[1];
      var tail := p[1..];
      assert IsPath(g, tail) by {
        forall i, j | 0 <= i < j < |tail| && j == i + 1 ensures DependsOn(g, tail[i], tail[j]) {
          assert DependsOn(g, p[i + 1], p[j + 1]);
        }
      }
      if Covered(errors, tail) {
        CoveredOn(errors, p);
      }
      last := PathDescends(g, order, errors, tail, next);
    }
  }

  /** With a list of all packages, dependencies first up to reported ones, every cycle has a reported step. */
  lemma OrderCoversCycles(g: Graph, order: seq<string>, errors: seq<seq<string>>, c: seq<string>)
    requires Closed(g) && DependenciesFirst(g, order, errors) && NoRepeats(order) && g.Keys <= Elements(order)
    requires IsCycle(g, c)
    ensures Covered(errors, c)
  {
    if !Covered(errors, c) {
      assert DependsOn(g, c[0], c[1]);
      assert c[0] in Elements(order);
      var at :| 0 <= at < |order| && order[at] == c[0];
      var last := PathDescends(g, order, errors, c, at);
    }
  }

  /** A list of all packages with dependencies first exists only when there is no cycle. */
  lemma OrderExcludesCycle(g: Graph, order: seq<string>)
    requires Closed(g)
    requires DependenciesFirst(g, order, []) && NoRepeats(order) && g.Keys <= Elements(order)
    ensures !HasCycle(g)
  {
    if c :| IsCycle(g, c) {
      OrderCoversCycles(g, order, [], c);
    }
  }

  /** Appending one more dependency keeps a path a path. */
  lemma PathExtends(g: Graph, p: seq<string>, name: string)
    requires IsPath(g, p)
    requires p != [] ==> p[|p| - 1] in g && name in g[p[|p| - 1]]
    ensures IsPath(g, p + [name])
  {
    var longer := p + [name];
    forall i, j | 0 <= i < j < |longer| && j == i + 1 ensures DependsOn(g, longer[i], longer[j]) {
      assert j < |p| ==> DependsOn(g, p[i], p[j]);
    }
  }

  lemma PathSuffix(g: Graph, p: seq<string>, from: nat)
    requires IsPath(g, p) && from <= |p|
    ensures IsPath(g, p[from..])
  {
    var suffix := p[from..];
    forall i, j | 0 <= i < j < |suffix| && j == i + 1 ensures DependsOn(g, suffix[i], suffix[j]) {
      assert DependsOn(g, p[from + i], p[from + j]);
    }
  }

  /** A package may join the finished list once everything it depends on is in it or reported. */
  lemma FinishInOrder(g: Graph, before: seq<string>, errors: seq<seq<string>>, name: string)
    requires DependenciesFirst(g, before, errors)
    requires name in g ==> forall d :: d in g[name] ==> d in before || Closes(errors, name, d)
    ensures DependenciesFirst(g, before + [name], errors)
  {
    var after := before + [name];
    forall k, d | 0 <= k < |after| && after[k] in g && d in g[after[k]]
      ensures d in after[..k] || Closes(errors, after[k], d)
    {
      if k < |before| {
        assert before[k] == after[k] && after[..k] == before[..k];
      } else {
        assert after[..k] == before;
      }
    }
  }

  /** More reports leave what was reported. */
  lemma ReportsStay(errors: seq<seq<string>>, more: seq<seq<string>>, from: string, to: string)
    requires errors <= more && Closes(errors, from, to)
    ensures Closes(more, from, to)
  {
    var k :| 0 <= k < |errors| && |errors[k]| >= 2 && errors[k][|errors[k]| - 2] == from && errors[k][|errors[k]| - 1] == to;
    assert more[k] == errors[k];
  }

  lemma OrderStays(g: Graph, order: seq<string>, errors: seq<seq<string>>, more: seq<seq<string>>)
    requires errors <= more && DependenciesFirst(g, order, errors)
    ensures DependenciesFirst(g, order, more)
  {
    forall i, d | 0 <= i < |order| && order[i] in g && d in g[order[i]] ensures d in order[..i] || Closes(more, order[i], d) {
      if Closes(errors, order[i], d) {
        ReportsStay(errors, more, order[i], d);
      }
    }
  }

  lemma ElementsOfAppend(s: seq<string>, x: string)
    ensures Elements(s + [x]) == Elements(s) + {x}
  {
  }

  /** `list.index`: the first position of a value that is present. */
  function IndexOf(s: seq<string>, x: string): (i: nat)
    requires x in s
    ensures i < |s| && s[i] == x && x !in s[..i]
  {
    if s[0] == x then 0 else 1 + IndexOf(s[1..], x)
  }

  lemma TrailCloses(g: Graph, trail: seq<string>, name: string)
    requires IsPath(g, trail) && name in trail
    requires trail[|trail| - 1] in g && name in g[trail[|trail| - 1]]
    ensures IsCycle(g, trail[IndexOf(trail, name)..] + [name])
    ensures NoRepeats(trail) ==> IsSimple(trail[IndexOf(trail, name)..] + [name])
  {
    PathSuffix(g, trail, IndexOf(trail, name));
    PathExtends(g, trail[IndexOf(trail, name)..], name);
    if NoRepeats(trail) {
      SuffixIsSimple(trail, IndexOf(trail, name), name);
    }
  }

  lemma SuffixIsSimple(trail: seq<string>, from: nat, name: string)
    requires NoRepeats(trail) && from < |trail|
    ensures IsSimple(trail[from..] + [name])
  {
    var closed := trail[from..] + [name];
    assert closed[..|closed| - 1] == trail[from..];
  }

  /** Each dependency has been visited, or the step to it reported. */
  ghost predicate Explored(dependencies: seq<string>, name: string, visited: set<string>, errors: seq<seq<string>>) {
    forall d :: d in dependencies ==> d in visited || Closes(errors, name, d)
  }

  lemma ExploredOn(dependencies: seq<string>, i: nat, name: string, seen: set<string>, before: seq<seq<string>>,
                   visited: set<string>, errors: seq<seq<string>>)
    requires i < |dependencies| && Explored(dependencies[..i], name, seen, before) && seen <= visited && before <= errors
    requires dependencies[i] in visited || Closes(errors, name, dependencies[i])
    ensures Explored(dependencies[..i + 1], name, visited, errors)
  {
    forall d | d in dependencies[..i + 1] ensures d in visited || Closes(errors, name, d) {
      if d != dependencies[i] {
        assert d in dependencies[..i];
        if d !in visited {
          ReportsStay(before, errors, name, d);
        }
      }
    }
  }

  lemma FewerLeft(all: set<string>, visiting: set<string>, visited: set<string>, now: set<string>, name: string)
    requires name in all && name !in visiting && name !in visited && visited <= now
    ensures all - (visiting + {name}) - now < all - visiting - visited
  {
    assert name in all - visiting - visited;
  }

  /** The state shared by the recursive calls of `visit`. */
  class CycleSearch {
    const graph: Graph
    var visiting: set<string>
    var visited: set<string>
    var trail: seq<string>
    var errors: seq<seq<string>>
    ghost var finished: seq<string> // packages in the order in which they left `visiting`

    ghost predicate Valid()
      reads this
    {
      && Closed(graph)
      && visiting == Elements(trail) && NoRepeats(trail) && IsPath(graph, trail)
      && visited == Elements(finished) && NoRepeats(finished)
      && visiting !! visited && visiting + visited <= graph.Keys
      && (forall e :: e in errors ==> IsCycle(graph, e) && IsSimple(e))
      && DependenciesFirst(graph, finished, errors)
    }

    constructor (g: Graph)
      requires Closed(g)
      ensures Valid() && graph == g
      ensures trail == [] && errors == [] && visited == {}
    {
      graph := g;
      visiting, visited, trail, errors, finished := {}, {}, [], [], [];
    }

    /** A dependency on a package still being visited closes a cycle along the trail. */
    method ReportCycle(name: string)
      requires Valid() && name in visiting
      requires trail != [] ==> name in graph[trail[|trail| - 1]]
      modifies this`errors
      ensures Valid()
      ensures errors == old(errors) + [trail[IndexOf(trail, name)..] + [name]]
      ensures trail != [] && Closes(errors, trail[|trail| - 1], name)
    {
      assert name in trail;
      TrailCloses(graph, trail, name);
      ghost var before := errors;
      errors := errors + [trail[IndexOf(trail, name)..] + [name]];
      OrderStays(graph, finished, before, errors);
      assert errors[|before|] == trail[IndexOf(trail, name)..] + [name];
    }

    method Enter(name: string)
      requires Valid() && name in graph && name !in visiting && name !in visited
      requires trail != [] ==> name in graph[trail[|trail| - 1]]
      modifies this`visiting, this`trail
      ensures Valid()
      ensures trail == old(trail) + [name] && visiting == old(visiting) + {name}
    {
      PathExtends(graph, trail, name);
      ElementsOfAppend(trail, name);
      visiting := visiting + {name};
      trail := trail + [name];
    }

    method Leave(name: string)
      requires Valid() && trail != [] && trail[|trail| - 1] == name
      requires Explored(graph[name], name, visited, errors)
      modifies this
      ensures Valid()
      ensures trail == old(trail)[..|old(trail)| - 1] && visiting == old(visiting) - {name}
      ensures visited == old(visited) + {name} && errors == old(errors)
    {
      ghost var before := trail[..|trail| - 1];
      assert trail == before + [name];
      ElementsOfAppend(before, name);
      ElementsOfAppend(finished, name);
      assert forall d :: d in visited ==> d in finished;
      FinishInOrder(graph, finished, errors, name);
      assert IsPath(graph, before) by {
        forall i, j | 0 <= i < j < |before| && j == i + 1 ensures DependsOn(graph, before[i], before[j]) {
          assert DependsOn(graph, trail[i], trail[j]);
        }
      }
      trail := trail[..|trail| - 1];
      visiting := visiting - {name};
      visited := visited + {name};
      finished := finished + [name];
    }

    /** One call of `visit`: afterwards `name` has been explored, or the step to it has been reported. */
    method Visit(name: string)
      requires Valid() && name in graph
      requires trail != [] ==> name in graph[trail[|trail| - 1]]
      modifies this
      ensures Valid()
      ensures trail == old(trail) && visiting == old(visiting)
      ensures old(visited) <= visited
      ensures old(errors) <= errors
      ensures name in visited || (trail != [] && Closes(errors, trail[|trail| - 1], name))
      decreases graph.Keys - visiting - visited
    {
      if name in visiting {
        ReportCycle(name);
        return;
      }
      if name in visited {
        return;
      }
      Enter(name);
      var i := 0;
      while i < |graph[name]|
        invariant 0 <= i <= |graph[name]|
        invariant Valid()
        invariant trail == old(trail) + [name] && visiting == old(visiting) + {name}
        invariant old(visited) <= visited && old(errors) <= errors
        invariant Explored(graph[name][..i], name, visited, errors)
      {
        FewerLeft(graph.Keys, old(visiting), old(visited), visited, name);
        ghost var before, seen := errors, visited;
        Visit(graph[name][i]);
        ExploredOn(graph[name], i, name, seen, before, visited, errors);
        i := i + 1;
      }
      assert graph[name][..i] == graph[name];
      Leave(name);
      assert name in visited;
    }
  }

  /** The whole check.  An error is reported exactly when the manifests contain a cycle, every reported trail is a
      real cycle through declared dependencies that visits no package twice, and every cycle there is contains the
      last step of a reported one: without those steps no cycle would be left. */
  method CheckWorkspace(names: seq<string>, manifests: map<string, seq<string>>) returns (errors: seq<seq<string>>)
    requires Elements(names) == manifests.Keys
    ensures errors != [] <==> HasCycle(WorkspaceGraph(manifests))
    ensures forall e :: e in errors ==> IsCycle(WorkspaceGraph(manifests), e) && IsSimple(e)
    ensures forall c :: IsCycle(WorkspaceGraph(manifests), c) ==> Covered(errors, c)
  {
    var search := new CycleSearch(WorkspaceGraph(manifests));
    var i := 0;
    while i < |names|
      invariant 0 <= i <= |names|
      invariant search.Valid() && search.graph == WorkspaceGraph(manifests)
      invariant search.trail == []
      invariant forall j :: 0 <= j < i ==> names[j] in search.visited
    {
      assert names[i] in Elements(names);
      search.Visit(names[i]);
      i := i + 1;
    }
    errors := search.errors;
    forall p | p in search.graph ensures p in Elements(search.finished) {
      assert p in Elements(names);
    }
    forall c | IsCycle(search.graph, c) ensures Covered(errors, c) {
      OrderCoversCycles(search.graph, search.finished, errors, c);
    }
    if errors == [] {
      OrderExcludesCycle(search.graph, search.finished);
    } else {
      assert errors[0] in errors;
    }
  }
}
