/** What a change affects: the owners of the changed paths and everything that depends on them. */
module Impact {
  import opened Strings
  import opened Tables
  import opened Ownership

  // ---- Path classes ----

  predicate IsDocsPath(path: string) {
    var lower := ToLower(path);
    var base := ToLower(Base(lower));
    HasPrefix(lower, "docs/") || base == "readme.md" || base == "contributing.md" || HasSuffix(lower, ".md")
  }

  predicate IsGlobalImpact(path: string) {
    var lower := ToLower(path);
    || HasPrefix(lower, ".github/") || lower == "ci.ai.yaml" || lower == "go.mod" || lower == "go.sum"
    || lower == "go.work" || lower == "go.work.sum" || lower == "makefile" || lower == "dockerfile"
  }

  predicate IsCodePath(path: string) {
    var lower := ToLower(path);
    HasSuffix(lower, ".go") || HasSuffix(lower, ".mod") || HasSuffix(lower, ".sum")
  }

  // ---- The dependency graph ----

  /** The project a module path stands for: the last one that declares it. */
  function Target(projects: seq<Project>, modulePath: string): Option<string> {
    if projects == [] then None
    else
      var last := projects[|projects| - 1];
      if modulePath != "" && last.modulePath == modulePath then Some(last.name)
      else Target(projects[..|projects| - 1], modulePath)
  }

  /** A module path stands for the project that declares it; of several, for the one listed last. */
  lemma {:induction false} TargetExactly(projects: seq<Project>, modulePath: string, x: string)
    ensures Target(projects, modulePath) == Some(x) <==>
      exists i :: Declares(projects, i, modulePath) && projects[i].name == x && forall k :: Declares(projects, k, modulePath) ==> k <= i
  {
    if projects != [] {
      var n := |projects| - 1;
      TargetExactly(projects[..n], modulePath, x);
      forall k | 0 <= k < n ensures Declares(projects, k, modulePath) <==> Declares(projects[..n], k, modulePath) {}
      if Declares(projects, n, modulePath) {
        assert Target(projects, modulePath) == Some(projects[n].name);
      } else if i :| Declares(projects[..n], i, modulePath) && projects[..n][i].name == x
                     && forall k :: Declares(projects[..n], k, modulePath) ==> k <= i {
        forall k | Declares(projects, k, modulePath) ensures k <= i { assert k < n; }
        assert Declares(projects, i, modulePath);
      }
    }
  }

  predicate Declares(projects: seq<Project>, i: int, modulePath: string) {
    0 <= i < |projects| && modulePath != "" && projects[i].modulePath == modulePath
  }

  /** Project `a` requires, as its requirement `b`, a module of project `x`. */
  predicate Requires(projects: seq<Project>, a: int, b: int, x: string) {
    0 <= a < |projects| && 0 <= b < |projects[a].needs| && Target(projects, projects[a].needs[b]) == Some(x)
  }

  /** A project named `y` requires a module of project `x`. */
  ghost predicate DependsOn(projects: seq<Project>, x: string, y: string) {
    exists a, b :: Requires(projects, a, b, x) && projects[a].name == y
  }

  type Graph = map<string, seq<string>>

  predicate Arrow(graph: Graph, x: string, y: string) {
    x in graph && y in graph[x]
  }

  ghost predicate GraphOf(graph: Graph, projects: seq<Project>) {
    forall x, y :: Arrow(graph, x, y) <==> DependsOn(projects, x, y)
  }

  /** The requirements looked at so far. */
  ghost predicate Seen(projects: seq<Project>, i: int, k: int, x: string, y: string) {
    exists a, b :: Requires(projects, a, b, x) && projects[a].name == y && (a < i || (a == i && b < k))
  }

  /** buildDependencyGraph */
  method BuildDependencyGraph(projects: seq<Project>) returns (graph: Graph)
    ensures GraphOf(graph, projects)
    ensures forall x :: x in graph ==> Sorted(graph[x])
  {
    var moduleIndex := IndexModules(projects);
    graph := map[];
    var i := 0;
    while i < |projects|
      invariant 0 <= i <= |projects|
      invariant forall x, y :: Arrow(graph, x, y) <==> Seen(projects, i, 0, x, y)
    {
      var project := projects[i];
      var k := 0;
      while k < |project.needs|
        invariant 0 <= k <= |project.needs|
        invariant forall x, y :: Arrow(graph, x, y) <==> Seen(projects, i, k, x, y)
      {
        var needed := project.needs[k];
        ghost var before := graph;
        if needed in moduleIndex {
          graph := AddArrow(graph, moduleIndex[needed], project.name);
        }
        SeenNext(projects, i, k, before, graph);
        k := k + 1;
      }
      SeenRow(projects, i, k);
      i := i + 1;
    }
    SeenAll(projects, i);
    graph := SortArrows(graph);
  }

  method IndexModules(projects: seq<Project>) returns (moduleIndex: map<string, string>)
    ensures forall m :: m in moduleIndex <==> Target(projects, m).Some?
    ensures forall m :: m in moduleIndex ==> Target(projects, m) == Some(moduleIndex[m])
  {
    moduleIndex := map[];
    var i := 0;
    while i < |projects|
      invariant 0 <= i <= |projects|
      invariant forall m :: m in moduleIndex <==> Target(projects[..i], m).Some?
      invariant forall m :: m in moduleIndex ==> Target(projects[..i], m) == Some(moduleIndex[m])
    {
      var project := projects[i];
      assert projects[..i + 1][..i] == projects[..i] && projects[..i + 1][i] == project;
      if project.modulePath != "" {
        moduleIndex := moduleIndex[project.modulePath := project.name];
      }
      i := i + 1;
    }
    assert projects[..i] == projects;
  }

  function AddArrow(graph: Graph, x: string, y: string): (r: Graph)
    ensures forall u, v :: Arrow(r, u, v) <==> Arrow(graph, u, v) || (u == x && v == y)
  {
    var r := graph[x := (if x in graph then graph[x] else []) + [y]];
    assert forall u, v :: u != x ==> (Arrow(r, u, v) <==> Arrow(graph, u, v));
    r
  }

  lemma SeenNext(projects: seq<Project>, i: nat, k: nat, graph: Graph, graph': Graph)
    requires i < |projects| && k < |projects[i].needs|
    requires forall x, y :: Arrow(graph, x, y) <==> Seen(projects, i, k, x, y)
    requires forall x, y :: Arrow(graph', x, y) <==>
      Arrow(graph, x, y) || (Target(projects, projects[i].needs[k]) == Some(x) && y == projects[i].name)
    ensures forall x, y :: Arrow(graph', x, y) <==> Seen(projects, i, k + 1, x, y)
  {
    forall x, y ensures Arrow(graph', x, y) <==> Seen(projects, i, k + 1, x, y) {
      if Arrow(graph, x, y) {
        var a, b :| Requires(projects, a, b, x) && projects[a].name == y && (a < i || (a == i && b < k));
      }
      if Target(projects, projects[i].needs[k]) == Some(x) { assert Requires(projects, i, k, x); }
    }
  }

  lemma SeenRow(projects: seq<Project>, i: nat, k: nat)
    requires i < |projects| && k == |projects[i].needs|
    ensures forall x, y :: Seen(projects, i, k, x, y) <==> Seen(projects, i + 1, 0, x, y)
  {
  }

  lemma SeenAll(projects: seq<Project>, i: nat)
    requires i == |projects|
    ensures forall x, y :: Seen(projects, i, 0, x, y) <==> DependsOn(projects, x, y)
  {
  }

  method SortArrows(graph: Graph) returns (sorted: Graph)
    ensures forall x, y :: Arrow(sorted, x, y) <==> Arrow(graph, x, y)
    ensures forall x :: x in sorted ==> Sorted(sorted[x])
  {
    sorted := graph;
    var rest := graph.Keys;
    while rest != {}
      invariant sorted.Keys == graph.Keys && rest <= graph.Keys
      invariant forall x, y :: Arrow(sorted, x, y) <==> Arrow(graph, x, y)
      invariant forall x :: x in graph && x !in rest ==> Sorted(sorted[x])
      decreases rest
    {
      var x :| x in rest;
      SortKeeps(sorted[x]);
      forall y ensures y in SortStrings(sorted[x]) <==> y in sorted[x] {
        assert y in Elements(SortStrings(sorted[x])) <==> y in Elements(sorted[x]);
      }
      ghost var before := sorted;
      sorted := sorted[x := SortStrings(sorted[x])];
      assert forall u, v :: Arrow(sorted, u, v) <==> Arrow(before, u, v);
      rest := rest - {x};
    }
  }

  // ---- Reachability ----

  /** A chain of projects, each one requiring the one before it. */
  ghost predicate Chain(projects: seq<Project>, seeds: set<string>, c: seq<string>) {
    && c != [] && c[0] in seeds
    && forall i :: 0 < i < |c| ==> DependsOn(projects, c[i - 1], c[i])
  }

  /** `x` depends on a seed, directly or not, or is one. */
  ghost predicate Reaches(projects: seq<Project>, seeds: set<string>, x: string) {
    exists c :: Chain(projects, seeds, c) && c[|c| - 1] == x
  }

  function Names(projects: seq<Project>): set<string> {
    set p | p in projects :: p.name
  }

  ghost function Closure(projects: seq<Project>, seeds: set<string>): set<string> {
    set x | x in seeds + Names(projects) && Reaches(projects, seeds, x)
  }

  lemma SeedReaches(projects: seq<Project>, seeds: set<string>, x: string)
    requires x in seeds
    ensures Reaches(projects, seeds, x)
  {
    assert Chain(projects, seeds, [x]);
  }

  lemma ReachesNext(projects: seq<Project>, seeds: set<string>, x: string, y: string)
    requires Reaches(projects, seeds, x) && DependsOn(projects, x, y)
    ensures Reaches(projects, seeds, y) && y in Names(projects)
  {
    var c :| Chain(projects, seeds, c) && c[|c| - 1] == x;
    assert Chain(projects, seeds, c + [y]) && (c + [y])[|c|] == y;
    var a, b :| Requires(projects, a, b, x) && projects[a].name == y;
    assert projects[a] in projects;
  }

  /** A set that holds the seeds and is closed under dependents holds everything they reach. */
  lemma ClosedCovers(projects: seq<Project>, seeds: set<string>, s: set<string>, x: string)
    requires seeds <= s && forall u, v :: u in s && DependsOn(projects, u, v) ==> v in s
    requires Reaches(projects, seeds, x)
    ensures x in s
  {
    var c :| Chain(projects, seeds, c) && c[|c| - 1] == x;
    ChainCovered(projects, seeds, s, c, |c| - 1);
  }

  lemma {:induction false} ChainCovered(projects: seq<Project>, seeds: set<string>, s: set<string>, c: seq<string>, i: nat)
    requires seeds <= s && forall u, v :: u in s && DependsOn(projects, u, v) ==> v in s
    requires Chain(projects, seeds, c) && i < |c|
    ensures c[i] in s
  {
    if i > 0 {
      ChainCovered(projects, seeds, s, c, i - 1);
      assert DependsOn(projects, c[i - 1], c[i]);
    }
  }

  /** More seeds reach more. */
  lemma ClosureGrows(projects: seq<Project>, seeds: set<string>, seeds': set<string>)
    requires seeds <= seeds'
    ensures Closure(projects, seeds) <= Closure(projects, seeds')
  {
    forall x | x in Closure(projects, seeds) ensures x in Closure(projects, seeds') {
      var c :| Chain(projects, seeds, c) && c[|c| - 1] == x;
      assert Chain(projects, seeds', c);
    }
  }

  /** projectNames */
  method ProjectNames(projects: seq<Project>) returns (names: seq<string>)
    ensures names == SortedOf(Names(projects))
  {
    names := [];
    var seen := {};
    var i := 0;
    while i < |projects|
      invariant 0 <= i <= |projects|
      invariant seen == Names(projects[..i]) == Elements(names) && NoDup(names)
    {
      var project := projects[i];
      i := i + 1;
      assert projects[..i] == projects[..i - 1] + [project];
      assert Names(projects[..i]) == Names(projects[..i - 1]) + {project.name};
      if project.name in seen { continue; }
      assert project.name !in Elements(names);
      assert Elements(names + [project.name]) == Elements(names) + {project.name};
      seen := seen + {project.name};
      names := names + [project.name];
    }
    assert projects[..i] == projects;
    SortKeeps(names);
    names := SortStrings(names);
    SortedOfUnique(names, Names(projects));
  }

  /** resolveImpactedProjects: a worklist that starts from the seeds in any order. The result is the
      sorted, duplicate-free list of the projects the seeds reach. */
  method ResolveImpactedProjects(seeds: set<string>, projects: seq<Project>, global: bool, graph: Graph)
    returns (list: seq<string>)
    requires GraphOf(graph, projects)
    ensures list == Resolved(projects, seeds, global)
  {
    SortedOfNone();
    if |projects| == 0 { return []; }
    if global {
      list := ProjectNames(projects);
      return;
    }
    var impacted := seeds;
    var queue := ListSet(seeds);
    ghost var all := seeds + Names(projects);
    forall x | x in seeds ensures Reaches(projects, seeds, x) { SeedReaches(projects, seeds, x); }
    while |queue| > 0
      invariant seeds <= impacted <= all
      invariant forall x :: x in impacted ==> Reaches(projects, seeds, x)
      invariant forall x :: x in queue ==> x in impacted
      invariant forall x, y :: x in impacted && x !in queue && Arrow(graph, x, y) ==> y in impacted
      decreases |all - impacted|, |queue|
    {
      var name := queue[0];
      HeadTail(queue);
      queue := queue[1..];
      if name in graph {
        impacted, queue := Visit(seeds, projects, graph, name, impacted, queue, all);
      }
    }
    Exhausted(seeds, projects, graph, impacted);
    list := ListSet(impacted);
    SortKeeps(list);
    list := SortStrings(list);
    SortedOfUnique(list, impacted);
  }

  lemma HeadTail<T>(s: seq<T>)
    requires s != []
    ensures forall x :: x in s <==> x == s[0] || x in s[1..]
  {
    assert s == [s[0]] + s[1..];
  }

  /** An empty worklist leaves the closure of the seeds. */
  lemma Exhausted(seeds: set<string>, projects: seq<Project>, graph: Graph, impacted: set<string>)
    requires GraphOf(graph, projects) && seeds <= impacted <= seeds + Names(projects)
    requires forall x :: x in impacted ==> Reaches(projects, seeds, x)
    requires forall x, y :: x in impacted && Arrow(graph, x, y) ==> y in impacted
    ensures impacted == Closure(projects, seeds)
  {
    forall x | x in Closure(projects, seeds) ensures x in impacted { ClosedCovers(projects, seeds, impacted, x); }
  }

  ghost function Resolved(projects: seq<Project>, seeds: set<string>, global: bool): seq<string> {
    if projects == [] then [] else SortedOf(if global then Names(projects) else Closure(projects, seeds))
  }

  lemma SortedOfNone()
    ensures SortedOf({}) == []
  {
    SortedOfUnique([], {});
  }

  /** The inner loop: dependents of `name` seen for the first time join the queue. */
  method Visit(
    ghost seeds: set<string>, ghost projects: seq<Project>, graph: Graph, name: string,
    impacted: set<string>, queue: seq<string>, ghost all: set<string>)
    returns (impacted': set<string>, queue': seq<string>)
    requires GraphOf(graph, projects) && name in graph && name in impacted && impacted <= all && Names(projects) <= all
    requires forall x :: x in impacted ==> Reaches(projects, seeds, x)
    requires forall x :: x in queue ==> x in impacted
    requires forall x, y :: x in impacted && x != name && x !in queue && Arrow(graph, x, y) ==> y in impacted
    ensures impacted <= impacted' <= all
    ensures forall x :: x in impacted' ==> Reaches(projects, seeds, x)
    ensures forall x :: x in queue' ==> x in impacted'
    ensures forall x, y :: x in impacted' && x !in queue' && Arrow(graph, x, y) ==> y in impacted'
    ensures impacted' == impacted ==> queue' == queue
    ensures |all - impacted'| <= |all - impacted|
    ensures impacted' != impacted ==> |all - impacted'| < |all - impacted|
  {
    impacted', queue' := impacted, queue;
    var dependents := graph[name];
    var i := 0;
    while i < |dependents|
      invariant 0 <= i <= |dependents| && impacted <= impacted' <= all
      invariant forall x :: x in impacted' ==> Reaches(projects, seeds, x)
      invariant forall x :: x in queue' ==> x in impacted'
      invariant forall x :: x in queue ==> x in queue'
      invariant forall x :: x in impacted' && x !in impacted ==> x in queue'
      invariant forall k :: 0 <= k < i ==> dependents[k] in impacted'
      invariant impacted' == impacted ==> queue' == queue
    {
      var dependent := dependents[i];
      i := i + 1;
      if dependent in impacted' { continue; }
      assert Arrow(graph, name, dependent);
      ReachesNext(projects, seeds, name, dependent);
      impacted' := impacted' + {dependent};
      queue' := queue' + [dependent];
    }
    forall x, y | x in impacted' && x !in queue' && Arrow(graph, x, y) ensures y in impacted' {
      if x == name { assert exists k :: 0 <= k < |dependents| && dependents[k] == y; }
    }
    Shrinks(all, impacted, impacted');
  }

  lemma Shrinks(all: set<string>, s: set<string>, t: set<string>)
    requires s <= t <= all
    ensures |all - t| <= |all - s| && (t != s ==> |all - t| < |all - s|)
  {
    assert all - s == (all - t) + (t - s);
    if t != s && |t - s| == 0 { assert t - s == {}; }
  }

  /** Ranging over a set: any order may come up. */
  method ListSet(s: set<string>) returns (list: seq<string>)
    ensures NoDup(list) && Elements(list) == s
  {
    list := [];
    var rest := s;
    while rest != {}
      invariant rest <= s && NoDup(list) && Elements(list) == s - rest
      decreases rest
    {
      var x :| x in rest;
      assert x !in Elements(list);
      assert Elements(list + [x]) == Elements(list) + {x};
      list := list + [x];
      rest := rest - {x};
    }
  }

  // ---- analyzeImpact ----

  datatype Summary = Summary(
    docsOnly: bool, global: bool, codeChanges: bool, paths: seq<string>,
    impacted: seq<string>, unowned: seq<string>, dependencyUnknown: bool)

  /** The names of the owners of the changed paths. */
  ghost function Owners(projects: seq<Project>, paths: seq<string>): set<string> {
    set p, path | p in projects && path in paths && IsOwner(projects, path, Some(p)) :: p.name
  }

  ghost predicate Unowned(projects: seq<Project>, path: string) {
    IsOwner(projects, path, None)
  }

  ghost predicate Global(projects: seq<Project>, paths: seq<string>, dependencyUnknown: bool) {
    dependencyUnknown || exists path :: path in paths && (IsGlobalImpact(path) || Unowned(projects, path))
  }

  predicate DocsOnly(paths: seq<string>) {
    forall path :: path in paths ==> IsDocsPath(path)
  }

  predicate CodeChanges(paths: seq<string>) {
    exists path :: path in paths && IsCodePath(path)
  }

  /** The affected projects, sorted: all of them when the change is global, otherwise what the owners reach. */
  ghost function Affected(projects: seq<Project>, paths: seq<string>, dependencyUnknown: bool): seq<string> {
    Resolved(projects, Owners(projects, paths), Global(projects, paths, dependencyUnknown))
  }

  ghost predicate Summarizes(s: Summary, paths: seq<string>, projects: seq<Project>, dependencyUnknown: bool) {
    && s.docsOnly == DocsOnly(paths)
    && s.global == Global(projects, paths, dependencyUnknown)
    && s.codeChanges == CodeChanges(paths)
    && Sorted(s.paths) && multiset(s.paths) == multiset(paths)
    && s.impacted == Affected(projects, paths, dependencyUnknown)
    && Sorted(s.unowned) && (forall path :: path in s.unowned <==> path in paths && Unowned(projects, path))
    && s.dependencyUnknown == dependencyUnknown
  }

  /** Names decide: projects with the same root have the same name. */
  ghost predicate NamedByRoot(projects: seq<Project>) {
    forall p, q :: p in projects && q in projects && p.root == q.root ==> p.name == q.name
  }

  /** What the loop of analyzeImpact gathers. */
  datatype Gathered = Gathered(docsOnly: bool, global: bool, code: bool, unowned: seq<string>, impacted: set<string>)

  ghost predicate Noted(projects: seq<Project>, seen: seq<string>, g: Gathered) {
    && g.docsOnly == DocsOnly(seen)
    && (g.global <==> exists path :: path in seen && IsGlobalImpact(path))
    && g.code == CodeChanges(seen)
    && (forall path :: path in g.unowned <==> path in seen && Unowned(projects, path))
    && g.impacted == Owners(projects, seen)
  }

  function Note(g: Gathered, path: string, owner: Option<Project>): Gathered {
    Gathered(
      g.docsOnly && IsDocsPath(path), g.global || IsGlobalImpact(path), g.code || IsCodePath(path),
      if owner.None? then g.unowned + [path] else g.unowned,
      if owner.Some? then g.impacted + {owner.value.name} else g.impacted)
  }

  lemma NoteNext(projects: seq<Project>, paths: seq<string>, i: nat, owner: Option<Project>, g: Gathered)
    requires NamedByRoot(projects) && i < |paths| && IsOwner(projects, paths[i], owner)
    requires Noted(projects, paths[..i], g)
    ensures Noted(projects, paths[..i + 1], Note(g, paths[i], owner))
  {
    NextPrefix(paths, i);
    OwnersNext(projects, paths[..i], paths[i], owner);
  }

  lemma NotedSame(
    projects: seq<Project>, seen: seq<string>, changed: seq<string>, dependencyUnknown: bool, g: Gathered)
    requires Noted(projects, seen, g)
    requires forall path :: path in seen <==> path in changed
    ensures Noted(projects, changed, g)
    ensures (g.global || |g.unowned| > 0 || dependencyUnknown) == Global(projects, changed, dependencyUnknown)
  {
    SameOwners(projects, seen, changed);
    if g.unowned != [] { assert g.unowned[0] in changed; }
  }

  /** analyzeImpact */
  method AnalyzeImpact(changed: seq<string>, projects: seq<Project>, dependencyUnknown: bool) returns (s: Summary)
    requires NamedByRoot(projects)
    ensures Summarizes(s, changed, projects, dependencyUnknown)
  {
    var paths := SortStrings(changed);
    var g := Gathered(true, false, false, [], {});
    var index := BuildOwnershipIndex(projects);
    var graph := BuildDependencyGraph(projects);
    var i := 0;
    while i < |paths|
      invariant 0 <= i <= |paths| && Sorted(g.unowned)
      invariant Noted(projects, paths[..i], g)
    {
      var owner := OwnerForPath(index, paths[i]);
      OwnerIsLongestPrefix(index, projects, paths[i]);
      StillSorted(g.unowned, paths, i);
      NoteNext(projects, paths, i, owner, g);
      g := Note(g, paths[i], owner);
      i := i + 1;
    }
    assert paths[..i] == paths;
    SamePaths(changed, paths);
    NotedSame(projects, paths, changed, dependencyUnknown, g);
    var global := g.global || |g.unowned| > 0 || dependencyUnknown;
    var list := ResolveImpactedProjects(g.impacted, projects, global, graph);
    s := Summary(g.docsOnly, global, g.code, paths, list, g.unowned, dependencyUnknown);
  }

  lemma NextPrefix<T>(s: seq<T>, i: nat)
    requires i < |s|
    ensures s[..i + 1] == s[..i] + [s[i]]
    ensures forall x :: x in s[..i + 1] <==> x in s[..i] || x == s[i]
  {
  }

  lemma SamePaths(changed: seq<string>, paths: seq<string>)
    requires paths == SortStrings(changed)
    ensures forall path :: path in paths <==> path in changed
  {
    forall path ensures path in paths <==> path in changed { assert path in multiset(paths) <==> path in multiset(changed); }
  }

  lemma StillSorted(unowned: seq<string>, paths: seq<string>, i: nat)
    requires Sorted(paths) && i < |paths| && Sorted(unowned) && forall path :: path in unowned ==> path in paths[..i]
    ensures Sorted(unowned + [paths[i]])
  {
    forall k | 0 <= k < |unowned| ensures LessEq(unowned[k], paths[i]) {
      assert unowned[k] in paths[..i];
      var m :| 0 <= m < i && paths[m] == unowned[k];
    }
  }

  lemma OwnersNext(projects: seq<Project>, paths: seq<string>, path: string, owner: Option<Project>)
    requires NamedByRoot(projects) && IsOwner(projects, path, owner)
    ensures Owners(projects, paths + [path]) == Owners(projects, paths) + (if owner.Some? then {owner.value.name} else {})
    ensures Unowned(projects, path) <==> owner.None?
  {
    forall p | p in projects && IsOwner(projects, path, Some(p)) ensures owner.Some? && p.name == owner.value.name {
      OwnerRootUnique(projects, path, Some(p), owner);
    }
    if Unowned(projects, path) { OwnerRootUnique(projects, path, None, owner); }
    var now, before := Owners(projects, paths + [path]), Owners(projects, paths);
    var added := if owner.Some? then {owner.value.name} else {};
    forall n | n in now ensures n in before + added {
      var p, q :| p in projects && q in paths + [path] && IsOwner(projects, q, Some(p)) && p.name == n;
    }
    forall n | n in before + added ensures n in now {
      if n in before {
        var p, q :| p in projects && q in paths && IsOwner(projects, q, Some(p)) && p.name == n;
        assert q in paths + [path];
      } else {
        assert path in paths + [path];
      }
    }
  }

  lemma SameOwners(projects: seq<Project>, paths: seq<string>, paths': seq<string>)
    requires forall path :: path in paths <==> path in paths'
    ensures Owners(projects, paths) == Owners(projects, paths')
  {
  }
}
