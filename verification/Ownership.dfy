/** Which project owns a changed path: sort once, then take the first match. */
module Ownership {
  import opened Strings
  import opened Tables

  /** A module of the repository; `needs` are the module paths its go.mod requires. */
  datatype Project = Project(name: string, root: string, modulePath: string, needs: seq<string>)

  /** The comparator of buildOwnershipIndex: longest root first, the repository root last. */
  predicate Earlier(p: Project, q: Project) {
    if p.root == "." && q.root != "." then false
    else if q.root == "." && p.root != "." then true
    else if |p.root| != |q.root| then |p.root| > |q.root|
    else p.root != q.root && LessEq(p.root, q.root)
  }

  predicate InOrder(index: seq<Project>) {
    forall i, k :: 0 <= i < k < |index| ==> !Earlier(index[k], index[i])
  }

  /** What an in-place sort with that comparator may leave behind; it need not be stable. */
  predicate Arranged(index: seq<Project>, projects: seq<Project>) {
    InOrder(index) && multiset(index) == multiset(projects)
  }

  lemma EarlierNot(p: Project, q: Project, r: Project)
    requires !Earlier(q, p) && !Earlier(r, q)
    ensures !Earlier(r, p)
  {
    if p.root != "." && q.root != "." && r.root != "." && |p.root| == |q.root| == |r.root| {
      Total(p.root, q.root);
      Total(q.root, r.root);
      Transitive(p.root, q.root, r.root);
      if Earlier(r, p) { Antisymmetric(r.root, p.root); }
    }
  }

  lemma EarlierAsymmetric(p: Project, q: Project)
    requires Earlier(p, q)
    ensures !Earlier(q, p)
  {
    if Earlier(q, p) && p.root != "." && q.root != "." { Antisymmetric(p.root, q.root); }
  }

  /** buildOwnershipIndex */
  method BuildOwnershipIndex(projects: seq<Project>) returns (index: seq<Project>)
    ensures Arranged(index, projects)
  {
    index := [];
    var n := 0;
    while n < |projects|
      invariant 0 <= n <= |projects| && Arranged(index, projects[..n])
    {
      var p := projects[n];
      var k := 0;
      while k < |index| && !Earlier(p, index[k])
        invariant 0 <= k <= |index|
        invariant forall i :: 0 <= i < k ==> !Earlier(p, index[i])
      {
        k := k + 1;
      }
      InsertAt(index, p, k);
      assert projects[..n + 1] == projects[..n] + [p];
      assert index == index[..k] + index[k..];
      index := index[..k] + [p] + index[k..];
      n := n + 1;
    }
    assert projects[..n] == projects;
  }

  lemma InsertAt(index: seq<Project>, p: Project, k: nat)
    requires InOrder(index) && k <= |index| && forall i :: 0 <= i < k ==> !Earlier(p, index[i])
    requires k < |index| ==> Earlier(p, index[k])
    ensures InOrder(index[..k] + [p] + index[k..])
  {
    forall i | k <= i < |index| ensures !Earlier(index[i], p) {
      EarlierAsymmetric(p, index[k]);
      if k < i { EarlierNot(p, index[k], index[i]); }
    }
    var s := index[..k] + [p] + index[k..];
    forall i, m | 0 <= i < m < |s| ensures !Earlier(s[m], s[i]) {
      assert i < k ==> s[i] == index[i];
      assert i > k ==> s[i] == index[i - 1];
      assert m < k ==> s[m] == index[m];
      assert m > k ==> s[m] == index[m - 1];
    }
  }

  // ---- Ownership ----

  /** The path is the project's directory or lies below it; the repository root is only a fallback. */
  predicate Owns(p: Project, path: string) {
    var normalized := TrimPrefix(path, "./");
    p.root != "." && (normalized == p.root || HasPrefix(normalized, p.root + "/"))
  }

  function FirstOwner(index: seq<Project>, path: string): Option<Project> {
    if index == [] then None
    else if Owns(index[0], path) then Some(index[0])
    else FirstOwner(index[1..], path)
  }

  function FirstRoot(index: seq<Project>): Option<Project> {
    if index == [] then None
    else if index[0].root == "." then Some(index[0])
    else FirstRoot(index[1..])
  }

  /** ownerForPath */
  function OwnerForPath(index: seq<Project>, path: string): Option<Project> {
    match FirstOwner(index, path)
    case Some(p) => Some(p)
    case None => FirstRoot(index)
  }

  /** `owner` is the project whose root is the longest directory prefix of the path; the repository
      root when no other project owns the path; nothing when there is no such project either. */
  predicate IsOwner(projects: seq<Project>, path: string, owner: Option<Project>) {
    match owner
    case Some(p) =>
      && p in projects
      && ((Owns(p, path) && forall q :: q in projects && Owns(q, path) ==> |q.root| <= |p.root|)
          || (p.root == "." && forall q :: q in projects ==> !Owns(q, path)))
    case None => forall q :: q in projects ==> !Owns(q, path) && q.root != "."
  }

  lemma {:induction false} FirstOwnerFound(index: seq<Project>, path: string)
    requires InOrder(index)
    ensures match FirstOwner(index, path)
      case Some(p) => p in index && Owns(p, path) && forall q :: q in index && Owns(q, path) ==> |q.root| <= |p.root|
      case None => forall q :: q in index ==> !Owns(q, path)
  {
    if index != [] {
      if Owns(index[0], path) {
        forall q | q in index && Owns(q, path) ensures |q.root| <= |index[0].root| {
          var k :| 0 <= k < |index| && index[k] == q;
          assert k > 0 ==> !Earlier(index[k], index[0]);
        }
      } else {
        FirstOwnerFound(index[1..], path);
        assert index == [index[0]] + index[1..];
      }
    }
  }

  lemma {:induction false} FirstRootFound(index: seq<Project>)
    ensures match FirstRoot(index)
      case Some(p) => p in index && p.root == "."
      case None => forall q :: q in index ==> q.root != "."
  {
    if index != [] {
      FirstRootFound(index[1..]);
      assert index == [index[0]] + index[1..];
    }
  }

  /** Sort-then-first-match is longest-prefix ownership. */
  lemma OwnerIsLongestPrefix(index: seq<Project>, projects: seq<Project>, path: string)
    requires Arranged(index, projects)
    ensures IsOwner(projects, path, OwnerForPath(index, path))
  {
    FirstOwnerFound(index, path);
    FirstRootFound(index);
    forall q: Project ensures q in index <==> q in projects {
      assert q in multiset(index) <==> q in multiset(projects);
    }
  }

  /** The owner's root does not depend on how ties were sorted. */
  lemma OwnerRootUnique(projects: seq<Project>, path: string, x: Option<Project>, y: Option<Project>)
    requires IsOwner(projects, path, x) && IsOwner(projects, path, y)
    ensures x.Some? <==> y.Some?
    ensures x.Some? ==> x.value.root == y.value.root
  {
    if x.Some? && y.Some? && Owns(x.value, path) && Owns(y.value, path) {
      var n := TrimPrefix(path, "./");
      var r, q := x.value.root, y.value.root;
      assert |r| == |q| && r <= n && q <= n;
      assert r == n[..|r|] && q == n[..|q|];
    }
  }

  // ---- Directory prefixes ----

  /** The components of a slash-separated path. */
  function Components(s: string): (r: seq<string>)
    ensures r != []
  {
    if s == [] then [[]]
    else if s[0] == '/' then [[]] + Components(s[1..])
    else
      var rest := Components(s[1..]);
      [[s[0]] + rest[0]] + rest[1..]
  }

  /** The string test of ownerForPath is the prefix order on components: "api" does not own "apis/x". */
  lemma {:induction false} DirectoryPrefix(root: string, path: string)
    ensures (path == root || HasPrefix(path, root + "/")) <==> Components(root) <= Components(path)
  {
    var r, p := Components(root), Components(path);
    if root == [] {
      assert root + "/" == "/";
      assert r <= p <==> p[0] == [];
    } else if path == [] {
      assert root[0] == '/' ==> |r| >= 2;
    } else if root[0] == path[0] {
      DirectoryPrefix(root[1..], path[1..]);
      var r', p' := Components(root[1..]), Components(path[1..]);
      assert root == [root[0]] + root[1..] && path == [path[0]] + path[1..];
      assert (root + "/")[1..] == root[1..] + "/";
      assert root + "/" <= path <==> root[1..] + "/" <= path[1..] by { SameHead(root + "/", path); }
      if root[0] == '/' {
        SameHead(r, p);
        assert r[1..] == r' && p[1..] == p';
      } else {
        SplitHead(r', p', root[0]);
      }
    } else {
      assert !(root + "/" <= path) by { assert (root + "/")[0] == root[0]; }
      FirstComponent(root);
      FirstComponent(path);
      assert r[0] != p[0];
    }
  }

  lemma FirstComponent(s: string)
    requires s != []
    ensures if s[0] == '/' then Components(s)[0] == [] else Components(s)[0] != [] && Components(s)[0][0] == s[0]
  {
  }

  lemma SameHead<T>(s: seq<T>, t: seq<T>)
    requires s != [] && t != [] && s[0] == t[0]
    ensures s <= t <==> s[1..] <= t[1..]
  {
    assert s == [s[0]] + s[1..] && t == [t[0]] + t[1..];
    if s[1..] <= t[1..] {
      forall i | 0 <= i < |s| ensures s[i] == t[i] {
        if i > 0 { assert s[i] == s[1..][i - 1] && t[i] == t[1..][i - 1]; }
      }
    }
  }

  lemma SplitHead(r: seq<string>, p: seq<string>, c: char)
    requires r != [] && p != []
    ensures [[c] + r[0]] + r[1..] <= [[c] + p[0]] + p[1..] <==> r <= p
  {
    var r', p' := [[c] + r[0]] + r[1..], [[c] + p[0]] + p[1..];
    assert r'[1..] == r[1..] && p'[1..] == p[1..];
    assert [c] + r[0] == [c] + p[0] ==> ([c] + r[0])[1..] == ([c] + p[0])[1..];
    if r[0] == p[0] {
      SameHead(r, p);
      SameHead(r', p');
    } else {
      assert r'[0] != p'[0];
    }
  }

  /** The path as listed from the repository root. */
  function Plain(path: string): string {
    if |path| >= 2 && path[0] == '.' && path[1] == '/' then path[2..] else path
  }

  /** A project other than the repository root owns exactly the paths whose components begin with those
      of its own directory. */
  lemma OwnsExactly(p: Project, path: string)
    ensures Owns(p, path) <==> p.root != "." && Components(p.root) <= Components(Plain(path))
  {
    assert "./" <= path ==> path[0] == "./"[0] && path[1] == "./"[1];
    assert TrimPrefix(path, "./") == Plain(path);
    DirectoryPrefix(p.root, Plain(path));
  }

  /** What the comparator makes of an index: deepest names first by length, then by string order, the
      repository root last. */
  lemma ArrangedMeans(index: seq<Project>, projects: seq<Project>, i: nat, k: nat)
    requires Arranged(index, projects) && i < k < |index|
    ensures index[i].root == "." ==> index[k].root == "."
    ensures index[i].root != "." && index[k].root != "." ==> |index[i].root| >= |index[k].root|
    ensures index[i].root != "." && |index[i].root| == |index[k].root| && index[k].root != "." ==>
      LessEq(index[i].root, index[k].root)
  {
    Total(index[i].root, index[k].root);
    Reflexive(index[i].root);
    assert !Earlier(index[k], index[i]);
  }
}
