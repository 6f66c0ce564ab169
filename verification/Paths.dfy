/** What a changed path is, read off its components, and what that decides about the plan. */
module Paths {
  import opened Strings
  import opened Ownership
  import opened Impact
  import opened Planner
  import opened Coverage

  // ---- Spelling, ASCII case aside ----

  /** `c` is the letter `d`, or its capital. */
  predicate Letter(c: char, d: char) {
    c == d || ('a' <= d <= 'z' && c == (d as int - 32) as char)
  }

  /** `s` spells the word `w`. */
  predicate Spells(s: string, w: string) {
    |s| == |w| && forall i :: 0 <= i < |w| ==> Letter(s[i], w[i])
  }

  predicate EndsIn(s: string, w: string) {
    |w| <= |s| && Spells(s[|s| - |w|..], w)
  }

  /** A word without capitals. */
  predicate Small(w: string) {
    forall i :: 0 <= i < |w| ==> !('A' <= w[i] <= 'Z')
  }

  lemma SpellsLower(s: string, w: string)
    requires Small(w)
    ensures ToLower(s) == w <==> Spells(s, w)
    ensures Spells(ToLower(s), w) <==> Spells(s, w)
  {
    if Spells(s, w) { assert ToLower(s) == w; }
    if ToLower(s) == w {
      forall i | 0 <= i < |w| ensures Letter(s[i], w[i]) { assert ToLower(s)[i] == w[i]; }
    }
    if Spells(ToLower(s), w) {
      forall i | 0 <= i < |w| ensures Letter(s[i], w[i]) { assert Letter(ToLower(s)[i], w[i]); }
    }
  }

  lemma EndsLower(s: string, w: string)
    requires Small(w)
    ensures HasSuffix(ToLower(s), w) <==> EndsIn(s, w)
  {
    if |w| <= |s| {
      assert ToLower(s)[|s| - |w|..] == ToLower(s[|s| - |w|..]);
      SpellsLower(s[|s| - |w|..], w);
    }
  }

  // ---- Components ----

  function Last(s: string): string {
    Components(s)[|Components(s)| - 1]
  }

  /** The last component that is not empty: trailing slashes aside, what the path is called. */
  function NameIn(parts: seq<string>): string {
    if parts == [] then ""
    else if parts[|parts| - 1] != "" then parts[|parts| - 1]
    else NameIn(parts[..|parts| - 1])
  }

  /** One more character, seen from the end. */
  lemma {:induction false} ComponentsSnoc(s: string, c: char)
    ensures var n := |Components(s)| - 1;
      Components(s + [c]) ==
        if c == '/' then Components(s) + [[]] else Components(s)[..n] + [Components(s)[n] + [c]]
  {
    var n := |Components(s)| - 1;
    if s == [] {
      assert s + [c] == [c];
      if c != '/' { OneComponent([c]); }
    } else {
      ComponentsSnoc(s[1..], c);
      HeadSnoc(Components(s[1..]), s[0], c);
      ComponentsCons(s, c);
    }
  }

  lemma ComponentsCons(s: string, c: char)
    requires s != []
    ensures var r := Components(s[1..] + [c]);
      Components(s + [c]) == if s[0] == '/' then [[]] + r else [[s[0]] + r[0]] + r[1..]
  {
    assert (s + [c])[1..] == s[1..] + [c];
  }

  lemma HeadSnoc(r: seq<string>, b: char, c: char)
    requires r != []
    ensures var m, r' := |r| - 1, [[b] + r[0]] + r[1..];
      && [[b] + (r + [[]])[0]] + (r + [[]])[1..] == r' + [[]]
      && (var q := r[..m] + [r[m] + [c]]; [[b] + q[0]] + q[1..] == r'[..m] + [r'[m] + [c]])
  {
    var m, r' := |r| - 1, [[b] + r[0]] + r[1..];
    var q := r[..m] + [r[m] + [c]];
    if m == 0 {
      assert [b] + (r[0] + [c]) == ([b] + r[0]) + [c];
    } else {
      assert q[1..] == r[1..m] + [r[m] + [c]] && r'[..m] == [[b] + r[0]] + r[1..m];
    }
  }

  lemma {:induction false} ComponentsLower(s: string)
    ensures |Components(ToLower(s))| == |Components(s)|
    ensures forall i :: 0 <= i < |Components(s)| ==> Components(ToLower(s))[i] == ToLower(Components(s)[i])
  {
    if s != [] {
      ComponentsLower(s[1..]);
      assert ToLower(s)[1..] == ToLower(s[1..]);
      assert ToLower(s)[0] == '/' <==> s[0] == '/';
      if s[0] != '/' {
        var rest := Components(s[1..]);
        assert ToLower([s[0]] + rest[0]) == [LowerChar(s[0])] + ToLower(rest[0]);
      }
    }
  }

  /** A directory prefix is a first component. */
  lemma {:induction false} UnderDirectory(d: string, s: string)
    requires '/' !in d
    ensures HasPrefix(s, d + "/") <==> |Components(s)| > 1 && Components(s)[0] == d
  {
    if s == [] {
    } else if d == [] {
      FirstComponent(s);
      assert d + "/" == "/";
    } else {
      FirstComponent(s);
      UnderDirectory(d[1..], s[1..]);
      assert d == [d[0]] + d[1..] && (d + "/")[1..] == d[1..] + "/";
      SameHeadOr(d + "/", s);
    }
  }

  lemma SameHeadOr(p: string, s: string)
    requires p != [] && s != []
    ensures p <= s <==> p[0] == s[0] && p[1..] <= s[1..]
  {
    if p[0] == s[0] { SameHead(p, s); }
  }

  /** An ending without a slash is an ending of the last component. */
  lemma {:induction false} SuffixOfLast(s: string, w: string)
    requires '/' !in w
    ensures HasSuffix(s, w) <==> HasSuffix(Last(s), w)
  {
    if s != [] && w != [] {
      var s', w' := s[..|s| - 1], w[..|w| - 1];
      assert s == s' + [s[|s| - 1]] && w == w' + [w[|w| - 1]];
      ComponentsSnoc(s', s[|s| - 1]);
      SuffixSnoc(s', w', s[|s| - 1], w[|w| - 1]);
      SuffixOfLast(s', w');
      if s[|s| - 1] != '/' { SuffixSnoc(Last(s'), w', s[|s| - 1], w[|w| - 1]); }
    }
  }

  lemma SuffixSnoc(s: string, w: string, c: char, d: char)
    ensures HasSuffix(s + [c], w + [d]) <==> c == d && HasSuffix(s, w)
  {
    if |w| <= |s| {
      assert (s + [c])[|s| - |w|..] == s[|s| - |w|..] + [c];
      if s[|s| - |w|..] + [c] == w + [d] {
        assert (s[|s| - |w|..] + [c])[..|w|] == s[|s| - |w|..];
        assert (w + [d])[..|w|] == w;
      }
    }
  }

  /** filepath.Base is the last component that is not empty, where there is one. */
  lemma {:induction false} BaseIsName(s: string)
    ensures NameIn(Components(s)) != "" ==> Base(s) == NameIn(Components(s))
    ensures NameIn(Components(s)) == "" ==> Base(s) == "." || Base(s) == "/"
  {
    NameStripped(s);
    if StripSlashes(s) != "" {
      LastAfterSlash(StripSlashes(s));
      StrippedEnd(s);
      LastNonempty(StripSlashes(s));
    }
  }

  lemma {:induction false} NameStripped(s: string)
    ensures NameIn(Components(StripSlashes(s))) == NameIn(Components(s))
  {
    if s != "" && s[|s| - 1] == '/' {
      var s' := s[..|s| - 1];
      NameStripped(s');
      assert s == s' + "/";
      ComponentsSnoc(s', '/');
      assert (Components(s') + [[]])[..|Components(s')|] == Components(s');
    }
  }

  lemma {:induction false} StrippedEnd(s: string)
    ensures StripSlashes(s) == "" || StripSlashes(s)[|StripSlashes(s)| - 1] != '/'
  {
    if s != "" && s[|s| - 1] == '/' { StrippedEnd(s[..|s| - 1]); }
  }

  lemma LastNonempty(s: string)
    requires s != "" && s[|s| - 1] != '/'
    ensures Last(s) != "" && NameIn(Components(s)) == Last(s)
  {
    assert s == s[..|s| - 1] + [s[|s| - 1]];
    ComponentsSnoc(s[..|s| - 1], s[|s| - 1]);
  }

  lemma {:induction false} LastAfterSlash(s: string)
    ensures AfterSlash(s) == Last(s)
  {
    if '/' !in s {
      OneComponent(s);
    } else {
      var s' := s[..|s| - 1];
      assert s == s' + [s[|s| - 1]];
      ComponentsSnoc(s', s[|s| - 1]);
      if s[|s| - 1] != '/' { LastAfterSlash(s'); }
    }
  }

  lemma {:induction false} OneComponent(s: string)
    requires '/' !in s
    ensures Components(s) == [s]
  {
    if s != [] {
      OneComponent(s[1..]);
      assert s == [s[0]] + s[1..];
    }
  }

  // ---- Path classes ----

  /** The path lies in a top-level directory `d`. */
  predicate InTop(path: string, d: string) {
    |Components(path)| > 1 && Spells(Components(path)[0], d)
  }

  /** Documentation: anything below docs, anything whose name ends in .md. The two names matter only for
      a path with a trailing slash, which has an empty last component. */
  predicate Documentation(path: string) {
    || InTop(path, "docs")
    || EndsIn(Last(path), ".md")
    || Spells(NameIn(Components(path)), "readme.md") || Spells(NameIn(Components(path)), "contributing.md")
  }

  const BUILD_FILES := ["go.mod", "go.sum", "go.work", "go.work.sum", "ci.ai.yaml", "makefile", "dockerfile"]

  /** A file at the top of the repository that every project may depend on. */
  ghost predicate SharedFile(path: string) {
    InTop(path, ".github") || exists i :: 0 <= i < |BUILD_FILES| && Spells(path, BUILD_FILES[i])
  }

  predicate SourceFile(path: string) {
    EndsIn(Last(path), ".go") || EndsIn(Last(path), ".mod") || EndsIn(Last(path), ".sum")
  }

  lemma InTopLower(path: string, d: string)
    requires Small(d) && '/' !in d
    ensures HasPrefix(ToLower(path), d + "/") <==> InTop(path, d)
  {
    UnderDirectory(d, ToLower(path));
    ComponentsLower(path);
    SpellsLower(Components(path)[0], d);
  }

  lemma EndingLower(path: string, w: string)
    requires Small(w) && '/' !in w
    ensures HasSuffix(ToLower(path), w) <==> EndsIn(Last(path), w)
  {
    SuffixOfLast(ToLower(path), w);
    ComponentsLower(path);
    EndsLower(Last(path), w);
  }

  lemma {:induction false} NameLower(parts: seq<string>, lower: seq<string>)
    requires |lower| == |parts| && forall i :: 0 <= i < |parts| ==> lower[i] == ToLower(parts[i])
    ensures NameIn(lower) == ToLower(NameIn(parts))
  {
    if parts != [] {
      var n := |parts| - 1;
      assert lower[n] == "" <==> parts[n] == "";
      NameLower(parts[..n], lower[..n]);
    }
  }

  lemma BaseLower(path: string, w: string)
    requires Small(w) && |w| > 1
    ensures ToLower(Base(ToLower(path))) == w <==> Spells(NameIn(Components(path)), w)
  {
    var lower := ToLower(path);
    ComponentsLower(path);
    NameLower(Components(path), Components(lower));
    BaseIsName(lower);
    SpellsLower(Base(lower), w);
    SpellsLower(NameIn(Components(path)), w);
  }

  lemma DocumentationExactly(path: string)
    ensures IsDocsPath(path) <==> Documentation(path)
  {
    assert "docs" + "/" == "docs/";
    InTopLower(path, "docs");
    EndingLower(path, ".md");
    BaseLower(path, "readme.md");
    BaseLower(path, "contributing.md");
  }

  lemma SharedFileExactly(path: string)
    ensures IsGlobalImpact(path) <==> SharedFile(path)
  {
    assert ".github" + "/" == ".github/";
    InTopLower(path, ".github");
    forall i | 0 <= i < |BUILD_FILES| ensures ToLower(path) == BUILD_FILES[i] <==> Spells(path, BUILD_FILES[i]) {
      SpellsLower(path, BUILD_FILES[i]);
    }
    if IsGlobalImpact(path) && !InTop(path, ".github") {
      assert ToLower(path) in BUILD_FILES;
    }
  }

  lemma SourceFileExactly(path: string)
    ensures IsCodePath(path) <==> SourceFile(path)
  {
    EndingLower(path, ".go");
    EndingLower(path, ".mod");
    EndingLower(path, ".sum");
  }

  // ---- What the classes decide ----

  predicate OnlyDocumentation(changed: seq<string>) {
    forall path :: path in changed ==> Documentation(path)
  }

  lemma DocsOnlyExactly(changed: seq<string>)
    ensures DocsOnly(changed) <==> OnlyDocumentation(changed)
  {
    forall path | path in changed ensures IsDocsPath(path) <==> Documentation(path) { DocumentationExactly(path); }
  }

  /** No project's directory holds the path, and there is no project at the repository root. */
  ghost predicate Ownerless(projects: seq<Project>, path: string) {
    forall p :: p in projects ==> p.root != "." && !(Components(p.root) <= Components(Plain(path)))
  }

  lemma UnownedExactly(projects: seq<Project>, path: string)
    ensures Unowned(projects, path) <==> Ownerless(projects, path)
  {
    forall p | p in projects ensures Owns(p, path) <==> p.root != "." && Components(p.root) <= Components(Plain(path)) {
      OwnsExactly(p, path);
    }
  }

  /** The change may concern every project. */
  ghost predicate ConcernsAll(projects: seq<Project>, changed: seq<string>, dependencyUnknown: bool) {
    dependencyUnknown || exists path :: path in changed && (SharedFile(path) || Ownerless(projects, path))
  }

  lemma ConcernsAllExactly(projects: seq<Project>, changed: seq<string>, dependencyUnknown: bool)
    ensures Global(projects, changed, dependencyUnknown) <==> ConcernsAll(projects, changed, dependencyUnknown)
  {
    forall path | path in changed
      ensures IsGlobalImpact(path) <==> SharedFile(path)
      ensures Unowned(projects, path) <==> Ownerless(projects, path)
    {
      SharedFileExactly(path);
      UnownedExactly(projects, path);
    }
  }

  /** The facts the reasons are worded from, path by path. */
  lemma WhyExactly(changed: seq<string>, projects: seq<Project>, dependencyUnknown: bool)
    ensures var why := GoWhy(changed, projects, dependencyUnknown);
      && (why.docsOnly <==> OnlyDocumentation(changed))
      && (why.global <==> ConcernsAll(projects, changed, dependencyUnknown))
      && why.dependencyUnknown == dependencyUnknown
      && (why.anyUnowned <==> exists path :: path in changed && Ownerless(projects, path))
      && (why.codeChanges <==> exists path :: path in changed && SourceFile(path))
      && why.impacted == Affected(projects, changed, dependencyUnknown)
  {
    DocsOnlyExactly(changed);
    ConcernsAllExactly(projects, changed, dependencyUnknown);
    forall path | path in changed
      ensures Unowned(projects, path) <==> Ownerless(projects, path)
      ensures IsCodePath(path) <==> SourceFile(path)
    {
      UnownedExactly(projects, path);
      SourceFileExactly(path);
    }
  }

  /** Code is tested: if some changed path is not documentation, every affected project is built,
      tested and linted in its own directory, outside the clash of two modules called "root". */
  lemma CodeIsTested(changed: seq<string>, projects: seq<Project>, dependencyUnknown: bool, ctx: Context, p: Project)
    requires projects != [] && Discovered(projects) && p in projects && !OnlyDocumentation(changed)
    requires p.name in AffectedSet(changed, projects, dependencyUnknown)
    requires !("root" in AffectedSet(changed, projects, dependencyUnknown) && RootClash(projects))
    ensures var plan := GoPlan(changed, projects, dependencyUnknown, ctx);
      && Runs(plan, "go build ./...", true, p.root)
      && Runs(plan, "go test ./...", true, p.root) && Runs(plan, "go vet ./...", false, p.root)
  {
    DocsOnlyExactly(changed);
    CoverageExact(changed, projects, dependencyUnknown, ctx);
    assert Covers(GoPlan(changed, projects, dependencyUnknown, ctx), p, DocsOnly(changed));
  }

  /** Documentation is only built: if every changed path is documentation, no job tests or lints. */
  lemma DocumentationIsOnlyBuilt(changed: seq<string>, projects: seq<Project>, dependencyUnknown: bool, ctx: Context, i: nat)
    requires OnlyDocumentation(changed) && i < |GoPlan(changed, projects, dependencyUnknown, ctx)|
    ensures GoPlan(changed, projects, dependencyUnknown, ctx)[i].spec.steps == ["go build ./..."]
  {
    DocsOnlyExactly(changed);
    JobFrom(GoTargets(changed, projects, dependencyUnknown), projects, DocsOnly(changed), ctx,
            ctx.wording(GoWhy(changed, projects, dependencyUnknown)), i);
  }

  /** Which projects are affected, exactly: all of them when the change concerns all, otherwise the
      owners of the changed paths and what depends on them. */
  lemma AffectedExactly(changed: seq<string>, projects: seq<Project>, dependencyUnknown: bool, x: string)
    requires projects != [] && Discovered(projects)
    ensures x in AffectedSet(changed, projects, dependencyUnknown) <==>
      x in Names(projects) && (ConcernsAll(projects, changed, dependencyUnknown) || Reaches(projects, Owners(projects, changed), x))
  {
    ConcernsAllExactly(projects, changed, dependencyUnknown);
    ClosureInside(projects, Owners(projects, changed));
  }

  /** A change of a shared file, a path without an owner, or unknown dependencies: everything is planned. */
  lemma SharedChangePlansAll(changed: seq<string>, projects: seq<Project>, dependencyUnknown: bool, ctx: Context, p: Project)
    requires changed != [] && Discovered(projects) && p in projects && !("root" in Names(projects) && RootClash(projects))
    requires ConcernsAll(projects, changed, dependencyUnknown)
    ensures var plan := GoPlan(changed, projects, dependencyUnknown, ctx);
      && Runs(plan, "go build ./...", true, p.root)
      && (!OnlyDocumentation(changed) ==>
            Runs(plan, "go test ./...", true, p.root) && Runs(plan, "go vet ./...", false, p.root))
  {
    DocsOnlyExactly(changed);
    ConcernsAllExactly(projects, changed, dependencyUnknown);
    CoverageExact(changed, projects, dependencyUnknown, ctx);
    assert p.name in AffectedSet(changed, projects, dependencyUnknown);
    assert Covers(GoPlan(changed, projects, dependencyUnknown, ctx), p, DocsOnly(changed));
  }

  /** Nothing else is planned: every job runs in the directory of an affected project. */
  lemma OnlyAffectedPlanned(changed: seq<string>, projects: seq<Project>, dependencyUnknown: bool, ctx: Context, i: nat)
    requires changed != [] && projects != [] && Discovered(projects) && i < |GoPlan(changed, projects, dependencyUnknown, ctx)|
    ensures exists p :: p in projects && p.name in AffectedSet(changed, projects, dependencyUnknown) &&
                        p.root == GoPlan(changed, projects, dependencyUnknown, ctx)[i].spec.workdir
  {
    var names, r := GoTargets(changed, projects, dependencyUnknown), ctx.wording(GoWhy(changed, projects, dependencyUnknown));
    var job := GoPlan(changed, projects, dependencyUnknown, ctx)[i];
    JobFrom(names, projects, DocsOnly(changed), ctx, r, i);
    var n :| n in names && job in JobsFor(n, Workdir(projects, n), DocsOnly(changed), ctx, r);
    RunsThere(n, Workdir(projects, n), DocsOnly(changed), ctx, r, job);
    TargetsAre(changed, projects, dependencyUnknown);
    assert n in Elements(names);
    AffectedExactly(changed, projects, dependencyUnknown, n);
    WorkdirOf(projects, n);
  }
}
